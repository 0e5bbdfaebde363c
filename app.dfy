/**
 * The application shell: the pathname-to-hash redirect run once on mount,
 * the hash route table with its Home fallback, and the label test that
 * decides which "Start intake form" buttons are hidden.
 */
module App {
  import opened Wrappers
  import opened Strings

  /** The pretty paths that are mirrored into the hash. */
  predicate IsMirroredPath(pathname: string)
  {
    pathname == "/qr" || pathname == "/qr-code" || pathname == "/thank-you"
  }

  /**
   * The redirect decision: the value assigned to `location.hash`, if any.
   * `/qr`, `/qr-code` and `/thank-you` are mirrored into the hash unless
   * the hash already names them.
   */
  function RedirectHash(pathname: string, hash: string): (r: Option<string>)
    ensures r.Some? <==> IsMirroredPath(pathname) && hash != "#" + pathname
    ensures r.Some? ==> r.value == pathname
  {
    if pathname == "/qr" && hash != "#/qr" then Some("/qr")
    else if pathname == "/qr-code" && hash != "#/qr-code" then Some("/qr-code")
    else if pathname == "/thank-you" && hash != "#/thank-you" then Some("/thank-you")
    else None
  }

  /**
   * Assigning `x` to `location.hash` makes the hash read `#x`; at that
   * point the decision asks for nothing more, so the redirect settles
   * after one assignment.
   */
  lemma RedirectSettles(pathname: string, hash: string)
    ensures RedirectHash(pathname, hash).Some? ==>
              RedirectHash(pathname, "#" + RedirectHash(pathname, hash).value) == None
    ensures RedirectHash(pathname, "#" + pathname) == None
  {
  }

  /** The pages of the site. */
  datatype Page = HomePage | QrLandingPage | QrCodeToolPage | ThankYouPage

  /** The route table in declaration order; any other path falls back to Home. */
  const Routes: seq<(string, Page)> :=
    [("/", HomePage), ("/qr", QrLandingPage), ("/qr-code", QrCodeToolPage), ("/thank-you", ThankYouPage)]

  /** The page of the first route whose path is `path`, or Home. */
  function RouteFrom(table: seq<(string, Page)>, path: string): (r: Page)
    ensures (forall i :: 0 <= i < |table| ==> table[i].0 != path) ==> r == HomePage
    ensures r != HomePage ==> exists i :: 0 <= i < |table| && table[i] == (path, r)
  {
    if |table| == 0 then HomePage
    else if table[0].0 == path then
      assert table[0] == (path, table[0].1);
      table[0].1
    else
      var r := RouteFrom(table[1..], path);
      if r != HomePage then
        var i :| 0 <= i < |table[1..]| && table[1..][i] == (path, r);
        assert table[i + 1] == (path, r);
        r
      else
        r
  }

  /**
   * The page the router shows for a hash path: Home exactly when the path
   * is none of the three other declared paths, and otherwise the page
   * declared at that path.
   */
  function Route(path: string): (r: Page)
    ensures r == HomePage <==> path !in {"/qr", "/qr-code", "/thank-you"}
    ensures r != HomePage ==> PathOf(r) == path
  {
    RouteFrom(Routes, path)
  }

  /** The path each page is declared under. */
  function PathOf(p: Page): string
  {
    match p
    case HomePage => "/"
    case QrLandingPage => "/qr"
    case QrCodeToolPage => "/qr-code"
    case ThankYouPage => "/thank-you"
  }

  /**
   * Every page is reached through its own path, every path other than the
   * four declared ones shows Home, and a page other than Home is shown
   * only at its own path.
   */
  lemma RouteTable(p: Page, path: string)
    ensures Route(PathOf(p)) == p
    ensures path !in {"/", "/qr", "/qr-code", "/thank-you"} ==> Route(path) == HomePage
    ensures Route(path) != HomePage ==> path == PathOf(Route(path))
  {
    if Route(path) != HomePage {
      var i :| 0 <= i < |Routes| && Routes[i] == (path, Route(path));
    }
  }

  /** A redirect always lands on the page its pathname names, never on the fallback. */
  lemma RedirectLandsOnItsPage(pathname: string, hash: string)
    requires RedirectHash(pathname, hash).Some?
    ensures Route(RedirectHash(pathname, hash).value) != HomePage
    ensures PathOf(Route(RedirectHash(pathname, hash).value)) == pathname
  {
  }

  /** The label that marks an intake-form button to hide. */
  const IntakeLabel := "start intake form"

  /** `(el.textContent || '').trim().toLowerCase() === 'start intake form'`. */
  predicate IsIntakeButton(textContent: Option<string>): (r: bool)
    ensures textContent.None? || textContent == Some("") ==> !r
    ensures r ==> textContent.Some? && |Trim(textContent.value)| == |IntakeLabel|
    ensures r ==> textContent.Some? && ToLower(Trim(textContent.value)) == IntakeLabel
    ensures textContent.Some? && ToLower(textContent.value) == IntakeLabel ==> r
  {
    var text := if textContent.Some? then textContent.value else "";
    IntakeCaptionIsTrimmed(text);
    ToLower(Trim(text)) == IntakeLabel
  }

  /** A caption that lower-cases to the intake label has no whitespace at either end to trim. */
  lemma IntakeCaptionIsTrimmed(caption: string)
    ensures ToLower(caption) == IntakeLabel ==> Trim(caption) == caption
  {
    if ToLower(caption) == IntakeLabel {
      var l := ToLower(caption);
      var n := |caption|;
      assert n == 17;
      assert l[0] == 's' && l[n - 1] == 'm';
      assert LowerChar(caption[0]) == l[0] && LowerChar(caption[n - 1]) == l[n - 1];
      assert !IsWhitespace(caption[0]) && !IsWhitespace(caption[n - 1]);
      LeadingWhitespaceUnique(caption, 0);
      TrailingWhitespaceUnique(caption, 0);
      assert caption[0..n] == caption;
    }
  }

  /**
   * Surrounding whitespace never changes the decision, a button without
   * text is never hidden, and a caption that lower-cases to the intake
   * label is hidden however it is spaced around.
   */
  lemma IntakeButtonMatch(p: string, caption: string, q: string)
    requires AllWhitespace(p) && AllWhitespace(q)
    ensures IsIntakeButton(Some(p + caption + q)) == IsIntakeButton(Some(caption))
    ensures !IsIntakeButton(None) && !IsIntakeButton(Some(""))
    ensures ToLower(caption) == IntakeLabel ==> IsIntakeButton(Some(p + caption + q))
  {
    TrimIgnoresPadding(p, caption, q);
    if ToLower(caption) == IntakeLabel {
      IntakeCaptionIsTrimmed(caption);
    }
  }

  /**
   * A button is hidden exactly when its text is some letter casing of the
   * intake label with whitespace before and after it.
   */
  lemma {:induction false} HiddenTextIsPaddedLabel(t: string)
    ensures IsIntakeButton(Some(t)) <==>
              exists p, c, q :: t == p + c + q && AllWhitespace(p) && AllWhitespace(q) && ToLower(c) == IntakeLabel
  {
    if IsIntakeButton(Some(t)) {
      var m := LeadingWhitespace(t);
      var c := Trim(t);
      TrimSplits(t);
      assert t == t[..m] + c + t[m + |c|..] && ToLower(c) == IntakeLabel;
    } else {
      forall p, c, q | t == p + c + q && AllWhitespace(p) && AllWhitespace(q)
        ensures ToLower(c) != IntakeLabel
      {
        IntakeButtonMatch(p, c, q);
      }
    }
  }
}
