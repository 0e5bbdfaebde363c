/**
 * The QR landing page's hash handling: the query string after the first
 * '?' of the location hash, the thank-you check on it, and the clean-up
 * that drops the query from the hash.
 */
module QrLanding {
  import opened Wrappers
  import opened Strings

  /** `window.location.hash || ''`: an absent hash reads as the empty string. */
  function HashOrEmpty(hash: Option<string>): string
  {
    match hash
    case Some(h) => h
    case None => ""
  }

  /**
   * `getHashQuery`: nothing outside a browser or when the hash has no '?';
   * otherwise everything after the first '?', later '?'s included.
   */
  function GetHashQuery(hasWindow: bool, hash: Option<string>): (r: Option<string>)
    ensures r.None? <==> !hasWindow || '?' !in HashOrEmpty(hash)
    ensures r.Some? ==>
      var h := HashOrEmpty(hash);
      var k := |h| - |r.value| - 1;
      0 <= k && h == h[..k] + "?" + r.value && '?' !in h[..k]
  {
    if !hasWindow then None
    else
      var h := HashOrEmpty(hash);
      var i := IndexOf(h, '?');
      if i == -1 then None
      else
        assert h == h[..i] + "?" + h[i + 1..];
        Some(h[i + 1..])
  }

  /** A missing or empty hash never carries a query. */
  lemma NoHashNoQuery(hasWindow: bool)
    ensures GetHashQuery(hasWindow, None) == None
    ensures GetHashQuery(hasWindow, Some("")) == None
  {
  }

  /** The query is the unique suffix: whatever precedes the first '?' and whatever follows it are recovered. */
  lemma {:induction false} HashQueryRoundTrip(before: string, query: string)
    requires '?' !in before
    ensures GetHashQuery(true, Some(before + "?" + query)) == Some(query)
  {
    var h := before + "?" + query;
    assert h[|before|] == '?';
    assert '?' in h;
    var r := GetHashQuery(true, Some(h));
    var k := |h| - |r.value| - 1;
    assert r.value == h[k + 1..];
    assert h[|before| + 1..] == query;
  }

  /**
   * The parsed query as ordered name/value pairs; `get(name)` answers the
   * value of the first pair with that name.
   */
  function GetParam(pairs: seq<(string, string)>, name: string): (r: Option<string>)
    ensures r.None? <==> forall i :: 0 <= i < |pairs| ==> pairs[i].0 != name
    ensures r.Some? ==> exists i :: 0 <= i < |pairs| && pairs[i] == (name, r.value)
                                    && forall j :: 0 <= j < i ==> pairs[j].0 != name
  {
    if |pairs| == 0 then None
    else if pairs[0].0 == name then
      assert pairs[0] == (name, pairs[0].1);
      Some(pairs[0].1)
    else
      var r := GetParam(pairs[1..], name);
      if r.Some? then
        var i :| 0 <= i < |pairs[1..]| && pairs[1..][i] == (name, r.value)
                 && forall j :: 0 <= j < i ==> pairs[1..][j].0 != name;
        assert pairs[i + 1] == (name, r.value);
        assert forall j :: 0 <= j < i + 1 ==> pairs[j].0 != name by {
          forall j | 0 <= j < i + 1 ensures pairs[j].0 != name {
            if j > 0 { assert pairs[j] == pairs[1..][j - 1]; }
          }
        }
        r
      else
        assert forall i :: 1 <= i < |pairs| ==> pairs[i] == pairs[1..][i - 1];
        r
  }

  /** `params?.get('thanks') === '1'`: the toast shows only for a query whose first `thanks` is exactly "1". */
  predicate ShowsThanksToast(params: Option<seq<(string, string)>>): (r: bool)
    ensures params.None? ==> !r
    ensures r <==> params.Some? && exists i :: 0 <= i < |params.value| && params.value[i] == ("thanks", "1")
                                                 && forall j :: 0 <= j < i ==> params.value[j].0 != "thanks"
  {
    params.Some? && GetParam(params.value, "thanks") == Some("1")
  }

  /**
   * The toast never shows without a query, and a `thanks` pair decides it
   * wherever it stands: it shows exactly when that pair's value is "1",
   * whatever pairs without a `thanks` name come before it and whatever
   * pairs come after it.
   */
  lemma {:induction false} ThanksToastOnlyForOne(before: seq<(string, string)>, v: string, after: seq<(string, string)>)
    requires forall j :: 0 <= j < |before| ==> before[j].0 != "thanks"
    ensures !ShowsThanksToast(None)
    ensures !ShowsThanksToast(Some(before))
    ensures ShowsThanksToast(Some(before + [("thanks", v)] + after)) <==> v == "1"
  {
    if |before| > 0 {
      ThanksToastOnlyForOne(before[1..], v, after);
      assert before + [("thanks", v)] + after == [before[0]] + (before[1..] + [("thanks", v)] + after);
    }
  }

  /** `hash.split('?')[0]`: the hash up to its first '?', or all of it. */
  function CleanHash(h: string): (r: string)
    ensures '?' !in r
    ensures |r| <= |h| && r == h[..|r|]
    ensures '?' !in h ==> r == h
    ensures '?' in h ==> h[|r|] == '?'
  {
    var i := IndexOf(h, '?');
    if i == -1 then h else h[..i]
  }

  /** Cleaning twice is cleaning once, and a cleaned hash has no query left. */
  lemma CleanHashSettles(h: string, hasWindow: bool)
    ensures CleanHash(CleanHash(h)) == CleanHash(h)
    ensures GetHashQuery(hasWindow, Some(CleanHash(h))) == None
  {
  }

  /** The cleaned hash, a '?' and the query read from the original give back the original hash. */
  lemma CleanHashAndQueryRebuild(h: string)
    requires GetHashQuery(true, Some(h)).Some?
    ensures CleanHash(h) + "?" + GetHashQuery(true, Some(h)).value == h
  {
  }
}
