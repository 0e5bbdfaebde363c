/**
 * Click analytics for calls to action: how a clicked element's link is
 * found and classified, the event parameters built from it, and the
 * payload `trackEvent` records.
 */
module Analytics {
  import opened Wrappers
  import opened Strings

  /** The `type` hint of an analytics event. */
  datatype CtaType = LinkCta | TelCta | MailtoCta | CalendlyCta | FormCta

  function TypeName(t: CtaType): (r: string)
    ensures r in {"link", "tel", "mailto", "calendly", "form"}
  {
    match t
    case LinkCta => "link"
    case TelCta => "tel"
    case MailtoCta => "mailto"
    case CalendlyCta => "calendly"
    case FormCta => "form"
  }

  /** Different types are recorded under different names. */
  lemma TypeNameInjective(a: CtaType, b: CtaType)
    ensures TypeName(a) == TypeName(b) <==> a == b
  {
  }

  /**
   * The classification of an href, made on its lower-cased form: a `tel:`
   * prefix first, then a `mailto:` prefix, then "calendly" anywhere, and
   * otherwise a plain link.
   */
  function Classify(href: string): (r: CtaType)
    ensures r == TelCta <==> StartsWith(ToLower(href), "tel:")
    ensures r == MailtoCta <==> !StartsWith(ToLower(href), "tel:") && StartsWith(ToLower(href), "mailto:")
    ensures r == CalendlyCta <==>
              && !StartsWith(ToLower(href), "tel:")
              && !StartsWith(ToLower(href), "mailto:")
              && exists i :: OccursAt(ToLower(href), "calendly", i)
    ensures r != FormCta
  {
    var hrefLower := ToLower(href);
    if StartsWith(hrefLower, "tel:") then TelCta
    else if StartsWith(hrefLower, "mailto:") then MailtoCta
    else if Contains(hrefLower, "calendly") then CalendlyCta
    else LinkCta
  }

  /** Letter case never changes the classification. */
  lemma ClassifyIgnoresCase(href: string)
    ensures Classify(ToLower(href)) == Classify(href)
  {
    ToLowerIdempotent(href);
  }

  /** Any spelling of "tel:" in front makes a phone link, whatever follows. */
  lemma TelInAnyCase(prefix: string, rest: string)
    requires ToLower(prefix) == "tel:"
    ensures Classify(prefix + rest) == TelCta
  {
    ToLowerAppend(prefix, rest);
    assert ToLower(prefix + rest)[..4] == "tel:";
  }

  /** Any spelling of "mailto:" in front makes a mail link, whatever follows. */
  lemma MailtoInAnyCase(prefix: string, rest: string)
    requires ToLower(prefix) == "mailto:"
    ensures Classify(prefix + rest) == MailtoCta
  {
    ToLowerAppend(prefix, rest);
    var l := ToLower(prefix + rest);
    assert l[..7] == "mailto:";
    assert l[0] == 'm';
    assert !StartsWith(l, "tel:") by {
      assert "tel:"[0] == 't';
    }
  }

  /** Any spelling of "calendly" anywhere makes a booking link, unless a phone or mail prefix comes first. */
  lemma CalendlyAnywhere(before: string, word: string, after: string)
    requires ToLower(word) == "calendly"
    requires !StartsWith(ToLower(before + word + after), "tel:")
    requires !StartsWith(ToLower(before + word + after), "mailto:")
    ensures Classify(before + word + after) == CalendlyCta
  {
    ToLowerAppend(before, word);
    ToLowerAppend(before + word, after);
    var l := ToLower(before + word + after);
    assert l == ToLower(before) + "calendly" + ToLower(after);
    assert l[|before|..|before| + 8] == "calendly";
    assert OccursAt(l, "calendly", |before|);
  }

  /** An anchor element: its `href` attribute, if any, and its resolved `href` property. */
  datatype Anchor = Anchor(hrefAttribute: Option<string>, resolvedHref: string)

  /** `link.getAttribute('href') || link.href || ''`. */
  function AnchorHref(a: Anchor): (r: string)
    ensures a.hrefAttribute.Some? && a.hrefAttribute.value != "" ==> r == a.hrefAttribute.value
    ensures (a.hrefAttribute.None? || a.hrefAttribute.value == "") ==> r == a.resolvedHref
  {
    if a.hrefAttribute.Some? && a.hrefAttribute.value != "" then a.hrefAttribute.value
    else a.resolvedHref
  }

  /**
   * The nearest element carrying `data-cta`: its `data-cta` value, itself
   * when it is an anchor, the nearest anchor around it, and the first
   * anchor inside it.
   */
  datatype CtaElement = CtaElement(
    dataCta: string,
    self: Option<Anchor>,
    enclosing: Option<Anchor>,
    inner: Option<Anchor>)

  /** `ctaEl.dataset.cta || 'cta'`. */
  function CtaId(dataCta: string): (r: string)
    ensures r != ""
    ensures dataCta != "" ==> r == dataCta
    ensures dataCta == "" ==> r == "cta"
  {
    if dataCta == "" then "cta" else dataCta
  }

  /**
   * The link consulted for a click: the element itself when it is an
   * anchor with a non-empty `href`; otherwise `closest('a')`, which is the
   * element itself when it is an anchor, else the enclosing anchor; and
   * failing that the first anchor inside.
   */
  function FindLink(e: CtaElement): (r: Option<Anchor>)
    ensures e.self.Some? ==> r == e.self
    ensures e.self.None? && e.enclosing.Some? ==> r == e.enclosing
    ensures e.self.None? && e.enclosing.None? ==> r == e.inner
  {
    if e.self.Some? && e.self.value.resolvedHref != "" then e.self
    else
      var closest := if e.self.Some? then e.self else e.enclosing;
      if closest.Some? then closest else e.inner
  }

  /** A value in an analytics record. */
  datatype Value = Str(s: string) | Num(n: int) | Undefined

  /** The parameters of a `cta_click` event for a click inside `e`, with the current hash if there is a window. */
  function CtaParams(e: CtaElement, hash: Option<string>): (r: map<string, Value>)
    ensures r.Keys == {"cta", "href", "type", "hash"}
    ensures r["cta"] == Str(CtaId(e.dataCta))
    ensures FindLink(e).None? ==> r["href"] == Str("") && r["type"] == Str("link")
    ensures FindLink(e).Some? ==>
              r["href"] == Str(AnchorHref(FindLink(e).value))
              && r["type"] == Str(TypeName(Classify(AnchorHref(FindLink(e).value))))
    ensures hash.None? <==> r["hash"] == Undefined
    ensures hash.Some? ==> r["hash"] == Str(hash.value)
  {
    var link := FindLink(e);
    var href := if link.Some? then AnchorHref(link.value) else "";
    var kind := if link.Some? then Classify(href) else LinkCta;
    map["cta" := Str(CtaId(e.dataCta)),
        "href" := Str(href),
        "type" := Str(TypeName(kind)),
        "hash" := if hash.Some? then Str(hash.value) else Undefined]
  }

  /**
   * `{ event: eventName, ...params, ts: Date.now() }`: the parameters may
   * override `event`, but `ts` is always the timestamp.
   */
  function Payload(eventName: string, params: map<string, Value>, now: int): (r: map<string, Value>)
    ensures r.Keys == params.Keys + {"event", "ts"}
    ensures r["ts"] == Num(now)
    ensures forall k :: k in params && k != "ts" ==> r[k] == params[k]
    ensures "event" !in params ==> r["event"] == Str(eventName)
  {
    (map["event" := Str(eventName)] + params)["ts" := Num(now)]
  }

  /**
   * A click: no event when no element with `data-cta` encloses the
   * target, and otherwise the `cta_click` payload.
   */
  function OnCtaClick(ctaElement: Option<CtaElement>, hash: Option<string>, now: int): (r: Option<map<string, Value>>)
    ensures r.None? <==> ctaElement.None?
    ensures r.Some? ==> r.value.Keys == {"event", "ts", "cta", "href", "type", "hash"}
    ensures r.Some? ==> r.value["event"] == Str("cta_click") && r.value["ts"] == Num(now)
    ensures r.Some? ==> r.value["cta"] == Str(CtaId(ctaElement.value.dataCta))
    ensures r.Some? ==> forall k :: k in CtaParams(ctaElement.value, hash) ==> r.value[k] == CtaParams(ctaElement.value, hash)[k]
  {
    match ctaElement
    case None => None
    case Some(e) =>
      assert "event" !in CtaParams(e, hash);
      Some(Payload("cta_click", CtaParams(e, hash), now))
  }

  /**
   * A click records an event exactly when a `data-cta` element encloses
   * it; the event is a `cta_click` stamped with the time, carrying a
   * non-empty CTA id, the link's href and its type.
   */
  lemma ClickRecordsOneCtaEvent(ctaElement: Option<CtaElement>, hash: Option<string>, now: int)
    ensures OnCtaClick(ctaElement, hash, now).None? <==> ctaElement.None?
    ensures ctaElement.Some? ==>
              var p := OnCtaClick(ctaElement, hash, now).value;
              && p.Keys == {"event", "ts", "cta", "href", "type", "hash"}
              && p["event"] == Str("cta_click")
              && p["ts"] == Num(now)
              && p["cta"] == Str(CtaId(ctaElement.value.dataCta))
              && p["cta"] != Str("")
              && p["type"] != Str("form")
  {
    if ctaElement.Some? {
      var e := ctaElement.value;
      var params := CtaParams(e, hash);
      var p := Payload("cta_click", params, now);
      assert "event" !in params;
      if FindLink(e).Some? {
        var t := Classify(AnchorHref(FindLink(e).value));
        assert t != FormCta;
        TypeNameInjective(t, FormCta);
      }
    }
  }
}
