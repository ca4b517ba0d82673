/**
 The inline lexer of marked (marked.js:448-692), which reads spans and writes HTML. Its
 regular expressions are abstract, but for that of text; what is assumed of them is that
 they match non-empty prefixes, and that what a span encloses is shorter than the span.
 */
module MarkedInline {
  import opened Wrappers
  import opened MarkedParser
  import opened MarkedRules
  import opened MarkedReading
  import opened MarkedLexer

  datatype Hit = Hit(len: nat, html: string)
  datatype Span = Span(len: nat, inner: string)
  datatype LinkHit = LinkHit(len: nat, inner: string, link: Link)
  datatype RefHit = RefHit(len: nat, inner: string, key: string)

  /** The grammar of the options; pedantic text is normal text. */
  datatype Grammar = Normal | Gfm | Breaks

  datatype SpanRules = SpanRules(
    grammar: Grammar,
    escape: string -> Option<Hit>,
    autolink: string -> Option<Hit>,
    url: string -> Option<Hit>,
    tag: string -> Option<nat>,
    opensLink: string -> bool,
    closesLink: string -> bool,
    showTag: string -> string,
    link: string -> Option<LinkHit>,
    reflink: string -> Option<RefHit>,
    nolink: string -> Option<RefHit>,
    strong: string -> Option<Span>,
    em: string -> Option<Span>,
    code: string -> Option<Hit>,
    br: string -> Option<Hit>,
    del: string -> Option<Span>,
    showText: string -> string,
    showStrong: string -> string,
    showEm: string -> string,
    showDel: string -> string,
    showLink: (Link, string) -> string,
    showImage: (Link, string) -> string)

  predicate HitFits(hit: Option<Hit>, s: string) { hit.Some? ==> 1 <= hit.value.len <= |s| }

  predicate SpanFits(hit: Option<Span>, s: string) {
    hit.Some? ==> 1 <= hit.value.len <= |s| && |hit.value.inner| < hit.value.len
  }

  predicate RefFits(hit: Option<RefHit>, s: string) {
    hit.Some? ==> 1 <= hit.value.len <= |s| && |hit.value.inner| < hit.value.len
  }

  predicate SoundAt(o: SpanRules, s: string) {
    && HitFits(o.escape(s), s) && HitFits(o.autolink(s), s) && HitFits(o.url(s), s)
    && HitFits(o.code(s), s) && HitFits(o.br(s), s)
    && SpanFits(o.strong(s), s) && SpanFits(o.em(s), s) && SpanFits(o.del(s), s)
    && RefFits(o.reflink(s), s) && RefFits(o.nolink(s), s)
    && (o.tag(s).Some? ==> 1 <= o.tag(s).value <= |s|)
    && (o.link(s).Some? ==> 1 <= o.link(s).value.len <= |s| && |o.link(s).value.inner| < o.link(s).value.len)
  }

  // ---------- The rule for text ----------

  const SPECIAL := {'\\', '<', '!', '[', '_', '*', '`'}

  function Spaces(s: string): (n: nat)
    ensures n <= |s|
  {
    if s != "" && s[0] == ' ' then 1 + Spaces(s[1..]) else 0
  }

  predicate StartsWith(s: string, t: string) { |t| <= |s| && s[..|t|] == t }

  /** A line break: spaces and a newline. */
  predicate BreaksAt(g: Grammar, s: string) {
    var n := Spaces(s);
    n < |s| && s[n] == '\n' && (n >= 2 || g.Breaks?)
  }

  /** Where text stops: before what may begin a span, before a line break, or at the end. */
  predicate StopsAt(g: Grammar, s: string) {
    || s == ""
    || s[0] in SPECIAL
    || (!g.Normal? && (s[0] == '~' || StartsWith(s, "http://") || StartsWith(s, "https://")))
    || BreaksAt(g, s)
  }

  /** The first place from `k` on where text stops. */
  function StopFrom(g: Grammar, s: string, k: nat): (n: nat)
    requires k <= |s|
    ensures k <= n <= |s|
    decreases |s| - k
  {
    if k == |s| || StopsAt(g, s[k..]) then k else StopFrom(g, s, k + 1)
  }

  /** The shortest text, of at least one character, after which text stops. */
  function TextRule(g: Grammar, s: string): Option<nat> {
    if s == "" then None else Some(StopFrom(g, s, 1))
  }

  /** Text matches wherever anything is left, and takes up nothing from which a span could have begun. */
  lemma {:induction false} TextMatches(g: Grammar, s: string)
    ensures TextRule(g, s).Some? <==> s != ""
    ensures s != "" ==>
              var n := TextRule(g, s).value;
              && 1 <= n <= |s| && StopsAt(g, s[n..])
              && forall k :: 1 <= k < n ==> !StopsAt(g, s[k..])
  {
    if s != "" {
      StopIsFirst(g, s, 1);
    }
  }

  lemma {:induction false} StopIsFirst(g: Grammar, s: string, k: nat)
    requires k <= |s|
    ensures var n := StopFrom(g, s, k); StopsAt(g, s[n..]) && forall i :: k <= i < n ==> !StopsAt(g, s[i..])
    decreases |s| - k
  {
    if k < |s| && !StopsAt(g, s[k..]) {
      StopIsFirst(g, s, k + 1);
    }
  }

  ghost predicate SoundSpans(o: SpanRules) { forall s :: SoundAt(o, s) }

  datatype Chosen =
    | Ready(len: nat, html: string)
    | Tag(len: nat)
    | ALink(len: nat, inner: string, link: Link)
    | Missing                                      // a reference to no link: one character is shown
    | Strong(len: nat, inner: string)
    | Em(len: nat, inner: string)
    | Del(len: nat, inner: string)
    | Plain(len: nat)
    | Nothing

  /** The first rule that matches, in the order of the lexer; `inLink` inside of a link. */
  function ChooseSpan(o: SpanRules, links: Links, s: string, inLink: bool): Chosen {
    if o.escape(s).Some? then Ready(o.escape(s).value.len, o.escape(s).value.html)
    else if o.autolink(s).Some? then Ready(o.autolink(s).value.len, o.autolink(s).value.html)
    else if !inLink && o.url(s).Some? then Ready(o.url(s).value.len, o.url(s).value.html)
    else if o.tag(s).Some? then Tag(o.tag(s).value)
    else if o.link(s).Some? then ALink(o.link(s).value.len, o.link(s).value.inner, o.link(s).value.link)
    else if o.reflink(s).Some? then Referred(o.reflink(s).value, links)
    else if o.nolink(s).Some? then Referred(o.nolink(s).value, links)
    else if o.strong(s).Some? then Strong(o.strong(s).value.len, o.strong(s).value.inner)
    else if o.em(s).Some? then Em(o.em(s).value.len, o.em(s).value.inner)
    else if o.code(s).Some? then Ready(o.code(s).value.len, o.code(s).value.html)
    else if o.br(s).Some? then Ready(o.br(s).value.len, o.br(s).value.html)
    else if o.del(s).Some? then Del(o.del(s).value.len, o.del(s).value.inner)
    else
      var text := TextRule(o.grammar, s);
      if text.Some? then Plain(text.value) else Chosen.Nothing
  }

  function Referred(hit: RefHit, links: Links): Chosen {
    if hit.key in links && links[hit.key].href != "" then ALink(hit.len, hit.inner, links[hit.key]) else Missing
  }

  /** The choice takes up a part of the text, and encloses less than that. */
  predicate Fits(c: Chosen, s: string) {
    && !c.Nothing?
    && (!c.Missing? ==> 1 <= c.len <= |s|)
    && (c.ALink? || c.Strong? || c.Em? || c.Del? ==> |c.inner| < c.len)
  }

  /** Some rule matches wherever anything is left. */
  lemma ChosenFits(o: SpanRules, links: Links, s: string, inLink: bool)
    requires SoundSpans(o) && s != ""
    ensures Fits(ChooseSpan(o, links, s, inLink), s)
  {
    assert SoundAt(o, s);
    TextMatches(o.grammar, s);
  }

  /** Text with spans as HTML, and whether it ends inside of a link. */
  function Inline(o: SpanRules, links: Links, s: string, inLink: bool): (string, bool)
    decreases |s|
  {
    if s == "" then ("", inLink)
    else
      var c := ChooseSpan(o, links, s, inLink);
      if !Fits(c, s) then ("", inLink)
      else if c.Missing? then
        var rest := Inline(o, links, s[1..], inLink);
        (s[..1] + rest.0, rest.1)
      else
        var shown := ShowSpan(o, links, s, c, inLink);
        var rest := Inline(o, links, s[c.len..], shown.1);
        (shown.0 + rest.0, rest.1)
  }

  function ShowSpan(o: SpanRules, links: Links, s: string, c: Chosen, inLink: bool): (string, bool)
    requires !c.Missing? && Fits(c, s)
    decreases |s|, 0
  {
    match c
    case Ready(_, html) => (html, inLink)
    case Tag(len) =>
      (o.showTag(s[..len]), if !inLink then o.opensLink(s[..len]) else !o.closesLink(s[..len]))
    case ALink(_, inner, link) =>
      if s[0] != '!' then (o.showLink(link, Inline(o, links, inner, true).0), false)
      else (o.showImage(link, inner), false)
    case Strong(_, inner) => var body := Inline(o, links, inner, inLink); (o.showStrong(body.0), body.1)
    case Em(_, inner) => var body := Inline(o, links, inner, inLink); (o.showEm(body.0), body.1)
    case Del(_, inner) => var body := Inline(o, links, inner, inLink); (o.showDel(body.0), body.1)
    case Plain(len) => (o.showText(s[..len]), inLink)
  }

  /** Output so far, and what is still to come. */
  predicate Comes(goal: (string, bool), out: string, rest: (string, bool)) {
    goal == (out + rest.0, rest.1)
  }

  lemma SpanStep(o: SpanRules, links: Links, s: string, inLink: bool, goal: (string, bool), out: string)
    requires SoundSpans(o) && s != "" && Comes(goal, out, Inline(o, links, s, inLink))
    ensures var c := ChooseSpan(o, links, s, inLink);
            && Fits(c, s)
            && if c.Missing? then Comes(goal, out + s[..1], Inline(o, links, s[1..], inLink))
               else
                 var shown := ShowSpan(o, links, s, c, inLink);
                 Comes(goal, out + shown.0, Inline(o, links, s[c.len..], shown.1))
  {
    hide SoundSpans;
    hide ChooseSpan;
    hide ShowSpan;
    ChosenFits(o, links, s, inLink);
    var c := ChooseSpan(o, links, s, inLink);
    if c.Missing? {
      var rest := Inline(o, links, s[1..], inLink);
      assert out + (s[..1] + rest.0) == out + s[..1] + rest.0;
    } else {
      var shown := ShowSpan(o, links, s, c, inLink);
      var rest := Inline(o, links, s[c.len..], shown.1);
      assert out + (shown.0 + rest.0) == out + shown.0 + rest.0;
    }
  }

  class InlineLexer {
    const rules: SpanRules
    const links: Links
    var inLink: bool

    constructor (rules: SpanRules, links: Links, inLink: bool)
      ensures this.rules == rules && this.links == links && this.inLink == inLink
    {
      this.rules, this.links, this.inLink := rules, links, inLink;
    }

    /** Reads spans until nothing is left: it always ends, and never gets to its exception. */
    method Output(src0: string) returns (out: string)
      requires SoundSpans(rules)
      modifies this
      ensures (out, inLink) == Inline(rules, links, src0, old(inLink))
      decreases |src0|, 1
    {
      hide SoundSpans;
      hide ChooseSpan;
      hide Inline;
      hide ShowSpan;
      var src := src0;
      out := "";
      ghost var goal := Inline(rules, links, src0, inLink);
      assert "" + goal.0 == goal.0;
      while src != ""
        invariant |src| <= |src0| && Comes(goal, out, Inline(rules, links, src, inLink))
        decreases |src|
      {
        SpanStep(rules, links, src, inLink, goal, out);
        var c := ChooseSpan(rules, links, src, inLink);
        if c.Nothing? {
          // The exception: no rule matches.
          assert false;
        } else if c.Missing? {
          // The character is shown, and the rest of the match is read again.
          out := out + src[..1];
          src := src[1..];
        } else {
          var html := Show(src, c);
          out := out + html;
          src := src[c.len..];
        }
      }
      InlineOfNothing();
      assert out + "" == out;
    }

    lemma InlineOfNothing()
      ensures Inline(rules, links, "", inLink) == ("", inLink)
    {
    }

    /** Shows a span that was matched. */
    method Show(s: string, c: Chosen) returns (html: string)
      requires SoundSpans(rules) && !c.Missing? && Fits(c, s)
      modifies this
      ensures (html, inLink) == ShowSpan(rules, links, s, c, old(inLink))
      decreases |s|, 0
    {
      hide SoundSpans;
      hide Inline;
      match c
      case Ready(_, shown) => html := shown;
      case Tag(len) =>
        if !inLink && rules.opensLink(s[..len]) {
          inLink := true;
        } else if inLink && rules.closesLink(s[..len]) {
          inLink := false;
        }
        html := rules.showTag(s[..len]);
      case ALink(_, inner, link) =>
        inLink := true;
        html := OutputLink(s, inner, link);
        inLink := false;
      case Strong(_, inner) =>
        var body := Output(inner);
        html := rules.showStrong(body);
      case Em(_, inner) =>
        var body := Output(inner);
        html := rules.showEm(body);
      case Del(_, inner) =>
        var body := Output(inner);
        html := rules.showDel(body);
      case Plain(len) => html := rules.showText(s[..len]);
    }

    method OutputLink(s: string, inner: string, link: Link) returns (html: string)
      requires SoundSpans(rules) && |inner| < |s|
      modifies this
      ensures html == if s[0] != '!' then rules.showLink(link, Inline(rules, links, inner, old(inLink)).0)
                      else rules.showImage(link, inner)
      decreases |inner|, 2
    {
      if s[0] != '!' {
        var text := Output(inner);
        html := rules.showLink(link, text);
      } else {
        html := rules.showImage(link, inner);
      }
    }
  }

  // ---------- Which rule reads a span ----------

  datatype SpanRule =
    | EscapeRule | AutolinkRule | UrlRule | TagRule | LinkRule | ReflinkRule | NolinkRule
    | StrongRule | EmRule | CodeSpanRule | BreakRule | DelRule | TextSpanRule

  /** The rules are tried in this order. */
  function SpanRank(r: SpanRule): nat {
    match r
    case EscapeRule => 0 case AutolinkRule => 1 case UrlRule => 2 case TagRule => 3
    case LinkRule => 4 case ReflinkRule => 5 case NolinkRule => 6 case StrongRule => 7
    case EmRule => 8 case CodeSpanRule => 9 case BreakRule => 10 case DelRule => 11
    case TextSpanRule => 12
  }

  predicate MatchesSpan(o: SpanRules, r: SpanRule, s: string, inLink: bool) {
    match r
    case EscapeRule => o.escape(s).Some? case AutolinkRule => o.autolink(s).Some?
    case UrlRule => !inLink && o.url(s).Some? case TagRule => o.tag(s).Some?
    case LinkRule => o.link(s).Some? case ReflinkRule => o.reflink(s).Some?
    case NolinkRule => o.nolink(s).Some? case StrongRule => o.strong(s).Some?
    case EmRule => o.em(s).Some? case CodeSpanRule => o.code(s).Some?
    case BreakRule => o.br(s).Some? case DelRule => o.del(s).Some?
    case TextSpanRule => s != ""
  }

  /** Rule `r` reads the start of the text: it matches, and none that is tried before it does. */
  ghost predicate LeadsSpan(o: SpanRules, r: SpanRule, s: string, inLink: bool) {
    MatchesSpan(o, r, s, inLink)
    && forall q: SpanRule :: SpanRank(q) < SpanRank(r) ==> !MatchesSpan(o, q, s, inLink)
  }

  /** HTML, and what follows it. */
  function Followed(html: string, rest: (string, bool)): (string, bool) { (html + rest.0, rest.1) }

  /** A link or an image; a link's text is read inside of a link, and after it none is open. */
  function LinkShown(o: SpanRules, links: Links, s: string, len: nat, inner: string, link: Link): (string, bool)
    requires 1 <= len <= |s|
  {
    Followed(if s[0] == '!' then o.showImage(link, inner) else o.showLink(link, Inline(o, links, inner, true).0),
             Inline(o, links, s[len..], false))
  }

  /** A reference to a link that is defined; otherwise one character is shown and the rest is read again. */
  function RefShown(o: SpanRules, links: Links, s: string, hit: RefHit, inLink: bool): (string, bool)
    requires 1 <= hit.len <= |s|
  {
    if hit.key in links && links[hit.key].href != "" then LinkShown(o, links, s, hit.len, hit.inner, links[hit.key])
    else Followed(s[..1], Inline(o, links, s[1..], inLink))
  }

  function HitShown(o: SpanRules, links: Links, s: string, hit: Hit, inLink: bool): (string, bool)
    requires hit.len <= |s|
  {
    Followed(hit.html, Inline(o, links, s[hit.len..], inLink))
  }

  /** A span that encloses others. */
  function SpanShown(o: SpanRules, links: Links, s: string, hit: Span, show: string -> string, inLink: bool)
    : (string, bool)
    requires hit.len <= |s|
  {
    var body := Inline(o, links, hit.inner, inLink);
    Followed(show(body.0), Inline(o, links, s[hit.len..], body.1))
  }

  /** A tag of a link opens or closes it. */
  function TagShown(o: SpanRules, links: Links, s: string, len: nat, inLink: bool): (string, bool)
    requires len <= |s|
  {
    var tag := s[..len];
    Followed(o.showTag(tag), Inline(o, links, s[len..], if inLink then !o.closesLink(tag) else o.opensLink(tag)))
  }

  /** What each rule, where it leads, makes of the text. */
  lemma SpanIsShown(o: SpanRules, links: Links, r: SpanRule, s: string, inLink: bool)
    requires SoundSpans(o) && s != "" && LeadsSpan(o, r, s, inLink)
    ensures SoundAt(o, s)
    ensures r.EscapeRule? ==> Inline(o, links, s, inLink) == HitShown(o, links, s, o.escape(s).value, inLink)
    ensures r.AutolinkRule? ==> Inline(o, links, s, inLink) == HitShown(o, links, s, o.autolink(s).value, inLink)
    ensures r.UrlRule? ==> !inLink && Inline(o, links, s, inLink) == HitShown(o, links, s, o.url(s).value, inLink)
    ensures r.TagRule? ==> Inline(o, links, s, inLink) == TagShown(o, links, s, o.tag(s).value, inLink)
    ensures r.LinkRule? ==>
              var hit := o.link(s).value;
              Inline(o, links, s, inLink) == LinkShown(o, links, s, hit.len, hit.inner, hit.link)
    ensures r.ReflinkRule? ==> Inline(o, links, s, inLink) == RefShown(o, links, s, o.reflink(s).value, inLink)
    ensures r.NolinkRule? ==> Inline(o, links, s, inLink) == RefShown(o, links, s, o.nolink(s).value, inLink)
    ensures r.StrongRule? ==>
              Inline(o, links, s, inLink) == SpanShown(o, links, s, o.strong(s).value, o.showStrong, inLink)
    ensures r.EmRule? ==> Inline(o, links, s, inLink) == SpanShown(o, links, s, o.em(s).value, o.showEm, inLink)
    ensures r.CodeSpanRule? ==> Inline(o, links, s, inLink) == HitShown(o, links, s, o.code(s).value, inLink)
    ensures r.BreakRule? ==> Inline(o, links, s, inLink) == HitShown(o, links, s, o.br(s).value, inLink)
    ensures r.DelRule? ==> Inline(o, links, s, inLink) == SpanShown(o, links, s, o.del(s).value, o.showDel, inLink)
    ensures r.TextSpanRule? ==>
              var n := TextRule(o.grammar, s).value;
              Inline(o, links, s, inLink) == Followed(o.showText(s[..n]), Inline(o, links, s[n..], inLink))
  {
    hide SoundSpans;
    hide TextRule;
    SoundHere(o, s);
    TextMatches(o.grammar, s);
    ChosenFits(o, links, s, inLink);
    LeaderIsChosen(o, links, r, s, inLink);
    hide ChooseSpan;
  }

  lemma SoundHere(o: SpanRules, s: string)
    requires SoundSpans(o)
    ensures SoundAt(o, s)
  {
  }

  lemma LeaderIsChosen(o: SpanRules, links: Links, r: SpanRule, s: string, inLink: bool)
    requires s != "" && LeadsSpan(o, r, s, inLink)
    ensures var c := ChooseSpan(o, links, s, inLink);
            && MatchesSpan(o, r, s, inLink)
            && (r.EscapeRule? ==> c == Ready(o.escape(s).value.len, o.escape(s).value.html))
            && (r.AutolinkRule? ==> c == Ready(o.autolink(s).value.len, o.autolink(s).value.html))
            && (r.UrlRule? ==> c == Ready(o.url(s).value.len, o.url(s).value.html))
            && (r.TagRule? ==> c == Tag(o.tag(s).value))
            && (r.LinkRule? ==> c == ALink(o.link(s).value.len, o.link(s).value.inner, o.link(s).value.link))
            && (r.ReflinkRule? ==> c == Referred(o.reflink(s).value, links))
            && (r.NolinkRule? ==> c == Referred(o.nolink(s).value, links))
            && (r.StrongRule? ==> c == Strong(o.strong(s).value.len, o.strong(s).value.inner))
            && (r.EmRule? ==> c == Em(o.em(s).value.len, o.em(s).value.inner))
            && (r.CodeSpanRule? ==> c == Ready(o.code(s).value.len, o.code(s).value.html))
            && (r.BreakRule? ==> c == Ready(o.br(s).value.len, o.br(s).value.html))
            && (r.DelRule? ==> c == Del(o.del(s).value.len, o.del(s).value.inner))
            && (r.TextSpanRule? ==> c == Plain(TextRule(o.grammar, s).value))
  {
    hide Referred;
    assert SpanRank(EscapeRule) < SpanRank(r) ==> !MatchesSpan(o, EscapeRule, s, inLink);
    assert SpanRank(AutolinkRule) < SpanRank(r) ==> !MatchesSpan(o, AutolinkRule, s, inLink);
    assert SpanRank(UrlRule) < SpanRank(r) ==> !MatchesSpan(o, UrlRule, s, inLink);
    assert SpanRank(TagRule) < SpanRank(r) ==> !MatchesSpan(o, TagRule, s, inLink);
    assert SpanRank(LinkRule) < SpanRank(r) ==> !MatchesSpan(o, LinkRule, s, inLink);
    assert SpanRank(ReflinkRule) < SpanRank(r) ==> !MatchesSpan(o, ReflinkRule, s, inLink);
    assert SpanRank(NolinkRule) < SpanRank(r) ==> !MatchesSpan(o, NolinkRule, s, inLink);
    assert SpanRank(StrongRule) < SpanRank(r) ==> !MatchesSpan(o, StrongRule, s, inLink);
    assert SpanRank(EmRule) < SpanRank(r) ==> !MatchesSpan(o, EmRule, s, inLink);
    assert SpanRank(CodeSpanRule) < SpanRank(r) ==> !MatchesSpan(o, CodeSpanRule, s, inLink);
    assert SpanRank(BreakRule) < SpanRank(r) ==> !MatchesSpan(o, BreakRule, s, inLink);
    assert SpanRank(DelRule) < SpanRank(r) ==> !MatchesSpan(o, DelRule, s, inLink);
  }

  /** No text is lost: text without spans and references is shown whole, piece by piece. */
  predicate OnlyPlain(o: SpanRules, links: Links, s: string, inLink: bool)
    decreases |s|
  {
    s != "" ==>
      var c := ChooseSpan(o, links, s, inLink);
      && Fits(c, s)
      && (c.Plain? ==> OnlyPlain(o, links, s[c.len..], inLink))
      && (c.Missing? ==> OnlyPlain(o, links, s[1..], inLink))
      && (c.Plain? || c.Missing?)
  }

  lemma {:induction false} PlainIsKept(o: SpanRules, links: Links, s: string, inLink: bool)
    requires OnlyPlain(o, links, s, inLink) && forall t :: o.showText(t) == t
    ensures Inline(o, links, s, inLink) == (s, inLink)
    decreases |s|
  {
    if s != "" {
      var c := ChooseSpan(o, links, s, inLink);
      var n := if c.Missing? then 1 else c.len;
      PlainIsKept(o, links, s[n..], inLink);
      assert s[..n] + s[n..] == s;
    }
  }

  // ---------- The whole ----------

  /** A carriage return, with the newline after it if there is one, becomes a newline. */
  function LineEnds(s: string): string {
    if s == "" then ""
    else if s[0] != '\r' then [s[0]] + LineEnds(s[1..])
    else "\n" + LineEnds(if |s| > 1 && s[1] == '\n' then s[2..] else s[1..])
  }

  /** Each `c` becomes `t`. */
  function Replaced(s: string, c: char, t: string): string {
    if s == "" then "" else (if s[0] == c then t else [s[0]]) + Replaced(s[1..], c, t)
  }

  /** The text as the lexer reads it: newlines for line ends, spaces for tabs and special spaces. */
  function Normalized(s: string): string {
    Replaced(Replaced(Replaced(LineEnds(s), '\t', "    "), '\U{00A0}', " "), '\U{2424}', "\n")
  }

  /** The parts of a text are normalized apart, unless they part a line end of two characters. */
  lemma {:induction false} LineEndsParts(a: string, b: string)
    requires !(a != "" && a[|a| - 1] == '\r' && b != "" && b[0] == '\n')
    ensures LineEnds(a + b) == LineEnds(a) + LineEnds(b)
    decreases |a|
  {
    if a == "" {
      assert a + b == b;
    } else {
      var n := if a[0] == '\r' && |a| > 1 && a[1] == '\n' then 2 else 1;
      assert (a + b)[n..] == a[n..] + b;
      LineEndsParts(a[n..], b);
    }
  }

  lemma {:induction false} ReplacedParts(a: string, b: string, c: char, t: string)
    ensures Replaced(a + b, c, t) == Replaced(a, c, t) + Replaced(b, c, t)
    decreases |a|
  {
    if a == "" {
      assert a + b == b;
    } else {
      assert (a + b)[1..] == a[1..] + b;
      ReplacedParts(a[1..], b, c, t);
    }
  }

  lemma NormalizedParts(a: string, b: string)
    requires !(a != "" && a[|a| - 1] == '\r' && b != "" && b[0] == '\n')
    ensures Normalized(a + b) == Normalized(a) + Normalized(b)
  {
    hide LineEnds;
    hide Replaced;
    LineEndsParts(a, b);
    var a1, b1 := LineEnds(a), LineEnds(b);
    ReplacedParts(a1, b1, '\t', "    ");
    var a2, b2 := Replaced(a1, '\t', "    "), Replaced(b1, '\t', "    ");
    ReplacedParts(a2, b2, '\U{00A0}', " ");
    ReplacedParts(Replaced(a2, '\U{00A0}', " "), Replaced(b2, '\U{00A0}', " "), '\U{2424}', "\n");
  }

  lemma ReplacedOne(c: char, d: char, t: string)
    ensures Replaced([d], c, t) == if d == c then t else [d]
  {
    assert [d][1..] == "";
  }

  lemma {:induction false} ReplacedSpaces(n: nat, c: char, t: string)
    requires c != ' '
    ensures Replaced(seq(n, i => ' '), c, t) == seq(n, i => ' ')
  {
    if n > 0 {
      var s := seq(n, i => ' ');
      assert s[1..] == seq(n - 1, i => ' ');
      ReplacedSpaces(n - 1, c, t);
      assert s == [' '] + s[1..];
    }
  }

  /** What each character, or line end of two, becomes. */
  lemma NormalizedOne(c: char)
    ensures Normalized("\r\n") == "\n" && Normalized("") == ""
    ensures Normalized([c]) ==
            if c == '\r' || c == '\U{2424}' then "\n" else if c == '\t' then "    "
            else if c == '\U{00A0}' then " " else [c]
  {
    assert "\r\n"[2..] == "" && [c][1..] == "";
    assert LineEnds("") == "" && LineEnds("\r\n") == "\n" + "";
    var d := if c == '\r' then '\n' else c;
    assert LineEnds([c]) == [d];
    hide LineEnds;
    hide Replaced;
    ReplacedOne('\t', d, "    ");
    ReplacedOne('\U{00A0}', d, " ");
    ReplacedOne('\U{2424}', d, "\n");
    ReplacedOne('\t', '\n', "    ");
    ReplacedOne('\U{00A0}', '\n', " ");
    ReplacedOne('\U{2424}', '\n', "\n");
    ReplacedOne('\U{2424}', ' ', "\n");
    ReplacedSpaces(4, '\U{00A0}', " ");
    ReplacedSpaces(4, '\U{2424}', "\n");
    assert seq(4, i => ' ') == "    ";
    NothingReplaced('\t', "    ");
    NothingReplaced('\U{00A0}', " ");
    NothingReplaced('\U{2424}', "\n");
  }

  lemma NothingReplaced(c: char, t: string)
    ensures Replaced("", c, t) == ""
  {
  }

  predicate Tidy(s: string) { '\r' !in s && '\t' !in s && '\U{00A0}' !in s && '\U{2424}' !in s }

  lemma {:induction false} NoReturns(s: string)
    ensures '\r' !in LineEnds(s) && ('\r' !in s ==> LineEnds(s) == s)
    decreases |s|
  {
    if s != "" {
      NoReturns(if s[0] == '\r' && |s| > 1 && s[1] == '\n' then s[2..] else s[1..]);
    }
  }

  lemma {:induction false} ReplacedIsGone(s: string, c: char, t: string, other: char)
    requires c !in t && other !in t
    ensures c !in Replaced(s, c, t)
    ensures other !in s ==> other !in Replaced(s, c, t)
    ensures c !in s ==> Replaced(s, c, t) == s
  {
    if s != "" {
      ReplacedIsGone(s[1..], c, t, other);
      var head := if s[0] == c then t else [s[0]];
      assert Replaced(s, c, t) == head + Replaced(s[1..], c, t);
    }
  }

  /** Normalized text has none of the characters replaced, and is its own normal form. */
  lemma NormalizedOnce(s: string)
    ensures Tidy(Normalized(s)) && Normalized(Normalized(s)) == Normalized(s)
  {
    hide LineEnds;
    hide Replaced;
    NoReturns(s);
    var s1 := LineEnds(s);
    var s2 := Replaced(s1, '\t', "    ");
    var s3 := Replaced(s2, '\U{00A0}', " ");
    var n := Normalized(s);
    ReplacedIsGone(s1, '\t', "    ", '\r');
    ReplacedIsGone(s2, '\U{00A0}', " ", '\r');
    ReplacedIsGone(s2, '\U{00A0}', " ", '\t');
    ReplacedIsGone(s3, '\U{2424}', "\n", '\r');
    ReplacedIsGone(s3, '\U{2424}', "\n", '\t');
    ReplacedIsGone(s3, '\U{2424}', "\n", '\U{00A0}');
    NoReturns(n);
    ReplacedIsGone(n, '\t', "    ", '\r');
    ReplacedIsGone(n, '\U{00A0}', " ", '\r');
    ReplacedIsGone(n, '\U{2424}', "\n", '\r');
  }

  /**
   Markdown to HTML, with the links that the text defines: whatever the text, nothing is
   thrown, and the result is the rendering of the text's tree of blocks and spans.
   */
  method Marked(rules: Rules, spans: SpanRules, renderer: Renderer, src: string) returns (r: Try<string>)
    requires Sound(rules) && SoundSpans(spans)
    ensures var tree := Blocks(rules, Normalized(src), true, false, map[]);
            && Nested(tree.0)
            && Reads(rules, Normalized(src), true, false, Flatten(tree.0), map[], tree.1)
            && var inline := (s: string, b: bool) => Inline(spans, tree.1, s, b);
               r == Ok(Render(renderer.(inline := inline), tree.0, false, false).0)
  {
    hide Sound;
    hide Normalized;
    hide Blocks;
    hide Render;
    hide Document;
    hide Nested;
    hide Reads;
    var lexer := new Lexer(rules);
    lexer.Lex(Normalized(src), true, false);
    ghost var tree := Blocks(rules, Normalized(src), true, false, map[]);
    BlocksNested(rules, Normalized(src), true, false, map[]);
    BlocksRead(rules, Normalized(src), true, false, map[]);
    assert [] + Flatten(tree.0) == Flatten(tree.0);
    var links := lexer.links;
    var shown := renderer.(inline := (s: string, b: bool) => Inline(spans, links, s, b));
    ParseRenders(shown, tree.0, false);
    var parser := new Parser(shown);
    r := parser.Parse(lexer.tokens);
  }
}
