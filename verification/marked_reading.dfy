/**
 What the block lexer of marked pushes, rule by rule (marked.js:149-442): which rule reads
 the text, by the order in which they are tried, and which tokens that gives. Nothing here
 is how the lexer works; it is proved to push tokens that are read in this way.
 */
module MarkedReading {
  import opened Wrappers
  import opened MarkedParser
  import opened MarkedRules

  // ---------- The order of the rules ----------

  datatype Rule =
    | CodeRule | FencesRule | HeadingRule | NptableRule | LheadingRule | HrRule | QuoteRule
    | ListRule | HtmlRule | DefRule | TableRule | ParagraphRule | TextRule

  /** The rules are tried in this order. */
  function Rank(r: Rule): nat {
    match r
    case CodeRule => 0 case FencesRule => 1 case HeadingRule => 2 case NptableRule => 3
    case LheadingRule => 4 case HrRule => 5 case QuoteRule => 6 case ListRule => 7
    case HtmlRule => 8 case DefRule => 9 case TableRule => 10 case ParagraphRule => 11
    case TextRule => 12
  }

  /** `top` outside of lists, `bq` inside of quotes. */
  predicate Matches(o: Rules, r: Rule, s: string, top: bool, bq: bool) {
    match r
    case CodeRule => o.code(s).Some?
    case FencesRule => o.fences(s).Some?
    case HeadingRule => o.heading(s).Some?
    case NptableRule => top && o.nptable(s).Some?
    case LheadingRule => o.lheading(s).Some?
    case HrRule => o.hr(s).Some?
    case QuoteRule => o.blockquote(s).Some?
    case ListRule => o.list(s).Some?
    case HtmlRule => o.html(s).Some?
    case DefRule => top && !bq && o.def(s).Some?
    case TableRule => top && o.table(s).Some?
    case ParagraphRule => top && o.paragraph(s).Some?
    case TextRule => s != "" && s[0] != '\n'
  }

  /** Rule `r` reads the start of the text: it matches, and none that is tried before it does. */
  ghost predicate Leads(o: Rules, r: Rule, s: string, top: bool, bq: bool) {
    Matches(o, r, s, top, bq) && forall q: Rule :: Rank(q) < Rank(r) ==> !Matches(o, q, s, top, bq)
  }

  lemma OneLeads(o: Rules, q: Rule, r: Rule, s: string, top: bool, bq: bool)
    requires Leads(o, q, s, top, bq) && Leads(o, r, s, top, bq)
    ensures q == r
  {
  }

  lemma LeaderMatches(o: Rules, r: Rule, s: string, top: bool, bq: bool)
    requires Leads(o, r, s, top, bq)
    ensures Matches(o, r, s, top, bq)
  {
  }

  /** Some rule leads wherever a block starts. */
  lemma SomeLeads(o: Rules, s: string, top: bool, bq: bool) returns (r: Rule)
    requires s != "" && s[0] != '\n'
    ensures Leads(o, r, s, top, bq)
  {
    r := Least(o, TextRule, s, top, bq);
  }

  lemma {:induction false} Least(o: Rules, r: Rule, s: string, top: bool, bq: bool) returns (q: Rule)
    requires Matches(o, r, s, top, bq)
    ensures Leads(o, q, s, top, bq)
    decreases Rank(r)
  {
    q := r;
    if p: Rule :| Rank(p) < Rank(r) && Matches(o, p, s, top, bq) {
      q := Least(o, p, s, top, bq);
    }
  }

  /** The one token of a rule that is no list, no quote, no definition and no text. */
  function SingleHit(o: Rules, r: Rule, s: string): Option<LeafHit> {
    match r
    case CodeRule => o.code(s) case FencesRule => o.fences(s) case HeadingRule => o.heading(s)
    case NptableRule => o.nptable(s) case LheadingRule => o.lheading(s) case HrRule => o.hr(s)
    case HtmlRule => o.html(s) case TableRule => o.table(s) case ParagraphRule => o.paragraph(s)
    case _ => None
  }

  // ---------- Lists ----------

  /** Under `smartLists` an item with another kind of bullet belongs to another list. */
  predicate Elsewhere(o: Rules, bull: string, item: string) {
    o.smartLists && bull != o.bullet(item) && !(|bull| > 1 && |o.bullet(item)| > 1)
  }

  /** The list has the first `k` of the items that were matched; the others go back to the input. */
  predicate Keeps(o: Rules, bull: string, items: seq<string>, k: nat) {
    && 1 <= k <= |items|
    && (forall i :: 1 <= i < k ==> !Elsewhere(o, bull, items[i]))
    && (k < |items| ==> Elsewhere(o, bull, items[k]))
  }

  /** An item is loose if it has an empty line inside, or ends with one and is not the last, or the one before did. */
  predicate LooseItem(o: Rules, items: seq<string>, k: nat, i: nat)
    requires i < k <= |items|
  {
    || o.loose(o.strip(items[i]))
    || (i < k - 1 && EndsLine(o.strip(items[i])))
    || (i > 0 && EndsLine(o.strip(items[i - 1])))
  }

  lemma LinesCons(items: seq<string>)
    requires items != []
    ensures |Lines(items)| >= |items[0]| + |Lines(items[1..])|
  {
  }

  lemma {:induction false} ItemInLines(items: seq<string>, i: nat)
    requires i < |items|
    ensures |items[i]| <= |Lines(items)|
    decreases items
  {
    hide Lines;
    LinesCons(items);
    if i > 0 {
      ItemInLines(items[1..], i - 1);
    }
  }

  lemma {:induction false} LinesShrink(items: seq<string>, k: nat)
    requires 1 <= k <= |items| && forall i :: 0 <= i < |items| ==> items[i] != ""
    ensures |Lines(items[k..])| < |Lines(items)|
    decreases k
  {
    if k == 1 {
    } else {
      assert items[k..] == items[1..][k - 1..];
      LinesShrink(items[1..], k - 1);
    }
  }

  // ---------- Streams ----------

  /** The tokens `toks` are those of the text, and the links it defines turn `before` into `after`. */
  ghost predicate Reads(o: Rules, src: string, top: bool, bq: bool, toks: seq<Token>, before: Links, after: Links)
    requires Sound(o)
    decreases |src|, 4
  {
    ReadsOn(o, o.blank(src), top, bq, toks, before, after)
  }

  /** More than one newline in front is a space. */
  ghost predicate ReadsOn(o: Rules, src: string, top: bool, bq: bool, toks: seq<Token>, before: Links, after: Links)
    requires Sound(o)
    decreases |src|, 3
  {
    hide Sound;
    var n := Newlines(src);
    if n > 1 then toks != [] && toks[0] == One(Space) && ReadsBlock(o, src[n..], top, bq, toks[1..], before, after)
    else ReadsBlock(o, src[n..], top, bq, toks, before, after)
  }

  /** The leading rule gives the first tokens. */
  ghost predicate ReadsBlock(o: Rules, s: string, top: bool, bq: bool, toks: seq<Token>, before: Links, after: Links)
    requires Sound(o) && (s != "" ==> s[0] != '\n')
    decreases |s|, 2
  {
    hide Sound;
    if s == "" then toks == [] && after == before
    else forall r: Rule :: Leads(o, r, s, top, bq) ==> ReadsAs(o, r, s, top, bq, toks, before, after)
  }

  ghost predicate ReadsAs(o: Rules, r: Rule, s: string, top: bool, bq: bool,
                          toks: seq<Token>, before: Links, after: Links)
    requires Sound(o) && s != "" && s[0] != '\n' && Matches(o, r, s, top, bq)
    decreases |s|, 1
  {
    match r
    case TextRule =>
      var n := LineLength(s);
      toks != [] && toks[0] == Text(s[..n]) && ReadsOn(o, s[n..], top, bq, toks[1..], before, after)
    case DefRule =>
      var hit := o.def(s).value;
      ReadsOn(o, s[hit.len..], top, bq, toks, before[hit.key := hit.link], after)
    case QuoteRule =>
      var hit := o.blockquote(s).value;
      exists n: nat, mid: Links ::
        && 1 <= n < |toks| && toks[0] == QuoteStart && toks[n] == QuoteEnd
        && Reads(o, hit.inner, top, true, toks[1..n], before, mid)
        && ReadsOn(o, s[hit.len..], top, bq, toks[n + 1..], mid, after)
    case ListRule =>
      var hit := o.list(s).value;
      exists k: nat, n: nat, mid: Links ::
        && Keeps(o, hit.bull, hit.items, k)
        && 1 <= n < |toks| && toks[0] == ListStart(|hit.bull| > 1) && toks[n] == ListEnd
        && ReadsItems(o, hit.items, k, 0, bq, toks[1..n], before, mid)
        && (LinesShrink(hit.items, k);
            ReadsOn(o, Lines(hit.items[k..]) + s[hit.len..], top, bq, toks[n + 1..], mid, after))
    case _ =>
      var hit := SingleHit(o, r, s).value;
      toks != [] && toks[0] == One(hit.leaf) && ReadsOn(o, s[hit.len..], top, bq, toks[1..], before, after)
  }

  /** The items of a list from item `i` on. */
  ghost predicate ReadsItems(o: Rules, items: seq<string>, k: nat, i: nat, bq: bool,
                             toks: seq<Token>, before: Links, after: Links)
    requires Sound(o) && Stripped(o, items) && i <= k <= |items|
    decreases |Lines(items)|, 0, k - i
  {
    if i == k then toks == [] && after == before
    else
      ItemInLines(items, i);
      exists n: nat, mid: Links ::
        && 1 <= n < |toks| && toks[0] == ItemStart(LooseItem(o, items, k, i)) && toks[n] == ItemEnd
        && Reads(o, o.strip(items[i]), false, bq, toks[1..n], before, mid)
        && ReadsItems(o, items, k, i + 1, bq, toks[n + 1..], mid, after)
  }

  /**
   At a text that starts a block exactly one rule leads, and its token comes first; a
   definition gives none, and the tokens are those of what follows it.
   */
  lemma FirstToken(o: Rules, s: string, top: bool, bq: bool, toks: seq<Token>, before: Links, after: Links)
    requires Sound(o) && s != "" && s[0] != '\n' && ReadsBlock(o, s, top, bq, toks, before, after)
    ensures exists r: Rule :: Leads(o, r, s, top, bq)
    ensures forall q: Rule, r: Rule :: Leads(o, q, s, top, bq) && Leads(o, r, s, top, bq) ==> q == r
    ensures forall r: Rule :: Leads(o, r, s, top, bq) && SingleHit(o, r, s).Some? ==>
                                toks != [] && toks[0] == One(SingleHit(o, r, s).value.leaf)
    ensures Leads(o, QuoteRule, s, top, bq) ==> toks != [] && toks[0] == QuoteStart
    ensures Leads(o, ListRule, s, top, bq) ==> toks != [] && toks[0] == ListStart(|o.list(s).value.bull| > 1)
    ensures Leads(o, TextRule, s, top, bq) ==> toks != [] && toks[0] == Text(s[..LineLength(s)])
    ensures Leads(o, DefRule, s, top, bq) ==>
              var hit := o.def(s).value;
              hit.len <= |s| && ReadsOn(o, s[hit.len..], top, bq, toks, before[hit.key := hit.link], after)
  {
    hide Reads;
    hide ReadsOn;
    hide ReadsItems;
    var r := SomeLeads(o, s, top, bq);
    LeaderMatches(o, r, s, top, bq);
    assert ReadsAs(o, r, s, top, bq, toks, before, after);
    forall q: Rule | Leads(o, q, s, top, bq)
      ensures q == r
    {
      OneLeads(o, q, r, s, top, bq);
    }
  }

  /** Between two moments the tokens of the text were pushed. */
  ghost predicate Pushed(o: Rules, src: string, top: bool, bq: bool,
                         was: seq<Token>, now: seq<Token>, before: Links, after: Links)
    requires Sound(o)
  {
    was <= now && Reads(o, src, top, bq, now[|was|..], before, after)
  }

  /**
   Between two moments the items of a list were pushed: those before the first that belongs
   elsewhere. That and what follows is left.
   */
  ghost predicate PushedItems(o: Rules, bull: string, items: seq<string>, bq: bool, left: string,
                              was: seq<Token>, now: seq<Token>, before: Links, after: Links)
    requires Sound(o) && Stripped(o, items)
  {
    && was <= now
    && exists k: nat :: Keeps(o, bull, items, k) && left == Lines(items[k..])
                        && ReadsItems(o, items, k, 0, bq, now[|was|..], before, after)
  }
}
