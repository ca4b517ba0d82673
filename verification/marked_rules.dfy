/**
 The grammar of marked's blocks (marked.js:15-131). Its regular expressions are abstract,
 but for those of newlines and text: what is assumed of them is that they match non-empty
 prefixes, that quoting and bullets take up room, and that the items of a list do not overlap.
 */
module MarkedRules {
  import opened Wrappers
  import opened MarkedParser

  datatype Link = Link(href: string, title: Option<string>)
  type Links = map<string, Link>

  datatype LeafHit = LeafHit(len: nat, leaf: Leaf)
  datatype QuoteHit = QuoteHit(len: nat, inner: string)
  datatype ListHit = ListHit(len: nat, bull: string, items: seq<string>)
  datatype DefHit = DefHit(len: nat, key: string, link: Link)

  datatype Rules = Rules(
    blank: string -> string,                     // empties the lines that hold only spaces
    code: string -> Option<LeafHit>,
    fences: string -> Option<LeafHit>,
    heading: string -> Option<LeafHit>,
    nptable: string -> Option<LeafHit>,
    lheading: string -> Option<LeafHit>,
    hr: string -> Option<LeafHit>,
    blockquote: string -> Option<QuoteHit>,      // with the text inside the quote
    list: string -> Option<ListHit>,             // with its bullet and its items
    strip: string -> string,                     // an item without its bullet, outdented
    bullet: string -> string,                    // the bullet of an item
    loose: string -> bool,                       // an empty line inside an item
    html: string -> Option<LeafHit>,
    def: string -> Option<DefHit>,
    table: string -> Option<LeafHit>,
    paragraph: string -> Option<LeafHit>,
    smartLists: bool)

  function Lines(items: seq<string>): (s: string)
    ensures items != [] ==> |s| >= |items[0]| + |Lines(items[1..])|
  {
    if items == [] then "" else if |items| == 1 then items[0] else items[0] + "\n" + Lines(items[1..])
  }

  ghost predicate NonEmptyPrefix(rule: string -> Option<LeafHit>) {
    forall s :: rule(s).Some? ==> 1 <= rule(s).value.len <= |s|
  }

  ghost predicate Sound(o: Rules) {
    && (forall s :: |o.blank(s)| <= |s|)
    && NonEmptyPrefix(o.code) && NonEmptyPrefix(o.fences) && NonEmptyPrefix(o.heading)
    && NonEmptyPrefix(o.nptable) && NonEmptyPrefix(o.lheading) && NonEmptyPrefix(o.hr)
    && NonEmptyPrefix(o.html) && NonEmptyPrefix(o.table) && NonEmptyPrefix(o.paragraph)
    && (forall s :: o.blockquote(s).Some? ==>
          var hit := o.blockquote(s).value; 1 <= hit.len <= |s| && |hit.inner| < hit.len)
    && (forall s :: o.list(s).Some? ==>
          var hit := o.list(s).value;
          1 <= hit.len <= |s| && hit.items != [] && |Lines(hit.items)| <= hit.len && Stripped(o, hit.items))
    && (forall s :: o.def(s).Some? ==> 1 <= o.def(s).value.len <= |s|)
  }

  predicate Stripped(o: Rules, items: seq<string>) {
    forall i :: 0 <= i < |items| ==> |o.strip(items[i])| < |items[i]|
  }

  // ---------- The rules of newlines and text ----------

  function Newlines(s: string): (n: nat)
    ensures n <= |s| && (n < |s| ==> s[n] != '\n')
  {
    if s != "" && s[0] == '\n' then 1 + Newlines(s[1..]) else 0
  }

  function LineLength(s: string): (n: nat)
    ensures n <= |s| && (s != "" && s[0] != '\n' ==> n >= 1)
  {
    if s != "" && s[0] != '\n' then 1 + LineLength(s[1..]) else 0
  }

  predicate EndsLine(s: string) { s != "" && s[|s| - 1] == '\n' }
}
