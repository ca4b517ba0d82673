/**
 The block lexer of marked (marked.js:139-442) as the object that it is, the tree that it
 makes of a text, and that the tree's tokens are those of the rules in their order.
 */
module MarkedLexer {
  import opened Wrappers
  import opened MarkedParser
  import opened MarkedRules
  import opened MarkedReading

  // ---------- The tree of a text ----------

  datatype Choice =
    | AnyLeaf(len: nat, leaf: Leaf)
    | AQuote(len: nat, inner: string)
    | AList(len: nat, bull: string, items: seq<string>)
    | ADef(len: nat, key: string, link: Link)
    | AText(len: nat)
    | Nothing

  function Leafy(hit: Option<LeafHit>): Choice { if hit.Some? then AnyLeaf(hit.value.len, hit.value.leaf) else Nothing }

  function FirstOf(a: Choice, b: Choice): Choice { if a != Nothing then a else b }

  /** The first rule that matches, in the order of the lexer; `top` outside of lists, `bq` inside of quotes. */
  function Choose(o: Rules, s: string, top: bool, bq: bool): Choice {
    FirstOf(Leafy(o.code(s)),
    FirstOf(Leafy(o.fences(s)),
    FirstOf(Leafy(o.heading(s)),
    FirstOf(if top then Leafy(o.nptable(s)) else Nothing,
    FirstOf(Leafy(o.lheading(s)),
    FirstOf(Leafy(o.hr(s)),
    FirstOf(if o.blockquote(s).Some? then AQuote(o.blockquote(s).value.len, o.blockquote(s).value.inner) else Nothing,
    FirstOf(if o.list(s).Some? then AList(o.list(s).value.len, o.list(s).value.bull, o.list(s).value.items)
            else Nothing,
    FirstOf(Leafy(o.html(s)),
    FirstOf(if !bq && top && o.def(s).Some? then ADef(o.def(s).value.len, o.def(s).value.key, o.def(s).value.link)
            else Nothing,
    FirstOf(if top then Leafy(o.table(s)) else Nothing,
    FirstOf(if top then Leafy(o.paragraph(s)) else Nothing,
            if LineLength(s) > 0 then AText(LineLength(s)) else Nothing))))))))))))
  }

  lemma ChoiceIsSound(o: Rules, s: string, top: bool, bq: bool)
    requires Sound(o)
    ensures var c := Choose(o, s, top, bq);
            && (c != Nothing ==> 1 <= c.len <= |s|)
            && (s != "" && s[0] != '\n' ==> c != Nothing)
            && (c.AQuote? ==> |c.inner| < c.len)
            && (c.AList? ==> c.items != [] && |Lines(c.items)| <= c.len && Stripped(o, c.items))
  {
  }

  /** The next item belongs to another list. */
  predicate Parts(o: Rules, bull: string, items: seq<string>) {
    && o.smartLists && |items| > 1
    && var b := o.bullet(items[1]);
       bull != b && !(|bull| > 1 && |b| > 1)
  }

  /**
   The items of a list, the text that goes back to the input because it belongs to another
   list, and the links. `next`: the item before ended with a newline.
   */
  ghost function Items(o: Rules, bull: string, items: seq<string>, next: bool, bq: bool, links: Links)
    : (r: (seq<Node>, string, Links))
    requires Sound(o) && Stripped(o, items)
    ensures items != [] ==> |r.1| < |Lines(items)|
    ensures items == [] ==> r.1 == ""
    decreases |Lines(items)|, 0
  {
    if items == [] then ([], "", links)
    else
      var item := o.strip(items[0]);
      var parts := Parts(o, bull, items);
      var last := parts || |items| == 1;
      var loose := next || o.loose(item) || (!last && EndsLine(item));
      var body := Blocks(o, item, false, bq, links);
      var node := Item(loose, body.0);
      if parts then ([node], Lines(items[1..]), body.1)
      else
        var rest := Items(o, bull, items[1..], if last then next else EndsLine(item), bq, body.1);
        ([node] + rest.0, rest.1, rest.2)
  }

  /** The blocks of a text, with the links it defines. */
  ghost function Blocks(o: Rules, src: string, top: bool, bq: bool, links: Links): (seq<Node>, Links)
    requires Sound(o)
    decreases |src|, 4
  {
    Scan(o, o.blank(src), top, bq, links)
  }

  ghost function Scan(o: Rules, src: string, top: bool, bq: bool, links: Links): (seq<Node>, Links)
    requires Sound(o)
    decreases |src|, 3
  {
    var n := Newlines(src);
    var space := if n > 1 then [LeafNode(Space)] else [];
    var s := src[n..];
    if s == "" then (space, links)
    else
      var more := Block(o, s, top, bq, links);
      (space + more.0, more.1)
  }

  /** A block at the start of the text, and what follows. */
  ghost function Block(o: Rules, s: string, top: bool, bq: bool, links: Links): (seq<Node>, Links)
    requires Sound(o) && s != "" && s[0] != '\n'
    decreases |s|, 2
  {
    hide Sound;
    hide Choose;
    hide Stripped;
    hide Lines;
    ChoiceIsSound(o, s, top, bq);
    match Choose(o, s, top, bq)
    case AnyLeaf(len, leaf) =>
      var more := Scan(o, s[len..], top, bq, links);
      ([LeafNode(leaf)] + more.0, more.1)
    case AText(len) =>
      var more := Scan(o, s[len..], top, bq, links);
      ([TextNode(s[..len])] + more.0, more.1)
    case ADef(len, key, link) => Scan(o, s[len..], top, bq, links[key := link])
    case AQuote(len, inner) =>
      var body := Blocks(o, inner, top, true, links);
      var more := Scan(o, s[len..], top, bq, body.1);
      ([Quote(body.0)] + more.0, more.1)
    case AList(len, bull, items) => ListBlock(o, bull, items, s[len..], top, bq, links)
  }

  /** A list, and what follows: items that belong to another list are read again. */
  ghost function ListBlock(o: Rules, bull: string, items: seq<string>, after: string, top: bool, bq: bool, links: Links)
    : (seq<Node>, Links)
    requires Sound(o) && items != [] && Stripped(o, items)
    decreases |Lines(items)| + |after|, 1
  {
    hide Lines;
    var body := Items(o, bull, items, false, bq, links);
    var more := Scan(o, body.1 + after, top, bq, body.2);
    ([List(|bull| > 1, body.0)] + more.0, more.1)
  }

  // ---------- Nesting ----------

  /** Items stand in lists, and nothing else does. */
  predicate Nested(nodes: seq<Node>)
    decreases nodes, 1
  {
    forall i :: 0 <= i < |nodes| ==> !nodes[i].Item? && NestedNode(nodes[i])
  }

  predicate NestedNode(n: Node)
    decreases n, 2
  {
    match n
    case Quote(kids) => Nested(kids)
    case List(_, kids) => forall i :: 0 <= i < |kids| ==> kids[i].Item? && NestedNode(kids[i])
    case Item(_, kids) => Nested(kids)
    case _ => true
  }

  predicate AllItems(nodes: seq<Node>) {
    forall i :: 0 <= i < |nodes| ==> nodes[i].Item? && NestedNode(nodes[i])
  }

  lemma {:induction false} ItemsNested(o: Rules, bull: string, items: seq<string>, next: bool, bq: bool, links: Links)
    requires Sound(o) && Stripped(o, items)
    ensures AllItems(Items(o, bull, items, next, bq, links).0)
    decreases |Lines(items)|, 0
  {
    hide Sound;
    hide Lines;
    hide Nested;
    hide Blocks;
    if items != [] {
      var item := o.strip(items[0]);
      BlocksNested(o, item, false, bq, links);
      if !Parts(o, bull, items) {
        var last := |items| == 1;
        ItemsNested(o, bull, items[1..], if last then next else EndsLine(item), bq,
                    Blocks(o, item, false, bq, links).1);
      }
    }
  }

  /** What the lexer makes of any text is properly nested. */
  lemma {:induction false} BlocksNested(o: Rules, src: string, top: bool, bq: bool, links: Links)
    requires Sound(o)
    ensures Nested(Blocks(o, src, top, bq, links).0)
    decreases |src|, 4
  {
    ScanNested(o, o.blank(src), top, bq, links);
  }

  lemma {:induction false} ScanNested(o: Rules, src: string, top: bool, bq: bool, links: Links)
    requires Sound(o)
    ensures Nested(Scan(o, src, top, bq, links).0)
    decreases |src|, 3
  {
    var s := src[Newlines(src)..];
    if s != "" {
      BlockNested(o, s, top, bq, links);
    }
  }

  lemma {:induction false} BlockNested(o: Rules, s: string, top: bool, bq: bool, links: Links)
    requires Sound(o) && s != "" && s[0] != '\n'
    ensures Nested(Block(o, s, top, bq, links).0)
    decreases |s|, 2
  {
    hide Sound;
    hide Choose;
    hide Stripped;
    hide Lines;
    hide NestedNode;
    hide Nested;
    ChoiceIsSound(o, s, top, bq);
    match Choose(o, s, top, bq)
    case AnyLeaf(len, leaf) =>
      ScanNested(o, s[len..], top, bq, links);
      NestedMore(LeafNode(leaf), Scan(o, s[len..], top, bq, links).0);
    case AText(len) =>
      ScanNested(o, s[len..], top, bq, links);
      NestedMore(TextNode(s[..len]), Scan(o, s[len..], top, bq, links).0);
    case ADef(len, key, link) => ScanNested(o, s[len..], top, bq, links[key := link]);
    case AQuote(len, inner) =>
      var body := Blocks(o, inner, top, true, links);
      BlocksNested(o, inner, top, true, links);
      ScanNested(o, s[len..], top, bq, body.1);
      NestedMore(Quote(body.0), Scan(o, s[len..], top, bq, body.1).0);
    case AList(len, bull, items) => ListNested(o, bull, items, s[len..], top, bq, links);
  }

  lemma {:induction false} ListNested(o: Rules, bull: string, items: seq<string>, after: string,
                                      top: bool, bq: bool, links: Links)
    requires Sound(o) && items != [] && Stripped(o, items)
    ensures Nested(ListBlock(o, bull, items, after, top, bq, links).0)
    decreases |Lines(items)| + |after|, 1
  {
    hide Lines;
    hide NestedNode;
    hide Nested;
    var body := Items(o, bull, items, false, bq, links);
    ItemsNested(o, bull, items, false, bq, links);
    ScanNested(o, body.1 + after, top, bq, body.2);
    NestedMore(List(|bull| > 1, body.0), Scan(o, body.1 + after, top, bq, body.2).0);
  }

  lemma NestedMore(n: Node, more: seq<Node>)
    requires Nested(more)
    requires n.LeafNode? || n.TextNode? || (n.Quote? && Nested(n.kids)) || (n.List? && AllItems(n.kids))
    ensures Nested([n] + more)
  {
  }

  // ---------- The tokens of the tree are those of the rules ----------

  /** The choice is that of the leading rule. */
  lemma ChoiceLeads(o: Rules, r: Rule, s: string, top: bool, bq: bool)
    requires s != "" && s[0] != '\n' && Leads(o, r, s, top, bq)
    ensures Choose(o, s, top, bq) ==
            match r
            case TextRule => AText(LineLength(s))
            case DefRule => ADef(o.def(s).value.len, o.def(s).value.key, o.def(s).value.link)
            case QuoteRule => AQuote(o.blockquote(s).value.len, o.blockquote(s).value.inner)
            case ListRule => AList(o.list(s).value.len, o.list(s).value.bull, o.list(s).value.items)
            case _ => AnyLeaf(SingleHit(o, r, s).value.len, SingleHit(o, r, s).value.leaf)
  {
    var c, f, h, n := CodeRule, FencesRule, HeadingRule, NptableRule;
    assert Rank(c) < Rank(r) ==> !Matches(o, c, s, top, bq);
    assert Rank(f) < Rank(r) ==> !Matches(o, f, s, top, bq);
    assert Rank(h) < Rank(r) ==> !Matches(o, h, s, top, bq);
    assert Rank(n) < Rank(r) ==> !Matches(o, n, s, top, bq);
    assert Rank(LheadingRule) < Rank(r) ==> !Matches(o, LheadingRule, s, top, bq);
    assert Rank(HrRule) < Rank(r) ==> !Matches(o, HrRule, s, top, bq);
    assert Rank(QuoteRule) < Rank(r) ==> !Matches(o, QuoteRule, s, top, bq);
    assert Rank(ListRule) < Rank(r) ==> !Matches(o, ListRule, s, top, bq);
    assert Rank(HtmlRule) < Rank(r) ==> !Matches(o, HtmlRule, s, top, bq);
    assert Rank(DefRule) < Rank(r) ==> !Matches(o, DefRule, s, top, bq);
    assert Rank(TableRule) < Rank(r) ==> !Matches(o, TableRule, s, top, bq);
    assert Rank(ParagraphRule) < Rank(r) ==> !Matches(o, ParagraphRule, s, top, bq);
  }

  /** Whatever the text, the tokens of its tree are those that the rules give in their order. */
  lemma {:induction false} BlocksRead(o: Rules, src: string, top: bool, bq: bool, links: Links)
    requires Sound(o)
    ensures var tree := Blocks(o, src, top, bq, links); Reads(o, src, top, bq, Flatten(tree.0), links, tree.1)
    decreases |src|, 4
  {
    hide Scan;
    hide ReadsOn;
    ScanRead(o, o.blank(src), top, bq, links);
  }

  lemma {:induction false} ScanRead(o: Rules, src: string, top: bool, bq: bool, links: Links)
    requires Sound(o)
    ensures var tree := Scan(o, src, top, bq, links); ReadsOn(o, src, top, bq, Flatten(tree.0), links, tree.1)
    decreases |src|, 3
  {
    hide Sound;
    hide Block;
    hide FlattenNode;
    var n := Newlines(src);
    var s := src[n..];
    var space := LeafNode(Space);
    FlattenCons(space, []);
    if s != "" {
      BlockRead(o, s, top, bq, links);
      var more := Block(o, s, top, bq, links);
      FlattenCons(space, more.0);
      assert [] + more.0 == more.0;
    }
    assert FlattenNode(space) == [One(Space)] by {
      LeafTokens(Space);
    }
  }

  lemma LeafTokens(leaf: Leaf)
    ensures FlattenNode(LeafNode(leaf)) == [One(leaf)]
  {
  }

  lemma FlattenCons(n: Node, more: seq<Node>)
    ensures Flatten([n] + more) == FlattenNode(n) + Flatten(more)
    ensures Flatten([n]) == FlattenNode(n) && Flatten([]) == []
  {
    hide FlattenNode;
    assert ([n] + more)[1..] == more && [n][1..] == [];
    assert FlattenNode(n) + [] == FlattenNode(n);
  }

  lemma {:induction false} BlockRead(o: Rules, s: string, top: bool, bq: bool, links: Links)
    requires Sound(o) && s != "" && s[0] != '\n'
    ensures var tree := Block(o, s, top, bq, links); ReadsBlock(o, s, top, bq, Flatten(tree.0), links, tree.1)
    decreases |s|, 2
  {
    hide Sound;
    hide ReadsAs;
    hide Leads;
    hide Block;
    var tree := Block(o, s, top, bq, links);
    forall r: Rule | Leads(o, r, s, top, bq)
      ensures Matches(o, r, s, top, bq) && ReadsAs(o, r, s, top, bq, Flatten(tree.0), links, tree.1)
    {
      LeaderMatches(o, r, s, top, bq);
      RuleRead(o, r, s, top, bq, links);
    }
  }

  /** What the leading rule makes of the text is what is at the head of the tree. */
  lemma {:induction false} RuleRead(o: Rules, r: Rule, s: string, top: bool, bq: bool, links: Links)
    requires Sound(o) && s != "" && s[0] != '\n' && Leads(o, r, s, top, bq) && Matches(o, r, s, top, bq)
    ensures var tree := Block(o, s, top, bq, links); ReadsAs(o, r, s, top, bq, Flatten(tree.0), links, tree.1)
    decreases |s|, 1
  {
    hide Choose;
    hide Leads;
    hide Stripped;
    hide Lines;
    hide Scan;
    hide Blocks;
    hide Items;
    hide FlattenNode;
    hide Flatten;
    hide Reads;
    hide ReadsOn;
    hide ReadsItems;
    hide Sound;
    ChoiceLeads(o, r, s, top, bq);
    ChoiceIsSound(o, s, top, bq);
    match r
    case TextRule =>
      var n := LineLength(s);
      ScanRead(o, s[n..], top, bq, links);
      FlattenCons(TextNode(s[..n]), Scan(o, s[n..], top, bq, links).0);
      TextTokens(s[..n]);
    case DefRule =>
      var hit := o.def(s).value;
      ScanRead(o, s[hit.len..], top, bq, links[hit.key := hit.link]);
    case QuoteRule => QuoteRead(o, s, top, bq, links);
    case ListRule => ListRead(o, s, top, bq, links);
    case _ =>
      var hit := SingleHit(o, r, s).value;
      ScanRead(o, s[hit.len..], top, bq, links);
      FlattenCons(LeafNode(hit.leaf), Scan(o, s[hit.len..], top, bq, links).0);
      LeafTokens(hit.leaf);
  }

  lemma TextTokens(text: string)
    ensures FlattenNode(TextNode(text)) == [Text(text)]
  {
  }

  /** A container's tokens: the first, those of what it holds, the last, and those of what follows. */
  lemma Container(first: Token, inside: seq<Token>, last: Token, more: seq<Token>)
    ensures var toks := [first] + inside + [last] + more; var n := |inside| + 1;
            && toks[0] == first && toks[1..n] == inside && toks[n] == last && toks[n + 1..] == more
  {
  }

  lemma {:induction false} QuoteRead(o: Rules, s: string, top: bool, bq: bool, links: Links)
    requires Sound(o) && s != "" && s[0] != '\n' && Leads(o, QuoteRule, s, top, bq) && Matches(o, QuoteRule, s, top, bq)
    ensures var tree := Block(o, s, top, bq, links); ReadsAs(o, QuoteRule, s, top, bq, Flatten(tree.0), links, tree.1)
    decreases |s|, 0
  {
    hide Choose;
    hide Leads;
    hide Scan;
    hide Blocks;
    hide FlattenNode;
    hide Flatten;
    hide Reads;
    hide ReadsOn;
    ChoiceLeads(o, QuoteRule, s, top, bq);
    var hit := o.blockquote(s).value;
    var body := Blocks(o, hit.inner, top, true, links);
    var more := Scan(o, s[hit.len..], top, bq, body.1);
    BlocksRead(o, hit.inner, top, true, links);
    ScanRead(o, s[hit.len..], top, bq, body.1);
    FlattenCons(Quote(body.0), more.0);
    QuoteNodeTokens(body.0);
    Container(QuoteStart, Flatten(body.0), QuoteEnd, Flatten(more.0));
  }

  lemma QuoteNodeTokens(kids: seq<Node>)
    ensures FlattenNode(Quote(kids)) == [QuoteStart] + Flatten(kids) + [QuoteEnd]
  {
  }

  lemma ListNodeTokens(ordered: bool, kids: seq<Node>)
    ensures FlattenNode(List(ordered, kids)) == [ListStart(ordered)] + Flatten(kids) + [ListEnd]
  {
  }

  lemma ItemNodeTokens(loose: bool, kids: seq<Node>)
    ensures FlattenNode(Item(loose, kids)) == [ItemStart(loose)] + Flatten(kids) + [ItemEnd]
  {
  }

  lemma {:induction false} ListRead(o: Rules, s: string, top: bool, bq: bool, links: Links)
    requires Sound(o) && s != "" && s[0] != '\n' && Leads(o, ListRule, s, top, bq) && Matches(o, ListRule, s, top, bq)
    ensures var tree := Block(o, s, top, bq, links); ReadsAs(o, ListRule, s, top, bq, Flatten(tree.0), links, tree.1)
    decreases |s|, 0
  {
    hide Choose;
    hide Leads;
    hide Scan;
    hide Items;
    hide Lines;
    hide Keeps;
    hide FlattenNode;
    hide Flatten;
    hide ReadsOn;
    hide ReadsItems;
    ChoiceLeads(o, ListRule, s, top, bq);
    var hit := o.list(s).value;
    var k := SomeKept(o, hit.bull, hit.items, 0);
    var body := Items(o, hit.bull, hit.items, false, bq, links);
    assert hit.items[0..] == hit.items;
    ItemsRead(o, hit.bull, hit.items, k, 0, false, bq, links);
    LinesShrink(hit.items, k);
    var rest := Lines(hit.items[k..]) + s[hit.len..];
    var more := Scan(o, rest, top, bq, body.2);
    ScanRead(o, rest, top, bq, body.2);
    FlattenCons(List(|hit.bull| > 1, body.0), more.0);
    ListNodeTokens(|hit.bull| > 1, body.0);
    Container(ListStart(|hit.bull| > 1), Flatten(body.0), ListEnd, Flatten(more.0));
  }

  /** How many items a list keeps, if the first `i + 1` belong to it. */
  lemma {:induction false} SomeKept(o: Rules, bull: string, items: seq<string>, i: nat) returns (k: nat)
    requires i < |items| && forall j :: 1 <= j <= i ==> !Elsewhere(o, bull, items[j])
    ensures Keeps(o, bull, items, k)
    decreases |items| - i
  {
    if i + 1 == |items| || Elsewhere(o, bull, items[i + 1]) {
      k := i + 1;
    } else {
      k := SomeKept(o, bull, items, i + 1);
    }
  }

  /** Item `i` is the last that is kept exactly if the next belongs elsewhere, or there is none. */
  lemma PartsAtLast(o: Rules, bull: string, items: seq<string>, k: nat, i: nat)
    requires Keeps(o, bull, items, k) && i < k
    ensures Parts(o, bull, items[i..]) <==> i + 1 == k && k < |items|
  {
    if i + 1 < |items| {
      assert items[i..][1] == items[i + 1];
    }
  }

  lemma {:induction false} ItemsRead(o: Rules, bull: string, items: seq<string>, k: nat, i: nat, next: bool, bq: bool,
                                     links: Links)
    requires Sound(o) && Stripped(o, items) && Keeps(o, bull, items, k) && i < k
    requires next == (i > 0 && EndsLine(o.strip(items[i - 1])))
    ensures Stripped(o, items[i..])
    ensures var r := Items(o, bull, items[i..], next, bq, links);
            r.1 == Lines(items[k..]) && ReadsItems(o, items, k, i, bq, Flatten(r.0), links, r.2)
    decreases |Lines(items)|, 0, k - i
  {
    hide Sound;
    hide Lines;
    hide Keeps;
    hide Blocks;
    hide FlattenNode;
    hide Flatten;
    hide Reads;
    hide EndsLine;
    hide Parts;
    hide Items;
    hide ReadsItems;
    hide LooseItem;
    hide Stripped;
    KeptWithin(o, bull, items, k);
    StrippedFrom(o, items, i);
    PartsAtLast(o, bull, items, k, i);
    ItemInLines(items, i);
    var item := o.strip(items[i]);
    var body := Blocks(o, item, false, bq, links);
    BlocksRead(o, item, false, bq, links);
    var loose := LooseItem(o, items, k, i);
    ItemNodeTokens(loose, body.0);
    if i + 1 == k {
      LastItem(o, bull, items, k, i, next, bq, links);
      FlattenCons(Item(loose, body.0), []);
      ItemsCons(o, items, k, i, bq, Flatten(body.0), links, body.1, [], body.1);
      assert FlattenNode(Item(loose, body.0)) + [] == FlattenNode(Item(loose, body.0));
    } else {
      ItemsRead(o, bull, items, k, i + 1, EndsLine(item), bq, body.1);
      var more := Items(o, bull, items[i + 1..], EndsLine(item), bq, body.1);
      MoreItems(o, bull, items, k, i, next, bq, links);
      FlattenCons(Item(loose, body.0), more.0);
      ItemsCons(o, items, k, i, bq, Flatten(body.0), links, body.1, Flatten(more.0), more.2);
    }
  }

  /** The tokens of an item in front of those of the others. */
  lemma ItemsCons(o: Rules, items: seq<string>, k: nat, i: nat, bq: bool, inside: seq<Token>,
                  before: Links, mid: Links, more: seq<Token>, after: Links)
    requires Sound(o) && Stripped(o, items) && i < k <= |items|
    requires Reads(o, o.strip(items[i]), false, bq, inside, before, mid)
    requires if i + 1 == k then more == [] && after == mid else ReadsItems(o, items, k, i + 1, bq, more, mid, after)
    ensures ReadsItems(o, items, k, i, bq, [ItemStart(LooseItem(o, items, k, i))] + inside + [ItemEnd] + more,
                       before, after)
  {
    hide Sound;
    hide Stripped;
    hide Lines;
    hide Reads;
    hide LooseItem;
    Container(ItemStart(LooseItem(o, items, k, i)), inside, ItemEnd, more);
  }

  lemma MoreItems(o: Rules, bull: string, items: seq<string>, k: nat, i: nat, next: bool, bq: bool, links: Links)
    requires Sound(o) && i + 1 < k <= |items| && Stripped(o, items[i..]) && Stripped(o, items[i + 1..])
    requires !Parts(o, bull, items[i..])
    requires next == (i > 0 && EndsLine(o.strip(items[i - 1])))
    ensures var item := o.strip(items[i]);
            var body := Blocks(o, item, false, bq, links);
            var more := Items(o, bull, items[i + 1..], EndsLine(item), bq, body.1);
            Items(o, bull, items[i..], next, bq, links)
            == ([Item(LooseItem(o, items, k, i), body.0)] + more.0, more.1, more.2)
  {
    hide Sound;
    hide Blocks;
    hide EndsLine;
    hide Parts;
    hide Stripped;
    hide Lines;
    assert items[i..][0] == items[i] && items[i..][1..] == items[i + 1..];
  }

  lemma StrippedFrom(o: Rules, items: seq<string>, i: nat)
    requires Stripped(o, items) && i < |items|
    ensures Stripped(o, items[i..]) && Stripped(o, items[i + 1..]) && |o.strip(items[i])| < |items[i]|
  {
  }

  lemma KeptWithin(o: Rules, bull: string, items: seq<string>, k: nat)
    requires Keeps(o, bull, items, k)
    ensures 1 <= k <= |items|
  {
  }

  lemma LastItem(o: Rules, bull: string, items: seq<string>, k: nat, i: nat, next: bool, bq: bool, links: Links)
    requires Sound(o) && i + 1 == k <= |items| && Stripped(o, items[i..])
    requires Parts(o, bull, items[i..]) <==> k < |items|
    requires next == (i > 0 && EndsLine(o.strip(items[i - 1])))
    ensures var body := Blocks(o, o.strip(items[i]), false, bq, links);
            Items(o, bull, items[i..], next, bq, links)
            == ([Item(LooseItem(o, items, k, i), body.0)], Lines(items[k..]), body.1)
  {
    hide Sound;
    hide Blocks;
    hide EndsLine;
    hide Parts;
    var rest := items[i..];
    assert rest[0] == items[i] && rest[1..] == items[k..];
    var body := Blocks(o, o.strip(items[i]), false, bq, links);
    var node := Item(LooseItem(o, items, k, i), body.0);
    if k == |items| {
      assert rest[1..] == [];
      var none := Items(o, bull, rest[1..], next, bq, body.1);
      assert none == ([], "", body.1);
      assert [node] + none.0 == [node];
    }
  }

  // ---------- The lexer as an object ----------

  lemma {:induction false} FlattenMore(nodes: seq<Node>, n: Node)
    ensures Flatten(nodes + [n]) == Flatten(nodes) + FlattenNode(n)
    decreases nodes
  {
    if nodes == [] {
      assert nodes + [n] == [n] && [n][1..] == [];
      assert Flatten([n]) == FlattenNode(n) + Flatten([]);
    } else {
      assert (nodes + [n])[1..] == nodes[1..] + [n];
      FlattenMore(nodes[1..], n);
    }
  }

  ghost predicate Continues(goal: (seq<Node>, Links), done: seq<Node>, more: (seq<Node>, Links)) {
    goal == (done + more.0, more.1)
  }

  lemma ContinuesPast(goal: (seq<Node>, Links), done: seq<Node>, n: Node, more: (seq<Node>, Links))
    requires Continues(goal, done, ([n] + more.0, more.1))
    ensures Continues(goal, done + [n], more)
  {
    assert done + ([n] + more.0) == done + [n] + more.0;
  }

  /** What a scan does with the newlines in front. */
  lemma ScanStep(o: Rules, src: string, top: bool, bq: bool, links: Links, goal: (seq<Node>, Links), done: seq<Node>)
    requires Sound(o) && Continues(goal, done, Scan(o, src, top, bq, links))
    ensures var n := Newlines(src); var s := src[n..];
            var done' := if n > 1 then done + [LeafNode(Space)] else done;
            if s == "" then Continues(goal, done', ([], links)) else Continues(goal, done', Block(o, s, top, bq, links))
  {
    hide Sound;
    hide Block;
    var n := Newlines(src);
    var s := src[n..];
    var more := if s == "" then ([], links) else Block(o, s, top, bq, links);
    if n > 1 {
      assert [LeafNode(Space)] + [] == [LeafNode(Space)];
      ContinuesPast(goal, done, LeafNode(Space), more);
    } else {
      assert [] + more.0 == more.0;
    }
  }

  /** What is chosen at the start of a text, and what follows it. */
  lemma BlockStep(o: Rules, s: string, top: bool, bq: bool, links: Links, goal: (seq<Node>, Links), done: seq<Node>)
    requires Sound(o) && s != "" && s[0] != '\n' && Continues(goal, done, Block(o, s, top, bq, links))
    ensures var c := Choose(o, s, top, bq);
            && c != Nothing && 1 <= c.len <= |s|
            && (c.AnyLeaf? ==> Continues(goal, done + [LeafNode(c.leaf)], Scan(o, s[c.len..], top, bq, links)))
            && (c.AText? ==> Continues(goal, done + [TextNode(s[..c.len])], Scan(o, s[c.len..], top, bq, links)))
            && (c.ADef? ==> Continues(goal, done, Scan(o, s[c.len..], top, bq, links[c.key := c.link])))
            && (c.AQuote? ==>
                  var body := Blocks(o, c.inner, top, true, links);
                  |c.inner| < c.len && Continues(goal, done + [Quote(body.0)], Scan(o, s[c.len..], top, bq, body.1)))
            && (c.AList? ==>
                  && c.items != [] && Stripped(o, c.items) && |Lines(c.items)| <= c.len
                  && var body := Items(o, c.bull, c.items, false, bq, links);
                     && |body.1| < |Lines(c.items)|
                     && Continues(goal, done + [List(|c.bull| > 1, body.0)],
                                  Scan(o, body.1 + s[c.len..], top, bq, body.2)))
  {
    hide Sound;
    hide Choose;
    hide Stripped;
    hide Lines;
    hide Items;
    hide Scan;
    hide Blocks;
    hide Continues;
    ChoiceIsSound(o, s, top, bq);
    match Choose(o, s, top, bq)
    case AnyLeaf(len, leaf) => ContinuesPast(goal, done, LeafNode(leaf), Scan(o, s[len..], top, bq, links));
    case AText(len) => ContinuesPast(goal, done, TextNode(s[..len]), Scan(o, s[len..], top, bq, links));
    case ADef(len, key, link) =>
    case AQuote(len, inner) =>
      var body := Blocks(o, inner, top, true, links);
      ContinuesPast(goal, done, Quote(body.0), Scan(o, s[len..], top, bq, body.1));
    case AList(len, bull, items) =>
      var body := Items(o, bull, items, false, bq, links);
      ContinuesPast(goal, done, List(|bull| > 1, body.0), Scan(o, body.1 + s[len..], top, bq, body.2));
  }

  /** Whether an item is loose, whether it ended with a newline, what goes back to the input, and the next index. */
  function Decision(o: Rules, bull: string, items: seq<string>, i: nat, next: bool): (bool, bool, string, nat)
    requires i < |items|
  {
    var item, parts := o.strip(items[i]), Parts(o, bull, items[i..]);
    var last := parts || i == |items| - 1;
    (next || o.loose(item) || (!last && EndsLine(item)),
     if last then next else EndsLine(item),
     if parts then Lines(items[i + 1..]) else "",
     if parts then |items| else i + 1)
  }

  /** The loop over the items of a list: `done`, and what is to come, make up `goal`. */
  ghost predicate At(o: Rules, bull: string, items: seq<string>, i: nat, next: bool, left: string, bq: bool,
                     links: Links, goal: (seq<Node>, string, Links), done: seq<Node>)
    requires Sound(o) && i <= |items|
  {
    if left != "" then i == |items| && goal == (done, left, links)
    else
      && Stripped(o, items[i..]) && |Lines(items[i..])| <= |Lines(items)|
      && var more := Items(o, bull, items[i..], next, bq, links); goal == (done + more.0, more.1, more.2)
  }

  lemma ItemStep(o: Rules, bull: string, items: seq<string>, i: nat, next: bool, left: string, bq: bool, links: Links,
                 goal: (seq<Node>, string, Links), done: seq<Node>)
    requires Sound(o) && i < |items| && At(o, bull, items, i, next, left, bq, links, goal, done)
    ensures |o.strip(items[i])| < |Lines(items)|
    ensures var body := Blocks(o, o.strip(items[i]), false, bq, links); var d := Decision(o, bull, items, i, next);
            i < d.3 <= |items| && At(o, bull, items, d.3, d.1, d.2, bq, body.1, goal, done + [Item(d.0, body.0)])
  {
    hide Sound;
    hide Lines;
    hide Blocks;
    hide Parts;
    var rest := items[i..];
    assert rest[0] == items[i] && rest[1..] == items[i + 1..];
    var body := Blocks(o, o.strip(items[i]), false, bq, links);
    var d := Decision(o, bull, items, i, next);
    var node := Item(d.0, body.0);
    PartsLeaveText(o, bull, items, i);
    if Parts(o, bull, rest) {
      assert done + [node] + [] == done + [node];
    } else {
      var more := Items(o, bull, items[i + 1..], d.1, bq, body.1);
      assert done + ([node] + more.0) == done + [node] + more.0;
    }
  }

  lemma PartsLeaveText(o: Rules, bull: string, items: seq<string>, i: nat)
    requires i < |items| && Stripped(o, items[i..])
    ensures Parts(o, bull, items[i..]) ==> Lines(items[i + 1..]) != ""
  {
    hide Lines;
    if Parts(o, bull, items[i..]) {
      assert items[i..][1] == items[i + 1] && items[i + 1..][0] == items[i + 1];
    }
  }

  /** A list of which nothing is done yet. */
  lemma ItemsBegin(o: Rules, bull: string, items: seq<string>, bq: bool, links: Links)
    requires Sound(o) && Stripped(o, items)
    ensures Flatten([]) == []
    ensures At(o, bull, items, 0, false, "", bq, links, Items(o, bull, items, false, bq, links), [])
  {
    hide Sound;
    hide Items;
    var goal := Items(o, bull, items, false, bq, links);
    assert [] + goal.0 == goal.0 && items[0..] == items;
  }

  lemma ItemsEnd(o: Rules, bull: string, items: seq<string>, i: nat, next: bool, left: string, bq: bool, links: Links,
                 goal: (seq<Node>, string, Links), done: seq<Node>)
    requires Sound(o) && i == |items| && At(o, bull, items, i, next, left, bq, links, goal, done)
    ensures goal == (done, left, links)
  {
    hide Sound;
    assert items[i..] == [] && done + [] == done;
  }

  class Lexer {
    const rules: Rules
    var tokens: seq<Token>
    var links: Links

    constructor (rules: Rules)
      ensures this.rules == rules && tokens == [] && links == map[]
    {
      this.rules := rules;
      tokens, links := [], map[];
    }

    method PushToken(t: Token)
      modifies this`tokens
      ensures tokens == old(tokens) + [t]
    {
      tokens := tokens + [t];
    }

    /**
     Pushes the tokens of a text. It always ends, never gets to its exception, and what it
     pushes is the stream of the text's tree.
     */
    method Lex(src0: string, top: bool, bq: bool)
      requires Sound(rules)
      modifies this
      ensures var tree := Blocks(rules, src0, top, bq, old(links));
              tokens == old(tokens) + Flatten(tree.0) && links == tree.1
      // Those are the tokens that the rules give, each where it is the first to match.
      ensures Pushed(rules, src0, top, bq, old(tokens), tokens, old(links), links)
      decreases |src0|, 3
    {
      hide Sound;
      hide Choose;
      hide Stripped;
      hide Lines;
      hide FlattenNode;
      hide Flatten;
      hide Scan;
      hide Block;
      hide Items;
      hide Pushed;
      TreePushed(src0, top, bq, tokens, links);
      BlankShrinks(src0);
      var src := rules.blank(src0);
      ghost var goal := Blocks(rules, src0, top, bq, links);
      ghost var done: seq<Node> := [];
      TreeStarts(src0, top, bq, links);
      while src != ""
        invariant |src| <= |src0|
        invariant tokens == old(tokens) + Flatten(done)
        invariant Continues(goal, done, if src == "" then ([], links) else Scan(rules, src, top, bq, links))
        decreases |src|
      {
        ScanStep(rules, src, top, bq, links, goal, done);
        var n := Newlines(src);
        src := src[n..];
        if n > 1 {
          PushToken(One(Space));
          FlattenMore(done, LeafNode(Space));
          OneToken(Space);
          done := done + [LeafNode(Space)];
        }
        if src != "" {
          ghost var pushed;
          src, done, pushed := LexBlock(src, top, bq, goal, done);
          ScanOfNothing(src, top, bq, links);
        }
      }
      assert done + [] == done;
    }

    lemma TreePushed(src: string, top: bool, bq: bool, was: seq<Token>, before: Links)
      requires Sound(rules)
      ensures var tree := Blocks(rules, src, top, bq, before);
              Pushed(rules, src, top, bq, was, was + Flatten(tree.0), before, tree.1)
    {
      hide Blocks;
      hide Reads;
      BlocksRead(rules, src, top, bq, before);
      var tree := Blocks(rules, src, top, bq, before);
      assert (was + Flatten(tree.0))[|was|..] == Flatten(tree.0);
    }

    lemma BlankShrinks(s: string)
      requires Sound(rules)
      ensures |rules.blank(s)| <= |s|
    {
    }

    lemma ScanOfNothing(s: string, top: bool, bq: bool, links: Links)
      requires Sound(rules)
      ensures s == "" ==> Scan(rules, s, top, bq, links) == ([], links)
    {
      hide Sound;
    }

    lemma TreeStarts(src: string, top: bool, bq: bool, links: Links)
      requires Sound(rules)
      ensures Continues(Blocks(rules, src, top, bq, links), [], Scan(rules, rules.blank(src), top, bq, links))
      ensures rules.blank(src) == "" ==> Scan(rules, rules.blank(src), top, bq, links) == ([], links)
      ensures Flatten([]) == []
    {
      hide Sound;
      hide Scan;
      ScanOfNothing(rules.blank(src), top, bq, links);
      var goal := Blocks(rules, src, top, bq, links);
      assert [] + goal.0 == goal.0;
    }

    /** Pushes the tokens of the block at the start of `s`; returns what is left to read. */
    method LexBlock(s: string, top: bool, bq: bool, ghost goal: (seq<Node>, Links), ghost done: seq<Node>)
      returns (src: string, ghost more: seq<Node>, ghost pushed: seq<Token>)
      requires Sound(rules) && s != "" && s[0] != '\n' && Continues(goal, done, Block(rules, s, top, bq, links))
      modifies this
      ensures |src| < |s|
      ensures tokens == old(tokens) + pushed && Flatten(more) == Flatten(done) + pushed
      ensures Continues(goal, more, Scan(rules, src, top, bq, links))
      decreases |s|, 2
    {
      hide Sound;
      hide Choose;
      hide Stripped;
      hide Lines;
      hide FlattenNode;
      hide Flatten;
      hide Scan;
      hide Block;
      hide Blocks;
      hide Items;
      hide Pushed;
      hide PushedItems;
      ChoiceIsSound(rules, s, top, bq);
      BlockStep(rules, s, top, bq, links, goal, done);
      match Choose(rules, s, top, bq) {
        case AnyLeaf(len, leaf) =>
          src, more, pushed := s[len..], done + [LeafNode(leaf)], [One(leaf)];
          PushToken(One(leaf));
          FlattenMore(done, LeafNode(leaf));
          OneToken(leaf);
        case AText(len) =>
          src, more, pushed := s[len..], done + [TextNode(s[..len])], [Text(s[..len])];
          PushToken(Text(s[..len]));
          FlattenMore(done, TextNode(s[..len]));
          TextToken(s[..len]);
        case ADef(len, key, link) =>
          src, more, pushed := s[len..], done, [];
          links := links[key := link];
          assert tokens + [] == tokens && Flatten(done) + [] == Flatten(done);
        case AQuote(len, inner) =>
          src := s[len..];
          ghost var body := Blocks(rules, inner, top, true, links).0;
          more, pushed := done + [Quote(body)], [QuoteStart] + Flatten(body) + [QuoteEnd];
          PushToken(QuoteStart);
          Lex(inner, top, true);
          PushToken(QuoteEnd);
          FlattenMore(done, Quote(body));
          QuoteTokens(body);
        case AList(len, bull, items) =>
          src := s[len..];
          ghost var body := Items(rules, bull, items, false, bq, links).0;
          more, pushed := done + [List(|bull| > 1, body)], [ListStart(|bull| > 1)] + Flatten(body) + [ListEnd];
          PushToken(ListStart(|bull| > 1));
          var left := LexItems(bull, items, bq);
          src := left + src;
          PushToken(ListEnd);
          FlattenMore(done, List(|bull| > 1, body));
          ListTokens(|bull| > 1, body);
        case Nothing =>
          assert false;
      }
    }

    lemma OneToken(leaf: Leaf)
      ensures FlattenNode(LeafNode(leaf)) == [One(leaf)]
    {
    }

    lemma TextToken(text: string)
      ensures FlattenNode(TextNode(text)) == [Text(text)]
    {
    }

    lemma QuoteTokens(kids: seq<Node>)
      ensures FlattenNode(Quote(kids)) == [QuoteStart] + Flatten(kids) + [QuoteEnd]
    {
    }

    lemma ListTokens(ordered: bool, kids: seq<Node>)
      ensures FlattenNode(List(ordered, kids)) == [ListStart(ordered)] + Flatten(kids) + [ListEnd]
    {
    }

    lemma ItemTokens(loose: bool, kids: seq<Node>)
      ensures FlattenNode(Item(loose, kids)) == [ItemStart(loose)] + Flatten(kids) + [ItemEnd]
    {
    }

    method LexItem(item: string, loose: bool, bq: bool)
      requires Sound(rules)
      modifies this
      ensures var tree := Blocks(rules, item, false, bq, old(links));
              tokens == old(tokens) + FlattenNode(Item(loose, tree.0)) && links == tree.1
      decreases |item|, 4
    {
      hide Sound;
      hide FlattenNode;
      hide Flatten;
      hide Blocks;
      hide Pushed;
      ghost var body := Blocks(rules, item, false, bq, links).0;
      PushToken(ItemStart(loose));
      Lex(item, false, bq);
      PushToken(ItemEnd);
      ItemTokens(loose, body);
    }

    lemma KeptItemsRead(bull: string, items: seq<string>, bq: bool, was: seq<Token>, before: Links)
      requires Sound(rules) && Stripped(rules, items)
      ensures var tree := Items(rules, bull, items, false, bq, before);
              items != [] ==> PushedItems(rules, bull, items, bq, tree.1, was, was + Flatten(tree.0), before, tree.2)
    {
      hide Sound;
      hide Items;
      hide Lines;
      hide Keeps;
      hide ReadsItems;
      hide Flatten;
      var tree := Items(rules, bull, items, false, bq, before);
      assert (was + Flatten(tree.0))[|was|..] == Flatten(tree.0);
      if items != [] {
        var k := SomeKept(rules, bull, items, 0);
        assert items[0..] == items;
        ItemsRead(rules, bull, items, k, 0, false, bq, before);
      }
    }

    /** Pushes the items of a list; returns those that belong to another list as text. */
    method LexItems(bull: string, items: seq<string>, bq: bool) returns (left: string)
      requires Sound(rules) && Stripped(rules, items)
      modifies this
      ensures var tree := Items(rules, bull, items, false, bq, old(links));
              tokens == old(tokens) + Flatten(tree.0) && left == tree.1 && links == tree.2
      ensures items != [] ==> PushedItems(rules, bull, items, bq, left, old(tokens), tokens, old(links), links)
      decreases |Lines(items)|, 1
    {
      hide Sound;
      hide FlattenNode;
      hide Flatten;
      hide Items;
      hide Blocks;
      hide Reads;
      hide Lines;
      hide Stripped;
      hide At;
      hide Decision;
      left := "";
      var next := false;
      var i := 0;
      hide PushedItems;
      ghost var goal := Items(rules, bull, items, false, bq, links);
      ghost var done: seq<Node> := [];
      KeptItemsRead(bull, items, bq, tokens, links);
      ItemsBegin(rules, bull, items, bq, links);
      while i < |items|
        invariant 0 <= i <= |items| && tokens == old(tokens) + Flatten(done)
        invariant At(rules, bull, items, i, next, left, bq, links, goal, done)
      {
        ItemStep(rules, bull, items, i, next, left, bq, links, goal, done);
        var item := rules.strip(items[i]);
        ghost var body := Blocks(rules, item, false, bq, links).0;
        var loose;
        loose, next, left, i := Decide(bull, items, i, next, item);
        LexItem(item, loose, bq);
        FlattenMore(done, Item(loose, body));
        done := done + [Item(loose, body)];
      }
      ItemsEnd(rules, bull, items, i, next, left, bq, links, goal, done);
      assert tokens == old(tokens) + Flatten(goal.0);
    }

    /** Whether an item is loose, and where to go on: behind the list if the next item belongs to another. */
    method Decide(bull: string, items: seq<string>, i0: nat, next0: bool, item: string)
      returns (loose: bool, next: bool, left: string, i: nat)
      requires i0 < |items| && item == rules.strip(items[i0])
      ensures (loose, next, left, i) == Decision(rules, bull, items, i0, next0)
    {
      hide Lines;
      hide Parts;
      hide EndsLine;
      var l := |items|;
      left, next, i := "", next0, i0;
      if Parts(rules, bull, items[i..]) {
        left := Lines(items[i + 1..]);
        i := l - 1;
      }
      loose := next || rules.loose(item);
      if i != l - 1 {
        next := EndsLine(item);
        loose := loose || next;
      }
      i := i + 1;
    }
  }
}
