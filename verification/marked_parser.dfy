/**
 The block parser of marked (marked.js:896-1070): a machine that pops a flat stream of
 tokens without checking for its end, against the rendering of the tree that the stream
 came from.
 */
module MarkedParser {
  import opened Wrappers

  datatype Leaf =
    | Space
    | Hr
    | Heading(depth: nat, text: string)
    | Code(text: string, lang: Option<string>, escaped: bool)
    | Table(header: seq<string>, align: seq<Option<string>>, cells: seq<seq<string>>)
    | Html(pre: bool, text: string)
    | Paragraph(text: string)

  datatype Token =
    | One(leaf: Leaf)
    | Text(text: string)
    | QuoteStart | QuoteEnd
    | ListStart(ordered: bool) | ListEnd
    | ItemStart(loose: bool) | ItemEnd

  /** A tree of blocks. */
  datatype Node =
    | LeafNode(leaf: Leaf)
    | TextNode(text: string)
    | Quote(kids: seq<Node>)
    | List(ordered: bool, kids: seq<Node>)
    | Item(loose: bool, kids: seq<Node>)

  /** How blocks and spans are shown; `inline` reads and leaves a flag (`inLink`). */
  datatype Renderer = Renderer(
    inline: (string, bool) -> (string, bool),
    hr: string,
    heading: (string, nat, string) -> string,
    code: (string, Option<string>, bool) -> string,
    table: (string, string) -> string,
    tablerow: string -> string,
    tablecell: (string, bool, Option<string>) -> string,
    blockquote: string -> string,
    list: (string, bool) -> string,
    listitem: string -> string,
    html: string -> string,
    paragraph: string -> string,
    pedantic: bool)

  // ---------- The tree, directly ----------

  /** The stream of a tree, as the lexer pushes it. */
  function Flatten(nodes: seq<Node>): seq<Token>
    decreases nodes
  {
    if nodes == [] then [] else FlattenNode(nodes[0]) + Flatten(nodes[1..])
  }

  function FlattenNode(n: Node): seq<Token>
    decreases n
  {
    match n
    case LeafNode(leaf) => [One(leaf)]
    case TextNode(text) => [Text(text)]
    case Quote(kids) => [QuoteStart] + Flatten(kids) + [QuoteEnd]
    case List(ordered, kids) => [ListStart(ordered)] + Flatten(kids) + [ListEnd]
    case Item(loose, kids) => [ItemStart(loose)] + Flatten(kids) + [ItemEnd]
  }

  /** How many text nodes `nodes` starts with. */
  function TextRun(nodes: seq<Node>): (n: nat)
    ensures n <= |nodes|
    ensures nodes != [] && nodes[0].TextNode? ==> n >= 1
  {
    if nodes != [] && nodes[0].TextNode? then 1 + TextRun(nodes[1..]) else 0
  }

  /** The text of neighbouring text nodes: one line each. */
  function Joined(nodes: seq<Node>, n: nat): string
    requires n <= TextRun(nodes)
  {
    if n == 0 then "" else if n == 1 then nodes[0].text else nodes[0].text + "\n" + Joined(nodes[1..], n - 1)
  }

  function Cells(r: Renderer, row: seq<string>, align: seq<Option<string>>, header: bool, n: nat, link: bool)
    : (string, bool)
    requires n <= |row|
    decreases n
  {
    if n == 0 then ("", link)
    else
      var before := Cells(r, row, align, header, n - 1, link);
      var cell := r.inline(row[n - 1], before.1);
      (before.0 + r.tablecell(cell.0, header, if n - 1 < |align| then align[n - 1] else None), cell.1)
  }

  function Rows(r: Renderer, cells: seq<seq<string>>, align: seq<Option<string>>, n: nat, link: bool): (string, bool)
    requires n <= |cells|
    decreases n
  {
    if n == 0 then ("", link)
    else
      var before := Rows(r, cells, align, n - 1, link);
      var row := Cells(r, cells[n - 1], align, false, |cells[n - 1]|, before.1);
      (before.0 + r.tablerow(row.0), row.1)
  }

  function RenderLeaf(r: Renderer, leaf: Leaf, link: bool): (string, bool) {
    match leaf
    case Space => ("", link)
    case Hr => (r.hr, link)
    case Heading(depth, text) => var t := r.inline(text, link); (r.heading(t.0, depth, text), t.1)
    case Code(text, lang, escaped) => (r.code(text, lang, escaped), link)
    case Table(header, align, cells) =>
      var top := Cells(r, header, align, true, |header|, link);
      var body := Rows(r, cells, align, |cells|, top.1);
      (r.table(r.tablerow(top.0), body.0), body.1)
    case Html(pre, text) =>
      if !pre && !r.pedantic then (var t := r.inline(text, link); (r.html(t.0), t.1)) else (r.html(text), link)
    case Paragraph(text) => var t := r.inline(text, link); (r.paragraph(t.0), t.1)
  }

  function Concat(parts: seq<string>): string {
    if parts == [] then "" else Concat(parts[..|parts| - 1]) + parts[|parts| - 1]
  }

  /** The cells of a row in their order, each with its own alignment, if showing spans does not touch the flag. */
  lemma {:induction false} CellsInOrder(r: Renderer, row: seq<string>, align: seq<Option<string>>, header: bool,
                                        n: nat, link: bool, shown: string -> string)
    requires n <= |row| && forall s, b :: r.inline(s, b) == (shown(s), b)
    ensures Cells(r, row, align, header, n, link)
            == (Concat(seq(n, i requires 0 <= i < n =>
                              r.tablecell(shown(row[i]), header, if i < |align| then align[i] else None))), link)
    decreases n
  {
    var parts := seq(n, i requires 0 <= i < n =>
                        r.tablecell(shown(row[i]), header, if i < |align| then align[i] else None));
    if n > 0 {
      CellsInOrder(r, row, align, header, n - 1, link, shown);
      assert parts[..n - 1] == seq(n - 1, i requires 0 <= i < n - 1 =>
                                   r.tablecell(shown(row[i]), header, if i < |align| then align[i] else None));
    }
  }

  function RowOf(r: Renderer, cells: seq<string>, align: seq<Option<string>>, shown: string -> string): string {
    r.tablerow(Concat(seq(|cells|, i requires 0 <= i < |cells| =>
                              r.tablecell(shown(cells[i]), false, if i < |align| then align[i] else None))))
  }

  lemma {:induction false} RowsInOrder(r: Renderer, cells: seq<seq<string>>, align: seq<Option<string>>, n: nat,
                                       link: bool, shown: string -> string)
    requires n <= |cells| && forall s, b :: r.inline(s, b) == (shown(s), b)
    ensures Rows(r, cells, align, n, link)
            == (Concat(seq(n, i requires 0 <= i < n => RowOf(r, cells[i], align, shown))), link)
    decreases n
  {
    hide Cells;
    var parts := seq(n, i requires 0 <= i < n => RowOf(r, cells[i], align, shown));
    if n > 0 {
      RowsInOrder(r, cells, align, n - 1, link, shown);
      CellsInOrder(r, cells[n - 1], align, false, |cells[n - 1]|, link, shown);
      assert parts[..n - 1] == seq(n - 1, i requires 0 <= i < n - 1 => RowOf(r, cells[i], align, shown));
      assert parts[n - 1] == r.tablerow(Cells(r, cells[n - 1], align, false, |cells[n - 1]|, link).0);
    }
  }

  /**
   The rendering of a list of blocks: neighbouring texts are one paragraph, and in the
   items of a tight list no paragraph at all.
   */
  function Render(r: Renderer, nodes: seq<Node>, tight: bool, link: bool): (string, bool)
    decreases nodes, 1
  {
    if nodes == [] then ("", link)
    else if nodes[0].TextNode? then
      var n := TextRun(nodes);
      var text := r.inline(Joined(nodes, n), link);
      var rest := Render(r, nodes[n..], tight, text.1);
      ((if tight then text.0 else r.paragraph(text.0)) + rest.0, rest.1)
    else
      var first := RenderNode(r, nodes[0], link);
      var rest := Render(r, nodes[1..], tight, first.1);
      (first.0 + rest.0, rest.1)
  }

  function RenderNode(r: Renderer, n: Node, link: bool): (string, bool)
    requires !n.TextNode?
    decreases n, 0
  {
    match n
    case LeafNode(leaf) => RenderLeaf(r, leaf, link)
    case Quote(kids) => var body := Render(r, kids, false, link); (r.blockquote(body.0), body.1)
    case List(ordered, kids) => var body := Render(r, kids, false, link); (r.list(body.0, ordered), body.1)
    case Item(loose, kids) => var body := Render(r, kids, !loose, link); (r.listitem(body.0), body.1)
  }

  // ---------- The machine ----------

  /** What the parser returned, the tokens that are left, and the flag; `None` if it read past the end. */
  type Parsed = Option<(string, seq<Token>, bool)>

  /** Merges the text tokens that follow. */
  function MergeText(body: string, rest: seq<Token>): (r: (string, seq<Token>))
    ensures |r.1| <= |rest|
    decreases |rest|
  {
    if rest != [] && rest[0].Text? then MergeText(body + "\n" + rest[0].text, rest[1..]) else (body, rest)
  }

  function EndOf(t: Token): Token
    requires t.QuoteStart? || t.ListStart? || t.ItemStart?
  {
    if t.QuoteStart? then QuoteEnd else if t.ListStart? then ListEnd else ItemEnd
  }

  /** The token `t` has just been popped. A stray end token yields `undefined`. */
  function Tok(r: Renderer, t: Token, rest: seq<Token>, link: bool): (p: Parsed)
    ensures p.Some? ==> |p.value.1| <= |rest|
    decreases |rest|, 1
  {
    match t
    case One(leaf) => var shown := RenderLeaf(r, leaf, link); Some((shown.0, rest, shown.1))
    case Text(text) =>
      var merged := MergeText(text, rest);
      var shown := r.inline(merged.0, link);
      Some((r.paragraph(shown.0), merged.1, shown.1))
    case QuoteStart =>
      var body := Until(r, QuoteEnd, false, rest, link);
      if body.None? then None else Some((r.blockquote(body.value.0), body.value.1, body.value.2))
    case ListStart(ordered) =>
      var body := Until(r, ListEnd, false, rest, link);
      if body.None? then None else Some((r.list(body.value.0, ordered), body.value.1, body.value.2))
    case ItemStart(loose) =>
      var body := Until(r, ItemEnd, !loose, rest, link);
      if body.None? then None else Some((r.listitem(body.value.0), body.value.1, body.value.2))
    case _ => Some(("undefined", rest, link))
  }

  /** One turn of a body loop. */
  function Turn(r: Renderer, tight: bool, t: Token, rest: seq<Token>, link: bool): (p: Parsed)
    ensures p.Some? ==> |p.value.1| <= |rest|
    decreases |rest|, 2
  {
    if tight && t.Text? then
      var merged := MergeText(t.text, rest);
      var shown := r.inline(merged.0, link);
      Some((shown.0, merged.1, shown.1))
    else Tok(r, t, rest, link)
  }

  /** The body of a container, up to its end token. */
  function Until(r: Renderer, end: Token, tight: bool, rest: seq<Token>, link: bool): (p: Parsed)
    ensures p.Some? ==> |p.value.1| < |rest|
    decreases |rest|, 0
  {
    if rest == [] then None
    else if rest[0] == end then Some(("", rest[1..], link))
    else
      var first := Turn(r, tight, rest[0], rest[1..], link);
      if first.None? then None
      else
        var others := Until(r, end, tight, first.value.1, first.value.2);
        if others.None? then None
        else Some((first.value.0 + others.value.0, others.value.1, others.value.2))
  }

  /** The whole document. */
  function Document(r: Renderer, rest: seq<Token>, link: bool): Option<(string, bool)>
    decreases |rest|
  {
    if rest == [] then Some(("", link))
    else
      var first := Tok(r, rest[0], rest[1..], link);
      if first.None? then None
      else
        var others := Document(r, first.value.1, first.value.2);
        if others.None? then None else Some((first.value.0 + others.value.0, others.value.1))
  }

  // ---------- The machine renders the tree ----------

  lemma TextFirst(nodes: seq<Node>, rest: seq<Token>)
    requires nodes != [] && nodes[0].TextNode?
    ensures Flatten(nodes) + rest == [Text(nodes[0].text)] + (Flatten(nodes[1..]) + rest)
  {
    assert Flatten(nodes) == [Text(nodes[0].text)] + Flatten(nodes[1..]);
  }

  lemma TextTurn(r: Renderer, tight: bool, text: string, rest: seq<Token>, link: bool)
    ensures var merged := MergeText(text, rest); var shown := r.inline(merged.0, link);
            Turn(r, tight, Text(text), rest, link)
            == Some((if tight then shown.0 else r.paragraph(shown.0), merged.1, shown.1))
  {
  }

  /** What a token that holds no others shows: each kind by its own rule of the renderer. */
  lemma LeafIsShown(r: Renderer, leaf: Leaf, rest: seq<Token>, link: bool)
    ensures var p := Tok(r, One(leaf), rest, link);
            && p.Some? && p.value.1 == rest
            && (leaf.Space? ==> p.value.0 == "" && p.value.2 == link)
            && (leaf.Hr? ==> p.value.0 == r.hr && p.value.2 == link)
            && (leaf.Heading? ==>
                  var t := r.inline(leaf.text, link);
                  p.value.0 == r.heading(t.0, leaf.depth, leaf.text) && p.value.2 == t.1)
            && (leaf.Code? ==> p.value.0 == r.code(leaf.text, leaf.lang, leaf.escaped) && p.value.2 == link)
            && (leaf.Html? && (leaf.pre || r.pedantic) ==> p.value.0 == r.html(leaf.text) && p.value.2 == link)
            && (leaf.Html? && !leaf.pre && !r.pedantic ==>
                  var t := r.inline(leaf.text, link); p.value.0 == r.html(t.0) && p.value.2 == t.1)
            && (leaf.Paragraph? ==>
                  var t := r.inline(leaf.text, link); p.value.0 == r.paragraph(t.0) && p.value.2 == t.1)
  {
    hide Cells;
    hide Rows;
  }

  /** A table: its header is the first row, each row is one of cells in their order. */
  lemma TableIsShown(r: Renderer, leaf: Leaf, rest: seq<Token>, link: bool, shown: string -> string)
    requires leaf.Table? && forall s, b :: r.inline(s, b) == (shown(s), b)
    ensures var row := (cells: seq<string>, header: bool) =>
                         r.tablerow(Concat(seq(|cells|, i requires 0 <= i < |cells| =>
                                                   r.tablecell(shown(cells[i]), header,
                                                               if i < |leaf.align| then leaf.align[i] else None))));
            Tok(r, One(leaf), rest, link)
            == Some((r.table(row(leaf.header, true),
                             Concat(seq(|leaf.cells|, i requires 0 <= i < |leaf.cells| => row(leaf.cells[i], false)))),
                     rest, link))
  {
    CellsInOrder(r, leaf.header, leaf.align, true, |leaf.header|, link, shown);
    RowsInOrder(r, leaf.cells, leaf.align, |leaf.cells|, link, shown);
    var row := (cells: seq<string>, header: bool) =>
                 r.tablerow(Concat(seq(|cells|, i requires 0 <= i < |cells| =>
                                           r.tablecell(shown(cells[i]), header,
                                                       if i < |leaf.align| then leaf.align[i] else None))));
    assert seq(|leaf.cells|, i requires 0 <= i < |leaf.cells| => row(leaf.cells[i], false))
           == seq(|leaf.cells|, i requires 0 <= i < |leaf.cells| => RowOf(r, leaf.cells[i], leaf.align, shown));
  }

  /** Neighbouring text tokens are merged as the tree's are, and no more than those. */
  lemma {:induction false} MergeIsJoin(body: string, nodes: seq<Node>, rest: seq<Token>)
    requires rest != [] ==> !rest[0].Text?
    ensures var n := TextRun(nodes);
            MergeText(body, Flatten(nodes) + rest)
            == ((if n == 0 then body else body + "\n" + Joined(nodes, n)), Flatten(nodes[n..]) + rest)
    decreases nodes
  {
    var n := TextRun(nodes);
    var stream := Flatten(nodes) + rest;
    if n == 0 {
      assert nodes[0..] == nodes;
      if nodes != [] {
        FirstToken(nodes[0]);
      }
    } else {
      var after := Flatten(nodes[1..]) + rest;
      TextFirst(nodes, rest);
      MergeIsJoin(body + "\n" + nodes[0].text, nodes[1..], rest);
      assert nodes[1..][n - 1..] == nodes[n..];
      if n > 1 {
        assert body + "\n" + nodes[0].text + "\n" + Joined(nodes[1..], n - 1)
               == body + "\n" + (nodes[0].text + "\n" + Joined(nodes[1..], n - 1));
      }
    }
  }

  /** The tokens of a tree that starts with text: the first, and what merging makes of the others. */
  lemma TextHead(nodes: seq<Node>, rest: seq<Token>)
    requires nodes != [] && nodes[0].TextNode?
    requires rest != [] ==> !rest[0].Text?
    ensures var n := TextRun(nodes); var stream := Flatten(nodes) + rest;
            && stream != [] && stream[0] == Text(nodes[0].text)
            && MergeText(nodes[0].text, stream[1..]) == (Joined(nodes, n), Flatten(nodes[n..]) + rest)
  {
    var n := TextRun(nodes);
    var after := Flatten(nodes[1..]) + rest;
    TextFirst(nodes, rest);
    MergeIsJoin(nodes[0].text, nodes[1..], rest);
    assert nodes[1..][n - 1..] == nodes[n..];
  }

  /** The tokens of a tree that starts with another node. */
  lemma NodeHead(nodes: seq<Node>, rest: seq<Token>)
    requires nodes != []
    ensures Flatten(nodes) + rest == FlattenNode(nodes[0]) + (Flatten(nodes[1..]) + rest)
    ensures FlattenNode(nodes[0]) != [] && !IsEnd(FlattenNode(nodes[0])[0])
    ensures FlattenNode(nodes[0])[0].Text? <==> nodes[0].TextNode?
  {
  }

  predicate IsEnd(t: Token) { t.QuoteEnd? || t.ListEnd? || t.ItemEnd? }

  lemma FirstToken(n: Node)
    ensures FlattenNode(n) != [] && (FlattenNode(n)[0].Text? <==> n.TextNode?) && !IsEnd(FlattenNode(n)[0])
  {
  }

  /** A container's children, followed by its end token, are rendered; exactly they are consumed. */
  lemma {:induction false} UntilRenders(r: Renderer, nodes: seq<Node>, end: Token, tight: bool, rest: seq<Token>,
                                        link: bool)
    requires IsEnd(end)
    ensures var shown := Render(r, nodes, tight, link);
            Until(r, end, tight, Flatten(nodes) + ([end] + rest), link) == Some((shown.0, rest, shown.1))
    decreases nodes, 1
  {
    hide MergeText;
    hide FlattenNode;
    hide RenderNode;
    hide RenderLeaf;
    hide Tok;
    hide Joined;
    var after := [end] + rest;
    var stream := Flatten(nodes) + after;
    if nodes == [] {
      assert stream == after && after[1..] == rest;
    } else if nodes[0].TextNode? {
      var n := TextRun(nodes);
      TextHead(nodes, after);
      TextTurn(r, tight, nodes[0].text, stream[1..], link);
      UntilRenders(r, nodes[n..], end, tight, rest, r.inline(Joined(nodes, n), link).1);
    } else {
      NodeHead(nodes, after);
      TokRenders(r, nodes[0], Flatten(nodes[1..]) + after, link);
      UntilRenders(r, nodes[1..], end, tight, rest, RenderNode(r, nodes[0], link).1);
    }
  }

  /** A node's tokens are rendered; exactly they are consumed. */
  lemma {:induction false} TokRenders(r: Renderer, n: Node, rest: seq<Token>, link: bool)
    requires !n.TextNode?
    ensures var stream := FlattenNode(n) + rest; var shown := RenderNode(r, n, link);
            && FlattenNode(n) != []
            && Tok(r, stream[0], stream[1..], link) == Some((shown.0, rest, shown.1))
    decreases n, 0
  {
    var stream := FlattenNode(n) + rest;
    match n
    case LeafNode(leaf) => assert stream[1..] == rest;
    case Quote(kids) =>
      assert stream[1..] == Flatten(kids) + ([QuoteEnd] + rest);
      UntilRenders(r, kids, QuoteEnd, false, rest, link);
    case List(ordered, kids) =>
      assert stream[1..] == Flatten(kids) + ([ListEnd] + rest);
      UntilRenders(r, kids, ListEnd, false, rest, link);
    case Item(loose, kids) =>
      assert stream[1..] == Flatten(kids) + ([ItemEnd] + rest);
      UntilRenders(r, kids, ItemEnd, !loose, rest, link);
  }

  /**
   For every tree, parsing its stream never reads past the end, consumes every token, and
   returns exactly the rendering of the tree.
   */
  lemma {:induction false} ParseRenders(r: Renderer, nodes: seq<Node>, link: bool)
    ensures Document(r, Flatten(nodes), link) == Some(Render(r, nodes, false, link))
    decreases nodes
  {
    hide MergeText;
    hide FlattenNode;
    hide RenderNode;
    hide RenderLeaf;
    if nodes != [] {
      assert Flatten(nodes) + [] == Flatten(nodes) && Flatten(nodes[1..]) + [] == Flatten(nodes[1..]);
      if nodes[0].TextNode? {
        var n := TextRun(nodes);
        TextHead(nodes, []);
        assert Flatten(nodes[n..]) + [] == Flatten(nodes[n..]);
        ParseRenders(r, nodes[n..], r.inline(Joined(nodes, n), link).1);
      } else {
        NodeHead(nodes, []);
        TokRenders(r, nodes[0], Flatten(nodes[1..]), link);
        ParseRenders(r, nodes[1..], RenderNode(r, nodes[0], link).1);
      }
    }
  }

  /** A stream that stops inside a container is read past its end. */
  lemma UnclosedFails(r: Renderer, nodes: seq<Node>, start: Token, link: bool)
    requires start.QuoteStart? || start.ListStart? || start.ItemStart?
    ensures Document(r, [start] + Flatten(nodes), link).None?
  {
    assert ([start] + Flatten(nodes))[1..] == Flatten(nodes);
    UntilMissesEnd(r, nodes, EndOf(start), start.ItemStart? && !start.loose, link);
  }

  lemma {:induction false} UntilMissesEnd(r: Renderer, nodes: seq<Node>, end: Token, tight: bool, link: bool)
    requires IsEnd(end)
    ensures Until(r, end, tight, Flatten(nodes), link).None?
    decreases nodes
  {
    hide MergeText;
    hide FlattenNode;
    hide RenderNode;
    hide Tok;
    hide Joined;
    if nodes != [] {
      assert Flatten(nodes) + [] == Flatten(nodes) && Flatten(nodes[1..]) + [] == Flatten(nodes[1..]);
      if nodes[0].TextNode? {
        var n := TextRun(nodes);
        TextHead(nodes, []);
        TextTurn(r, tight, nodes[0].text, Flatten(nodes)[1..], link);
        assert Flatten(nodes[n..]) + [] == Flatten(nodes[n..]);
        UntilMissesEnd(r, nodes[n..], end, tight, r.inline(Joined(nodes, n), link).1);
      } else {
        NodeHead(nodes, []);
        TokRenders(r, nodes[0], Flatten(nodes[1..]), link);
        UntilMissesEnd(r, nodes[1..], end, tight, RenderNode(r, nodes[0], link).1);
      }
    }
  }

  // ---------- The machine as an object ----------

  function Reversed<T>(s: seq<T>): seq<T> {
    if s == [] then [] else [s[|s| - 1]] + Reversed(s[..|s| - 1])
  }

  lemma {:induction false} ReversedMore<T>(x: T, s: seq<T>)
    ensures Reversed([x] + s) == Reversed(s) + [x]
  {
    if s == [] {
      assert [x] + s == [x] && [x][..0] == [];
    } else {
      assert ([x] + s)[..|s|] == [x] + s[..|s| - 1];
      ReversedMore(x, s[..|s| - 1]);
    }
  }

  lemma {:induction false} ReversedTwice<T>(s: seq<T>)
    ensures Reversed(Reversed(s)) == s
  {
    if s != [] {
      var last, front := s[|s| - 1], s[..|s| - 1];
      ReversedTwice(front);
      ReversedMore(last, Reversed(front));
    }
  }

  /** `body` has been rendered before `p`. */
  function After(body: string, p: Parsed): Parsed {
    if p.None? then None else Some((body + p.value.0, p.value.1, p.value.2))
  }

  lemma AfterNothing(p: Parsed)
    ensures After("", p) == p
  {
    if p.Some? {
      assert "" + p.value.0 == p.value.0;
    }
  }

  lemma AfterNone(body: string)
    ensures After(body, None) == None
  {
  }

  lemma UntilStep(r: Renderer, end: Token, tight: bool, stream: seq<Token>, link: bool)
    requires stream != [] && stream[0] != end
    ensures var turn := Turn(r, tight, stream[0], stream[1..], link);
            Until(r, end, tight, stream, link)
            == if turn.None? then None
               else After(turn.value.0, Until(r, end, tight, turn.value.1, turn.value.2))
  {
  }

  lemma UntilEnds(r: Renderer, end: Token, tight: bool, stream: seq<Token>, link: bool, body: string)
    requires stream == [] || stream[0] == end
    ensures After(body, Until(r, end, tight, stream, link))
            == if stream == [] then None else Some((body, stream[1..], link))
  {
    assert body + "" == body;
  }

  class Parser {
    const renderer: Renderer
    var tokens: seq<Token>        // the last one is next
    var token: Option<Token>
    var inLink: bool

    constructor (renderer: Renderer)
      ensures this.renderer == renderer && !inLink
    {
      this.renderer := renderer;
      tokens, token, inLink := [], None, false;
    }

    /** What is still to be read. */
    ghost function Stream(): seq<Token>
      reads this
    {
      Reversed(tokens)
    }

    /** The object is where the machine is after `p`; it throws where the machine reads past the end. */
    ghost predicate Reaches(p: Parsed, r: Try<string>)
      reads this
    {
      if p.None? then r.Throws? else r == Ok(p.value.0) && Stream() == p.value.1 && inLink == p.value.2
    }

    method Next() returns (some: bool)
      modifies this`tokens, this`token
      ensures some <==> old(Stream()) != []
      ensures some ==>
                token == Some(old(Stream())[0]) && Stream() == old(Stream())[1..] && |tokens| == |old(tokens)| - 1
      ensures !some ==> token == None && tokens == old(tokens)
    {
      some := tokens != [];
      if some {
        token := Some(tokens[|tokens| - 1]);
        tokens := tokens[..|tokens| - 1];
      } else {
        token := None;
      }
    }

    method Peek() returns (next: Option<Token>)
      ensures next == if Stream() == [] then None else Some(Stream()[0])
    {
      next := if tokens == [] then None else Some(tokens[|tokens| - 1]);
    }

    method Inline(text: string) returns (out: string)
      modifies this`inLink
      ensures (out, inLink) == renderer.inline(text, old(inLink))
    {
      var shown := renderer.inline(text, inLink);
      out, inLink := shown.0, shown.1;
    }

    /** The popped text token, with those that follow. */
    method ParseText() returns (out: string)
      requires token.Some? && token.value.Text?
      modifies this
      ensures var merged := MergeText(old(token).value.text, old(Stream()));
              Stream() == merged.1 && (out, inLink) == renderer.inline(merged.0, old(inLink))
      ensures |tokens| <= |old(tokens)|
    {
      var body := token.value.text;
      var next := Peek();
      while next.Some? && next.value.Text?
        invariant MergeText(body, Stream()) == MergeText(old(token).value.text, old(Stream()))
        invariant next == if Stream() == [] then None else Some(Stream()[0])
        invariant inLink == old(inLink) && |tokens| <= |old(tokens)|
        decreases |tokens|
      {
        var _ := Next();
        body := body + "\n" + token.value.text;
        next := Peek();
      }
      out := Inline(body);
    }

    method TableCells(row: seq<string>, align: seq<Option<string>>, header: bool) returns (out: string)
      modifies this`inLink
      ensures (out, inLink) == Cells(renderer, row, align, header, |row|, old(inLink))
    {
      out := "";
      for j := 0 to |row|
        invariant (out, inLink) == Cells(renderer, row, align, header, j, old(inLink))
      {
        var text := Inline(row[j]);
        out := out + renderer.tablecell(text, header, if j < |align| then align[j] else None);
      }
    }

    method ParseLeaf(leaf: Leaf) returns (out: string)
      modifies this`inLink
      ensures (out, inLink) == RenderLeaf(renderer, leaf, old(inLink))
    {
      match leaf
      case Space => out := "";
      case Hr => out := renderer.hr;
      case Heading(depth, text) =>
        var t := Inline(text);
        out := renderer.heading(t, depth, text);
      case Code(text, lang, escaped) => out := renderer.code(text, lang, escaped);
      case Table(header, align, cells) =>
        var cell := TableCells(header, align, true);
        var top := renderer.tablerow(cell);
        ghost var before := inLink;
        var body := "";
        for i := 0 to |cells|
          invariant (body, inLink) == Rows(renderer, cells, align, i, before)
        {
          cell := TableCells(cells[i], align, false);
          body := body + renderer.tablerow(cell);
        }
        out := renderer.table(top, body);
      case Html(pre, text) =>
        var t := text;
        if !pre && !renderer.pedantic {
          t := Inline(text);
        }
        out := renderer.html(t);
      case Paragraph(text) =>
        var t := Inline(text);
        out := renderer.paragraph(t);
    }

    /** The popped token, with what belongs to it. */
    method ParseToken() returns (r: Try<string>)
      requires token.Some?
      modifies this
      ensures Reaches(Tok(renderer, old(token).value, old(Stream()), old(inLink)), r)
      ensures |tokens| <= |old(tokens)|
      decreases |tokens|, 1
    {
      hide RenderLeaf;
      hide MergeText;
      hide Until;
      match token.value
      case One(leaf) =>
        var out := ParseLeaf(leaf);
        return Ok(out);
      case Text(_) =>
        var text := ParseText();
        return Ok(renderer.paragraph(text));
      case QuoteStart =>
        var body :- ParseBody(QuoteEnd, false);
        return Ok(renderer.blockquote(body));
      case ListStart(ordered) =>
        var body :- ParseBody(ListEnd, false);
        return Ok(renderer.list(body, ordered));
      case ItemStart(loose) =>
        var body :- ParseBody(ItemEnd, !loose);
        return Ok(renderer.listitem(body));
      case _ =>
        return Ok("undefined");
    }

    /** The popped token inside a container; in a tight item, text is no paragraph. */
    method ParseTurn(tight: bool) returns (r: Try<string>)
      requires token.Some?
      modifies this
      ensures Reaches(Turn(renderer, tight, old(token).value, old(Stream()), old(inLink)), r)
      ensures |tokens| <= |old(tokens)|
      decreases |tokens|, 2
    {
      hide Tok;
      hide MergeText;
      if tight && token.value.Text? {
        var out := ParseText();
        return Ok(out);
      }
      r := ParseToken();
    }

    /** The loop of a container: everything up to its end token. */
    method ParseBody(end: Token, tight: bool) returns (r: Try<string>)
      modifies this
      ensures Reaches(Until(renderer, end, tight, old(Stream()), old(inLink)), r)
      ensures |tokens| <= |old(tokens)|
      decreases |tokens|, 0
    {
      hide Turn;
      hide Until;
      hide After;
      var body := "";
      var some := Next();
      ghost var goal := Until(renderer, end, tight, old(Stream()), old(inLink));
      ghost var stream := old(Stream());
      AfterNothing(goal);
      while some && token != Some(end)
        invariant goal == After(body, Until(renderer, end, tight, stream, inLink))
        invariant some <==> stream != []
        invariant some ==> token == Some(stream[0]) && Stream() == stream[1..] && |tokens| < |old(tokens)|
        invariant |tokens| <= |old(tokens)|
        decreases |stream|
      {
        UntilStep(renderer, end, tight, stream, inLink);
        AfterNone(body);
        var out :- ParseTurn(tight);
        ghost var before := body;
        body := body + out;
        AfterTwice(before, out, Until(renderer, end, tight, Stream(), inLink));
        stream := Stream();
        some := Next();
      }
      UntilEnds(renderer, end, tight, stream, inLink, body);
      return if some then Ok(body) else Throws;
    }

    lemma AfterTwice(a: string, b: string, p: Parsed)
      ensures After(a, After(b, p)) == After(a + b, p)
    {
      if p.Some? {
        assert a + b + p.value.0 == a + (b + p.value.0);
      }
    }

    /** Renders a document. */
    method Parse(src: seq<Token>) returns (r: Try<string>)
      modifies this
      ensures var p := Document(renderer, src, old(inLink));
              if p.None? then r.Throws? else r == Ok(p.value.0) && inLink == p.value.1
    {
      hide Tok;
      tokens := Reversed(src);
      ReversedTwice(src);
      var out := "";
      var some := Next();
      ghost var stream := src;
      ghost var goal := Document(renderer, src, inLink);
      assert goal.Some? ==> out + goal.value.0 == goal.value.0;
      while some
        invariant var rest := Document(renderer, stream, inLink);
                  goal == if rest.None? then None else Some((out + rest.value.0, rest.value.1))
        invariant some <==> stream != []
        invariant some ==> token == Some(stream[0]) && Stream() == stream[1..]
        decreases |stream|
      {
        ghost var before := out;
        var shown :- ParseToken();
        out := out + shown;
        stream := Stream();
        ghost var rest := Document(renderer, stream, inLink);
        if rest.Some? {
          assert before + (shown + rest.value.0) == out + rest.value.0;
        }
        some := Next();
      }
      assert out + "" == out;
      return Ok(out);
    }
  }
}
