/**
 Script templates (deploy-agent/deployd/staging/transformer.py:51-66): placeholders are
 found once, in the original text, but replaced one after another, each everywhere in the
 text that the replacements before it have left. When that is a simultaneous substitution.
 */
module Transformer {
  import opened Wrappers

  // ---------- Placeholders ----------

  const MARKERS := ["${TELETRAAN_", "{$TELETRAAN_"]
  const MARK := 12    // the length of either marker

  predicate Special(c: char) { c == '$' || c == '{' || c == '}' }

  predicate IsKey(c: char) {
    'a' <= c <= 'z' || 'A' <= c <= 'Z' || '0' <= c <= '9' || c == '-' || c == '_'
  }

  predicate Starts(s: string) { MARKERS[0] <= s || MARKERS[1] <= s }

  /** How many characters of a key the text starts with. */
  function KeyRun(s: string): (n: nat)
    ensures n <= |s| && (n < |s| ==> !IsKey(s[n]))
    ensures forall i :: 0 <= i < n ==> IsKey(s[i])
  {
    if s != "" && IsKey(s[0]) then 1 + KeyRun(s[1..]) else 0
  }

  /** Where the first closing brace of the line is. */
  function Brace(s: string): (i: Option<nat>)
    ensures i.Some? ==>
              && i.value < |s| && s[i.value] == '}'
              && forall j :: 0 <= j < i.value ==> s[j] != '}' && s[j] != '\n'
  {
    if s == "" || s[0] == '\n' then None
    else if s[0] == '}' then Some(0)
    else if Brace(s[1..]).Some? then Some(1 + Brace(s[1..]).value)
    else None
  }

  /** The length of the placeholder at the start of the text, if there is one. */
  function Match(s: string): (n: Option<nat>)
    ensures n.Some? ==> MARK + 2 <= n.value <= |s|
  {
    if !Starts(s) || KeyRun(s[MARK..]) == 0 || Brace(s[MARK..]).None? then None
    else
      assert IsKey(s[MARK..][0]);
      Some(MARK + Brace(s[MARK..]).value + 1)
  }

  function KeyOf(hole: string): string
    requires MARK <= |hole|
  {
    hole[MARK..][..KeyRun(hole[MARK..])]
  }

  /** What stands between the colon after the key and the brace; without a colon there is no default. */
  function DefaultOf(hole: string): Option<string>
    requires MARK < |hole|
  {
    var rest := hole[MARK..][KeyRun(hole[MARK..])..];
    if rest != "" && rest[0] == ':' && |rest| > 1 then Some(rest[1..|rest| - 1]) else None
  }

  function Resolve(dictionary: map<string, string>, hole: string): Option<string>
    requires MARK < |hole|
  {
    if KeyOf(hole) in dictionary then Some(dictionary[KeyOf(hole)]) else DefaultOf(hole)
  }

  // ---------- The text in pieces ----------

  datatype Piece = Gap(text: string) | Hole(text: string) | Filled(text: string)

  function Text(ps: seq<Piece>): string {
    if ps == [] then "" else ps[0].text + Text(ps[1..])
  }

  /** Gap, placeholder, gap, ..., gap: what a search from left to right finds. */
  function Pieces(s: string): (ps: seq<Piece>)
    ensures ps != [] && ps[0].Gap?
    ensures forall i :: 0 <= i < |ps| && ps[i].Hole? ==> MARK + 2 <= |ps[i].text|
    decreases |s|
  {
    if s == "" then [Gap("")]
    else if Match(s).Some? then [Gap(""), Hole(s[..Match(s).value])] + Pieces(s[Match(s).value..])
    else
      var rest := Pieces(s[1..]);
      [Gap(s[..1] + rest[0].text)] + rest[1..]
  }

  lemma {:induction false} PiecesAreText(s: string)
    ensures Text(Pieces(s)) == s
    decreases |s|
  {
    hide Match;
    hide Text;
    if s == "" {
      assert [Gap("")] + [] == [Gap("")];
      TextCons(Gap(""), []);
    } else if Match(s).Some? {
      var n := Match(s).value;
      var rest := Pieces(s[n..]);
      PiecesAreText(s[n..]);
      assert Pieces(s) == [Gap("")] + ([Hole(s[..n])] + rest);
      TextCons(Gap(""), [Hole(s[..n])] + rest);
      TextCons(Hole(s[..n]), rest);
      assert s[..n] + s[n..] == s;
    } else {
      var rest := Pieces(s[1..]);
      PiecesAreText(s[1..]);
      assert rest == [rest[0]] + rest[1..];
      TextCons(rest[0], rest[1..]);
      TextCons(Gap(s[..1] + rest[0].text), rest[1..]);
      assert s[..1] + rest[0].text + Text(rest[1..]) == s[..1] + (rest[0].text + Text(rest[1..]));
      assert s[..1] + s[1..] == s;
    }
  }

  lemma TextCons(p: Piece, ps: seq<Piece>)
    ensures Text([p] + ps) == p.text + Text(ps)
    ensures Text([]) == ""
  {
    assert ([p] + ps)[1..] == ps;
  }

  /** Each placeholder filled in where it stands; one that cannot be resolved stays. */
  function Fill(dictionary: map<string, string>, p: Piece): Piece
    requires p.Hole? ==> MARK < |p.text|
  {
    if p.Hole? && Resolve(dictionary, p.text).Some? then Filled(Resolve(dictionary, p.text).value) else p
  }

  function FillAll(dictionary: map<string, string>, ps: seq<Piece>): (qs: seq<Piece>)
    requires forall i :: 0 <= i < |ps| && ps[i].Hole? ==> MARK < |ps[i].text|
    ensures |qs| == |ps| && forall i :: 0 <= i < |ps| ==> qs[i] == Fill(dictionary, ps[i])
  {
    if ps == [] then [] else [Fill(dictionary, ps[0])] + FillAll(dictionary, ps[1..])
  }

  function Simultaneous(dictionary: map<string, string>, s: string): string {
    Text(FillAll(dictionary, Pieces(s)))
  }

  // ---------- Replacing everywhere ----------

  /** Python's `str.replace`. */
  function Replace(s: string, p: string, v: string): string
    requires p != ""
    decreases |s|
  {
    if s == "" then ""
    else if p <= s then v + Replace(s[|p|..], p, v)
    else s[..1] + Replace(s[1..], p, v)
  }

  /** `p` starts nowhere in the first `|a|` characters of `a + b`. */
  predicate Absent(p: string, a: string, b: string) {
    forall j :: 0 <= j < |a| ==> !(p <= a[j..] + b)
  }

  lemma {:induction false} ReplaceSkips(a: string, b: string, p: string, v: string)
    requires p != "" && Absent(p, a, b)
    ensures Replace(a + b, p, v) == a + Replace(b, p, v)
    decreases a
  {
    if a == "" {
      assert a + b == b;
    } else {
      assert a[0..] == a;
      forall j | 0 <= j < |a| - 1
        ensures !(p <= a[1..][j..] + b)
      {
        assert a[1..][j..] == a[j + 1..];
      }
      ReplaceSkips(a[1..], b, p, v);
      assert (a + b)[1..] == a[1..] + b && (a + b)[..1] == a[..1];
      assert a[..1] + (a[1..] + Replace(b, p, v)) == a + Replace(b, p, v);
    }
  }

  // ---------- Where a placeholder can stand ----------

  /** A placeholder without special characters inside. */
  predicate IsHole(s: string) {
    && MARK + 2 <= |s| && Starts(s) && IsKey(s[MARK]) && s[|s| - 1] == '}'
    && forall i :: 2 <= i < |s| - 1 ==> !Special(s[i]) && s[i] != '\n'
  }

  predicate Plain(s: string) { forall i :: 0 <= i < |s| ==> !Special(s[i]) }

  predicate PartOfMarker(s: string) { s <= MARKERS[0] || s <= MARKERS[1] }

  /** A placeholder could start here: a marker, a key, and no end of line before the brace or the end. */
  predicate Open(s: string) {
    |s| > MARK && Starts(s) && IsKey(s[MARK]) && (Brace(s[MARK..]).Some? || Endless(s[MARK..]))
  }

  predicate Endless(s: string) { forall i :: 0 <= i < |s| ==> s[i] != '}' && s[i] != '\n' }

  predicate Closed(s: string) { |s| > MARK && Starts(s) && IsKey(s[MARK]) && Brace(s[MARK..]).Some? }

  /** No placeholder starts in a gap, whatever piece without special characters is put behind it. */
  predicate Quiet(gap: string, last: bool) {
    forall j :: 0 <= j < |gap| ==>
                  !Closed(gap[j..]) && (last || (!Open(gap[j..]) && !PartOfMarker(gap[j..])))
  }

  predicate Tidy(ps: seq<Piece>) {
    forall i :: 0 <= i < |ps| ==>
                  match ps[i]
                  case Gap(text) => Quiet(text, i == |ps| - 1)
                  case Hole(text) => IsHole(text)
                  case Filled(text) => Plain(text)
  }

  lemma AbsentFromGap(p: string, gap: string, after: string)
    requires IsHole(p) && Quiet(gap, after == "")
    ensures Absent(p, gap, after)
  {
    forall j | 0 <= j < |gap|
      ensures !(p <= gap[j..] + after)
    {
      OccurrenceIsLoud(p, gap[j..], after);
    }
  }

  /** If a placeholder starts at the start of `t`, then `t` is not quiet. */
  lemma OccurrenceIsLoud(p: string, t: string, after: string)
    requires IsHole(p) && t != ""
    ensures p <= t + after ==> Closed(t) || (after != "" && (Open(t) || PartOfMarker(t)))
  {
    if p <= t + after {
      if |p| <= |t| {
        assert p <= t;
        HoleIsClosed(p, t);
      } else {
        assert t == p[..|t|];
        if |t| > MARK {
          PartOfHoleIsOpen(p, |t|);
        }
      }
    }
  }

  lemma PartOfHoleIsOpen(p: string, n: nat)
    requires IsHole(p) && MARK < n < |p|
    ensures Open(p[..n])
  {
    var t := p[..n];
    forall i | 0 <= i < |t[MARK..]|
      ensures t[MARK..][i] != '}' && t[MARK..][i] != '\n'
    {
      assert t[MARK..][i] == p[MARK + i];
    }
  }

  lemma {:induction false} BraceFound(s: string, n: nat)
    requires n < |s| && s[n] == '}' && forall i :: 0 <= i < n ==> s[i] != '\n'
    ensures Brace(s).Some?
    decreases n
  {
    if n > 0 && s[0] != '}' {
      BraceFound(s[1..], n - 1);
    }
  }

  lemma HoleIsClosed(p: string, t: string)
    requires IsHole(p) && p <= t
    ensures Closed(t)
  {
    assert t[MARK] == p[MARK];
    forall i | 0 <= i < |p| - 1 - MARK
      ensures t[MARK..][i] != '\n'
    {
      assert t[MARK..][i] == p[MARK + i];
    }
    assert t[MARK..][|p| - 1 - MARK] == '}';
    BraceFound(t[MARK..], |p| - 1 - MARK);
  }

  lemma FirstIsSpecial(p: string)
    requires IsHole(p)
    ensures (p[0] == '$' || p[0] == '{') && Special(p[1]) && p[1] != '}' && p[2] == 'T'
  {
    assert (p[0] == MARKERS[0][0] && p[1] == MARKERS[0][1] && p[2] == MARKERS[0][2])
           || (p[0] == MARKERS[1][0] && p[1] == MARKERS[1][1] && p[2] == MARKERS[1][2]);
  }

  lemma AbsentFromPlain(p: string, text: string, after: string)
    requires IsHole(p) && Plain(text)
    ensures Absent(p, text, after)
  {
    FirstIsSpecial(p);
    forall j | 0 <= j < |text|
      ensures !(p <= text[j..] + after)
    {
      assert (text[j..] + after)[0] == text[j];
    }
  }

  /** A placeholder occurs in another one only if they are the same. */
  lemma AbsentFromOther(p: string, hole: string, after: string)
    requires IsHole(p) && IsHole(hole) && p != hole
    ensures Absent(p, hole, after)
  {
    FirstIsSpecial(p);
    FirstIsSpecial(hole);
    forall j | 0 <= j < |hole|
      ensures !(p <= hole[j..] + after)
    {
      var t := hole[j..] + after;
      assert t[0] == hole[j] && (j == 1 ==> t[1] == hole[2]);
      if j == 0 {
        assert hole[0..] == hole;
        if p <= t {
          SameBrace(p, hole, after);
        }
      }
    }
  }

  lemma SameBrace(p: string, hole: string, after: string)
    requires IsHole(p) && IsHole(hole) && p <= hole + after
    ensures p == hole
  {
    var last := if |p| < |hole| then |p| - 1 else |hole| - 1;
    assert (hole + after)[last] == hole[last] == p[last];
    if |p| == |hole| {
      assert p == (hole + after)[..|p|] == hole;
    }
  }

  // ---------- One replacement ----------

  function FillText(hole: string, v: string, p: Piece): Piece {
    if p == Hole(hole) then Filled(v) else p
  }

  function FillTexts(hole: string, v: string, ps: seq<Piece>): (qs: seq<Piece>)
    ensures |qs| == |ps| && forall i :: 0 <= i < |ps| ==> qs[i] == FillText(hole, v, ps[i])
  {
    if ps == [] then [] else [FillText(hole, v, ps[0])] + FillTexts(hole, v, ps[1..])
  }

  lemma TidyRest(ps: seq<Piece>)
    requires Tidy(ps) && ps != []
    ensures Tidy(ps[1..])
  {
    forall i | 0 <= i < |ps| - 1
      ensures match ps[1..][i]
              case Gap(text) => Quiet(text, i == |ps| - 2)
              case Hole(text) => IsHole(text)
              case Filled(text) => Plain(text)
    {
      assert ps[1..][i] == ps[i + 1];
    }
  }

  lemma TidyLast(ps: seq<Piece>)
    requires Tidy(ps) && ps != [] && ps[0].Gap?
    ensures |ps| > 1 ==> Quiet(ps[0].text, false)
    ensures |ps| == 1 ==> Text(ps[1..]) == "" && Quiet(ps[0].text, true)
  {
  }

  lemma QuietAnyway(gap: string)
    requires Quiet(gap, false)
    ensures Quiet(gap, true)
  {
  }

  /** Replacing a placeholder everywhere in the text replaces exactly the placeholders with that text. */
  lemma {:induction false} ReplaceFills(ps: seq<Piece>, hole: string, v: string)
    requires Tidy(ps) && IsHole(hole)
    ensures Replace(Text(ps), hole, v) == Text(FillTexts(hole, v, ps))
    decreases ps
  {
    if ps != [] {
      var first, after := ps[0], Text(ps[1..]);
      TidyRest(ps);
      ReplaceFills(ps[1..], hole, v);
      if first == Hole(hole) {
        assert hole <= hole + after && (hole + after)[|hole|..] == after;
      } else {
        match first {
          case Gap(text) =>
            TidyLast(ps);
            if |ps| > 1 && after == "" {
              QuietAnyway(text);
            }
            AbsentFromGap(hole, text, after);
          case Hole(text) => AbsentFromOther(hole, text, after);
          case Filled(text) => AbsentFromPlain(hole, text, after);
        }
        ReplaceSkips(first.text, after, hole, v);
      }
    }
  }

  lemma FillKeepsTidy(ps: seq<Piece>, hole: string, v: string)
    requires Tidy(ps) && Plain(v)
    ensures Tidy(FillTexts(hole, v, ps))
  {
    var qs := FillTexts(hole, v, ps);
    forall i | 0 <= i < |qs|
      ensures match qs[i]
              case Gap(text) => Quiet(text, i == |qs| - 1)
              case Hole(text) => IsHole(text)
              case Filled(text) => Plain(text)
    {
      assert qs[i] == FillText(hole, v, ps[i]);
    }
  }

  // ---------- The original text is tidy ----------

  /** What is asked of a template: see `Tidy`; the placeholders found have no special characters inside. */
  predicate CleanTemplate(ps: seq<Piece>) {
    forall i :: 0 <= i < |ps| ==>
                  && (ps[i].Hole? ==> IsHole(ps[i].text))
                  && (ps[i].Gap? && i < |ps| - 1 ==>
                        forall j :: 0 <= j < |ps[i].text| ==> !PartOfMarker(ps[i].text[j..]))
  }

  lemma {:induction false} BracePrefix(s: string, after: string)
    ensures Brace(s).Some? ==> Brace(s + after) == Brace(s)
    ensures Endless(s) && Brace(after).Some? ==> Brace(s + after).Some?
    decreases s
  {
    if s == "" {
      assert s + after == after;
    } else {
      assert (s + after)[1..] == s[1..] + after;
      BracePrefix(s[1..], after);
    }
  }

  /** A hole ends its line's first brace. */
  lemma HoleHasBrace(s: string)
    requires Match(s).Some?
    ensures Brace(s[..Match(s).value]).Some?
  {
    var n := Match(s).value;
    var b := Brace(s[MARK..]).value;
    forall i | 0 <= i < n - 1
      ensures s[..n][i] != '\n'
    {
      if i >= MARK {
        assert s[..n][i] == s[MARK..][i - MARK];
      } else {
        assert s[i] == MARKERS[0][i] || s[i] == MARKERS[1][i];
      }
    }
    assert s[..n][n - 1] == s[MARK..][b] == '}';
    BraceFound(s[..n], n - 1);
  }

  lemma KeyRunStarts(s: string)
    ensures KeyRun(s) > 0 <==> s != "" && IsKey(s[0])
  {
  }

  /** Where no placeholder starts in the whole text, none can start in the gap. */
  lemma NoMatchIsQuiet(t: string, after: string, last: bool)
    requires Match(t + after).None? && t != ""
    requires !last ==> Brace(after).Some?
    ensures !Closed(t) && (last || !Open(t))
  {
    if |t| > MARK && Starts(t) && IsKey(t[MARK]) {
      var s := t + after;
      assert s[MARK..] == t[MARK..] + after && s[MARK..][0] == t[MARK];
      assert Starts(s);
      KeyRunStarts(s[MARK..]);
      BracePrefix(t[MARK..], after);
    }
  }

  lemma {:induction false} PiecesAreQuiet(s: string)
    ensures var ps := Pieces(s);
            forall j :: 0 <= j < |ps[0].text| ==>
                          !Closed(ps[0].text[j..]) && (|ps| == 1 || !Open(ps[0].text[j..]))
    ensures |Pieces(s)| > 1 ==> Brace(Text(Pieces(s)[1..])).Some?
    decreases |s|
  {
    if s == "" {
    } else if Match(s).Some? {
      var n := Match(s).value;
      var rest := Pieces(s[n..]);
      assert Pieces(s)[1..] == [Hole(s[..n])] + rest;
      TextCons(Hole(s[..n]), rest);
      HoleHasBrace(s);
      BracePrefix(s[..n], Text(rest));
    } else {
      var rest := Pieces(s[1..]);
      PiecesAreQuiet(s[1..]);
      PiecesAreText(s);
      var gap, after := s[..1] + rest[0].text, Text(rest[1..]);
      assert Pieces(s)[1..] == rest[1..];
      assert Pieces(s) == [Gap(gap)] + rest[1..];
      TextCons(Gap(gap), rest[1..]);
      forall j | 0 <= j < |gap|
        ensures !Closed(gap[j..]) && (|rest| == 1 || !Open(gap[j..]))
      {
        if j == 0 {
          assert gap[0..] == gap && gap + after == s;
          NoMatchIsQuiet(gap, after, |rest| == 1);
        } else {
          assert gap[j..] == rest[0].text[j - 1..];
        }
      }
    }
  }

  predicate TidyPiece(p: Piece, last: bool) {
    match p
    case Gap(text) => Quiet(text, last)
    case Hole(text) => IsHole(text)
    case Filled(text) => Plain(text)
  }

  lemma TidyCons(p: Piece, ps: seq<Piece>)
    requires Tidy(ps) && TidyPiece(p, ps == [])
    ensures Tidy([p] + ps)
  {
    forall i | 0 <= i < |ps| + 1
      ensures TidyPiece(([p] + ps)[i], i == |ps|)
    {
      if i > 0 {
        assert ([p] + ps)[i] == ps[i - 1];
      }
    }
  }

  lemma CleanRest(ps: seq<Piece>, n: nat)
    requires CleanTemplate(ps) && n <= |ps|
    ensures CleanTemplate(ps[n..])
  {
    forall i | 0 <= i < |ps| - n
      ensures ps[n..][i] == ps[i + n]
    {
    }
  }

  /** A clean template is tidy: nothing is lost by looking for placeholders only once. */
  lemma {:induction false} CleanIsTidy(s: string)
    requires CleanTemplate(Pieces(s))
    ensures Tidy(Pieces(s))
    decreases |s|
  {
    hide Match;
    hide Tidy;
    hide CleanTemplate;
    hide Open;
    hide Closed;
    var ps := Pieces(s);
    if s == "" {
      NoPieces();
      TidyCons(Gap(""), []);
      assert [Gap("")] + [] == [Gap("")];
    } else if Match(s).Some? {
      var n := Match(s).value;
      var rest := Pieces(s[n..]);
      assert ps[2..] == rest;
      CleanRest(ps, 2);
      CleanIsTidy(s[n..]);
      CleanHole(ps, 1);
      TidyCons(Hole(s[..n]), rest);
      TidyCons(Gap(""), [Hole(s[..n])] + rest);
      assert ps == [Gap("")] + ([Hole(s[..n])] + rest);
    } else {
      var rest := Pieces(s[1..]);
      CleanShorter(s[..1], rest);
      CleanIsTidy(s[1..]);
      TidyRest(rest);
      PiecesAreQuiet(s);
      CleanGap(ps);
      TidyCons(ps[0], rest[1..]);
      assert ps == [ps[0]] + rest[1..];
    }
  }

  lemma NoPieces()
    ensures Tidy([])
  {
  }

  lemma CleanHole(ps: seq<Piece>, i: nat)
    requires CleanTemplate(ps) && i < |ps| && ps[i].Hole?
    ensures IsHole(ps[i].text)
  {
  }

  lemma CleanGap(ps: seq<Piece>)
    requires CleanTemplate(ps) && ps != [] && ps[0].Gap?
    requires forall j :: 0 <= j < |ps[0].text| ==>
                           !Closed(ps[0].text[j..]) && (|ps| == 1 || !Open(ps[0].text[j..]))
    ensures Quiet(ps[0].text, |ps| == 1)
  {
  }

  lemma CleanShorter(c: string, rest: seq<Piece>)
    requires rest != [] && rest[0].Gap? && CleanTemplate([Gap(c + rest[0].text)] + rest[1..])
    ensures CleanTemplate(rest)
  {
    var ps := [Gap(c + rest[0].text)] + rest[1..];
    forall i | 0 <= i < |rest|
      ensures rest[i].Hole? ==> IsHole(rest[i].text)
      ensures rest[i].Gap? && i < |rest| - 1 ==>
                forall j :: 0 <= j < |rest[i].text| ==> !PartOfMarker(rest[i].text[j..])
    {
      if i > 0 {
        assert rest[i] == ps[i];
      } else if |rest| > 1 {
        forall j | 0 <= j < |rest[0].text|
          ensures !PartOfMarker(rest[0].text[j..])
        {
          assert ps[0].text[j + |c|..] == rest[0].text[j..];
        }
      }
    }
  }

  // ---------- One after another ----------

  /** The placeholders of a text, in order. */
  function Holes(ps: seq<Piece>): (hs: seq<string>)
    ensures forall h :: h in hs ==> exists i :: 0 <= i < |ps| && ps[i] == Hole(h)
  {
    if ps == [] then []
    else
      assert forall i :: 0 <= i < |ps| - 1 ==> ps[1..][i] == ps[i + 1];
      (if ps[0].Hole? then [ps[0].text] else []) + Holes(ps[1..])
  }

  lemma HolesAreLong(s: string)
    ensures forall h :: h in Holes(Pieces(s)) ==> MARK + 2 <= |h|
  {
    hide Holes;
    hide Pieces;
  }

  /** The text after the first `n` placeholders found were replaced one after another. */
  function Sequential(dictionary: map<string, string>, s: string, hs: seq<string>, n: nat): string
    requires n <= |hs| && forall h :: h in hs ==> MARK + 2 <= |h|
    decreases n
  {
    if n == 0 then s
    else
      var before := Sequential(dictionary, s, hs, n - 1);
      var v := Resolve(dictionary, hs[n - 1]);
      if v.Some? then Replace(before, hs[n - 1], v.value) else before
  }

  /** The pieces after the first `n` placeholders were replaced. */
  function FilledUpTo(dictionary: map<string, string>, ps: seq<Piece>, hs: seq<string>, n: nat): seq<Piece>
    requires n <= |hs| && forall h :: h in hs ==> MARK + 2 <= |h|
    decreases n
  {
    if n == 0 then ps
    else
      var before := FilledUpTo(dictionary, ps, hs, n - 1);
      var v := Resolve(dictionary, hs[n - 1]);
      if v.Some? then FillTexts(hs[n - 1], v.value, before) else before
  }

  predicate PlainValues(dictionary: map<string, string>) {
    forall k :: k in dictionary ==> Plain(dictionary[k])
  }

  lemma ResolvesPlain(dictionary: map<string, string>, hole: string)
    requires PlainValues(dictionary) && IsHole(hole) && Resolve(dictionary, hole).Some?
    ensures Plain(Resolve(dictionary, hole).value)
  {
    if KeyOf(hole) !in dictionary {
      var k := KeyRun(hole[MARK..]);
      var rest := hole[MARK..][k..];
      var v := rest[1..|rest| - 1];
      assert |rest| == |hole| - MARK - k;
      forall i | 0 <= i < |v|
        ensures !Special(v[i])
      {
        assert v[i] == hole[MARK + k + 1 + i];
      }
    }
  }

  lemma {:induction false} SequentialFills(dictionary: map<string, string>, s: string, ps: seq<Piece>,
                                           hs: seq<string>, n: nat)
    requires PlainValues(dictionary) && Tidy(ps) && Text(ps) == s
    requires n <= |hs| && forall h :: h in hs ==> MARK + 2 <= |h| && IsHole(h)
    ensures Tidy(FilledUpTo(dictionary, ps, hs, n))
    ensures Sequential(dictionary, s, hs, n) == Text(FilledUpTo(dictionary, ps, hs, n))
    decreases n
  {
    hide Tidy;
    hide Text;
    hide Replace;
    hide Resolve;
    if n > 0 {
      SequentialFills(dictionary, s, ps, hs, n - 1);
      var hole := hs[n - 1];
      assert hole in hs;
      if Resolve(dictionary, hole).Some? {
        ResolvesPlain(dictionary, hole);
        var before := FilledUpTo(dictionary, ps, hs, n - 1);
        ReplaceFills(before, hole, Resolve(dictionary, hole).value);
        FillKeepsTidy(before, hole, Resolve(dictionary, hole).value);
      }
    }
  }

  /** Each piece is filled once its placeholder has had its turn, and stays so. */
  lemma {:induction false} FilledAt(dictionary: map<string, string>, ps: seq<Piece>, hs: seq<string>, n: nat, i: nat)
    requires n <= |hs| && i < |ps| && forall h :: h in hs ==> MARK + 2 <= |h|
    requires ps[i].Hole? ==> MARK < |ps[i].text|
    ensures |FilledUpTo(dictionary, ps, hs, n)| == |ps|
    ensures FilledUpTo(dictionary, ps, hs, n)[i]
            == if ps[i].Hole? && ps[i].text in hs[..n] then Fill(dictionary, ps[i]) else ps[i]
    decreases n
  {
    if n > 0 {
      FilledAt(dictionary, ps, hs, n - 1, i);
      assert hs[..n] == hs[..n - 1] + [hs[n - 1]];
    }
  }

  lemma {:induction false} HolesAreFound(ps: seq<Piece>, i: nat)
    requires i < |ps| && ps[i].Hole?
    ensures ps[i].text in Holes(ps)
    decreases ps
  {
    if i > 0 {
      HolesAreFound(ps[1..], i - 1);
    }
  }

  /**
   Replacing the placeholders one after another, everywhere, is the simultaneous
   substitution: every gap stays, every placeholder that can be resolved is replaced by
   its value or its default, and no other text is touched.
   */
  lemma SequentialIsSimultaneous(dictionary: map<string, string>, s: string)
    requires PlainValues(dictionary) && CleanTemplate(Pieces(s))
    ensures var hs := Holes(Pieces(s));
            && (forall h :: h in hs ==> MARK + 2 <= |h|)
            && Sequential(dictionary, s, hs, |hs|) == Simultaneous(dictionary, s)
  {
    hide Resolve;
    var ps := Pieces(s);
    var hs := Holes(ps);
    CleanIsTidy(s);
    PiecesAreText(s);
    SequentialFills(dictionary, s, ps, hs, |hs|);
    var qs := FilledUpTo(dictionary, ps, hs, |hs|);
    assert hs[..|hs|] == hs;
    forall i | 0 <= i < |ps|
      ensures |qs| == |ps| && qs[i] == Fill(dictionary, ps[i])
    {
      FilledAt(dictionary, ps, hs, |hs|, i);
      if ps[i].Hole? {
        HolesAreFound(ps, i);
      }
    }
    FilledAt(dictionary, ps, hs, |hs|, 0);
    assert qs == FillAll(dictionary, ps);
  }

  // ---------- Plain values are needed ----------

  function Placeholder(key: string): string { MARKERS[0] + key + "}" }

  predicate IsKeyText(k: string) { k != "" && forall i :: 0 <= i < |k| ==> IsKey(k[i]) }

  lemma {:induction false} KeyAndBrace(k: string, after: string)
    requires forall i :: 0 <= i < |k| ==> IsKey(k[i])
    ensures KeyRun(k + "}" + after) == |k| && Brace(k + "}" + after) == Some(|k|)
    decreases k
  {
    if k == "" {
      assert k + "}" + after == "}" + after;
    } else {
      assert (k + "}" + after)[1..] == k[1..] + "}" + after;
      KeyAndBrace(k[1..], after);
    }
  }

  lemma PlaceholderMatches(k: string, after: string)
    requires IsKeyText(k)
    ensures Match(Placeholder(k) + after) == Some(|Placeholder(k)|)
    ensures KeyOf(Placeholder(k)) == k && IsHole(Placeholder(k))
  {
    var s := Placeholder(k) + after;
    assert MARKERS[0] <= s && s[MARK..] == k + "}" + after;
    KeyAndBrace(k, after);
    assert Placeholder(k)[MARK..] == k + "}" + "";
    KeyAndBrace(k, "");
    assert Placeholder(k)[MARK] == k[0] && IsKey(k[0]);
    forall i | 2 <= i < |Placeholder(k)| - 1
      ensures !Special(Placeholder(k)[i]) && Placeholder(k)[i] != '\n'
    {
      if i >= MARK {
        assert Placeholder(k)[i] == k[i - MARK];
      } else {
        assert Placeholder(k)[i] == MARKERS[0][i];
        MarkerIsPlain(i);
      }
    }
  }

  lemma MarkerIsPlain(i: nat)
    requires 2 <= i < MARK
    ensures !Special(MARKERS[0][i]) && MARKERS[0][i] != '\n'
  {
    var name := "TELETRAAN_";
    assert MARKERS[0] == "${" + name;
    assert MARKERS[0][i] == name[i - 2];
  }

  lemma TwoPieces(a: string, b: string)
    requires IsKeyText(a) && IsKeyText(b)
    ensures Pieces(Placeholder(a) + Placeholder(b))
            == [Gap(""), Hole(Placeholder(a)), Gap(""), Hole(Placeholder(b)), Gap("")]
  {
    var p, q := Placeholder(a), Placeholder(b);
    PlaceholderMatches(a, q);
    assert (p + q)[..|p|] == p && (p + q)[|p|..] == q;
    PlaceholderMatches(b, "");
    assert q + "" == q && q[..|q|] == q && q[|q|..] == "";
    assert Pieces("") == [Gap("")];
    assert Pieces(q) == [Gap(""), Hole(q)] + Pieces("");
    assert Pieces(p + q) == [Gap(""), Hole(p)] + Pieces(q);
  }

  /**
   A value that is itself a placeholder is replaced again if that placeholder comes later:
   then the result is not the simultaneous substitution.
   */
  lemma ValueIsReplacedAgain(a: string, b: string, v: string)
    requires IsKeyText(a) && IsKeyText(b) && a != b && v != Placeholder(b)
    ensures var dictionary := map[a := Placeholder(b), b := v];
            var s := Placeholder(a) + Placeholder(b);
            var hs := [Placeholder(a), Placeholder(b)];
            && Holes(Pieces(s)) == hs
            && Sequential(dictionary, s, hs, 2) == v + v
            && Simultaneous(dictionary, s) == Placeholder(b) + v
  {
    hide Match;
    hide IsHole;
    hide Text;
    hide FillAll;
    hide Pieces;
    hide Holes;
    hide KeyOf;
    hide DefaultOf;
    var dictionary := map[a := Placeholder(b), b := v];
    var p, q := Placeholder(a), Placeholder(b);
    PlaceholderMatches(a, "");
    PlaceholderMatches(b, "");
    TwoPieces(a, b);
    HolesOfTwo(p, q);
    assert KeyOf(p) != KeyOf(q);
    ReplacedTwice(p, q, v);
    var hs := [p, q];
    assert Sequential(dictionary, p + q, hs, 0) == p + q;
    assert Sequential(dictionary, p + q, hs, 1) == q + q;
    FilledTwo(dictionary, p, q, v);
  }

  lemma HolesOfTwo(p: string, q: string)
    ensures Holes([Gap(""), Hole(p), Gap(""), Hole(q), Gap("")]) == [p, q]
  {
    var ps := [Gap(""), Hole(p), Gap(""), Hole(q), Gap("")];
    assert ps[1..][1..][1..][1..][1..] == [];
    assert Holes(ps[1..][1..][1..][1..]) == [];
    assert Holes(ps[1..][1..][1..]) == [q];
    assert Holes(ps[1..][1..]) == [q];
    assert Holes(ps[1..]) == [p] + [q];
  }

  lemma FilledTwo(dictionary: map<string, string>, p: string, q: string, v: string)
    requires MARK < |p| && MARK < |q|
    requires Resolve(dictionary, p) == Some(q) && Resolve(dictionary, q) == Some(v)
    ensures Text(FillAll(dictionary, [Gap(""), Hole(p), Gap(""), Hole(q), Gap("")])) == q + v
  {
    hide Resolve;
    var qs := [Gap(""), Filled(q), Gap(""), Filled(v), Gap("")];
    assert FillAll(dictionary, [Gap(""), Hole(p), Gap(""), Hole(q), Gap("")]) == qs;
    assert qs[1..][1..][1..][1..][1..] == [];
    assert Text(qs[1..][1..][1..][1..]) == "";
    assert Text(qs[1..][1..][1..]) == v;
    assert Text(qs[1..][1..]) == v;
    assert Text(qs[1..]) == q + v;
  }

  lemma ReplacedTwice(p: string, q: string, v: string)
    requires IsHole(p) && IsHole(q) && p != q
    ensures Replace(p + q, p, q) == q + q && Replace(q + q, q, v) == v + v
  {
    assert (p + q)[|p|..] == q && p <= p + q;
    assert q + "" == q;
    AbsentFromOther(p, q, "");
    ReplaceSkips(q, "", p, q);
    assert (q + q)[|q|..] == q && q <= q + q;
    assert q[|q|..] == "" && Replace(q, q, v) == v + "";
  }

  // ---------- Templates as they are written ----------

  /** What follows the key of a placeholder: nothing, a colon and a default, or something else, which is ignored. */
  datatype Tail = Bare | Default(text: string) | Other(text: string)

  datatype Slot = Slot(marker: string, key: string, tail: Tail)

  /** Text, placeholder, text, ..., text. */
  datatype Template = End(text: string) | Then(text: string, slot: Slot, rest: Template)

  function TailText(t: Tail): string {
    match t
    case Bare => ""
    case Default(text) => ":" + text
    case Other(text) => text
  }

  function SlotText(slot: Slot): string { slot.marker + slot.key + TailText(slot.tail) + "}" }

  function Written(t: Template): string {
    match t
    case End(text) => text
    case Then(text, slot, rest) => text + SlotText(slot) + Written(rest)
  }

  /** What a placeholder stands for: the dictionary wins over a default, and a default over its own text. */
  function SlotValue(dictionary: map<string, string>, slot: Slot): string {
    if slot.key in dictionary then dictionary[slot.key]
    else if slot.tail.Default? then slot.tail.text
    else SlotText(slot)
  }

  /** What the template stands for. */
  function Translated(dictionary: map<string, string>, t: Template): string {
    match t
    case End(text) => text
    case Then(text, slot, rest) =>
      text + SlotValue(dictionary, slot) + Translated(dictionary, rest)
  }

  predicate OneLine(text: string) { forall i :: 0 <= i < |text| ==> text[i] != '}' && text[i] != '\n' }

  /** A placeholder: a marker, a key that is not empty, a tail up to the first brace of its line. */
  predicate GoodSlot(slot: Slot) {
    && slot.marker in MARKERS
    && IsKeyText(slot.key)
    && match slot.tail
       case Bare => true
       case Default(text) => OneLine(text)
       case Other(text) => text != "" && OneLine(text) && !IsKey(text[0]) && text[0] != ':'
  }

  /** `s` starts with a placeholder. */
  predicate StartsSlot(s: string) {
    && |s| > MARK && (s[..MARK] == MARKERS[0] || s[..MARK] == MARKERS[1]) && IsKey(s[MARK])
    && exists n :: MARK <= n < |s| && s[n] == '}' && OneLine(s[MARK..n])
  }

  /** The placeholders are all there are: none starts in the texts between them. */
  predicate Spelled(t: Template) {
    && (forall j :: 0 <= j < |t.text| ==> !StartsSlot(Written(t)[j..]))
    && (t.Then? ==> GoodSlot(t.slot) && Spelled(t.rest))
  }

  /** Nothing can arise by a replacement: see `CleanTemplate`. */
  predicate CleanText(t: Template) {
    t.Then? ==>
      && (forall j :: 0 <= j < |t.text| ==> !PartOfMarker(t.text[j..]))
      && Plain(TailText(t.slot.tail))
      && CleanText(t.rest)
  }

  lemma {:induction false} BraceIsFirst(s: string)
    ensures Brace(s).Some? <==> exists n :: 0 <= n < |s| && s[n] == '}' && OneLine(s[..n])
  {
    if Brace(s).Some? {
      var n := Brace(s).value;
      assert s[n] == '}' && OneLine(s[..n]);
    } else {
      forall n | 0 <= n < |s| && s[n] == '}'
        ensures !OneLine(s[..n])
      {
        if OneLine(s[..n]) {
          forall i | 0 <= i < n
            ensures s[i] != '\n'
          {
            assert s[..n][i] == s[i];
          }
          BraceFound(s, n);
        }
      }
    }
  }

  /** The search finds a placeholder where one starts, and nowhere else. */
  lemma MatchIsSlot(s: string)
    ensures Match(s).Some? <==> StartsSlot(s)
  {
    hide KeyRun;
    hide Brace;
    hide OneLine;
    if |s| > MARK {
      BraceIsFirst(s[MARK..]);
      KeyRunStarts(s[MARK..]);
      BraceOnLine(s);
      MarkerStarts(s);
    }
  }

  lemma MarkerStarts(s: string)
    requires |s| > MARK
    ensures Starts(s) <==> s[..MARK] == MARKERS[0] || s[..MARK] == MARKERS[1]
  {
  }

  lemma BraceOnLine(s: string)
    requires |s| > MARK
    ensures (exists n :: MARK <= n < |s| && s[n] == '}' && OneLine(s[MARK..n]))
            <==> (exists n :: 0 <= n < |s[MARK..]| && s[MARK..][n] == '}' && OneLine(s[MARK..][..n]))
  {
    hide OneLine;
    var rest := s[MARK..];
    if n :| 0 <= n < |rest| && rest[n] == '}' && OneLine(rest[..n]) {
      assert s[MARK..MARK + n] == rest[..n] && s[MARK + n] == '}';
    }
    if n :| MARK <= n < |s| && s[n] == '}' && OneLine(s[MARK..n]) {
      assert s[MARK..n] == rest[..n - MARK] && rest[n - MARK] == '}';
    }
  }

  lemma {:induction false} KeyRunOf(k: string, after: string)
    requires forall i :: 0 <= i < |k| ==> IsKey(k[i])
    requires after != "" && !IsKey(after[0])
    ensures KeyRun(k + after) == |k|
    decreases k
  {
    if k == "" {
      assert k + after == after;
    } else {
      assert (k + after)[1..] == k[1..] + after;
      KeyRunOf(k[1..], after);
    }
  }

  /** The text of a placeholder and what follows: marker, key, tail with brace. */
  lemma SlotParts(slot: Slot, after: string)
    requires GoodSlot(slot)
    ensures var s := SlotText(slot) + after;
            && |slot.marker| == MARK && |s| > MARK && s[..MARK] == slot.marker
            && s[MARK..] == slot.key + (TailText(slot.tail) + "}" + after)
  {
    hide TailText;
    hide IsKeyText;
    var tail := TailText(slot.tail) + "}";
    var s := SlotText(slot) + after;
    assert |MARKERS[0]| == MARK && |MARKERS[1]| == MARK;
    assert s == slot.marker + (slot.key + (tail + after));
  }

  lemma TailIsClosed(slot: Slot)
    requires GoodSlot(slot)
    ensures var tail := TailText(slot.tail) + "}"; !IsKey(tail[0]) && OneLine(TailText(slot.tail))
  {
    if slot.tail.Default? {
      var tail := TailText(slot.tail);
      forall i | 0 <= i < |tail|
        ensures tail[i] != '}' && tail[i] != '\n'
      {
        if i > 0 {
          assert tail[i] == slot.tail.text[i - 1];
        }
      }
    }
  }

  lemma SlotKey(slot: Slot)
    requires GoodSlot(slot)
    ensures |SlotText(slot)| >= MARK + 2 && KeyOf(SlotText(slot)) == slot.key
    ensures SlotText(slot)[MARK..][|slot.key|..] == TailText(slot.tail) + "}"
    ensures KeyRun(SlotText(slot)[MARK..]) == |slot.key|
  {
    hide TailText;
    hide SlotText;
    hide KeyRun;
    var text, tail := SlotText(slot), TailText(slot.tail) + "}";
    SlotParts(slot, "");
    TailIsClosed(slot);
    assert text + "" == text && tail + "" == tail;
    assert text[MARK..] == slot.key + tail;
    KeyRunOf(slot.key, tail);
  }

  lemma SlotDefault(slot: Slot)
    requires GoodSlot(slot)
    ensures |SlotText(slot)| >= MARK + 2
    ensures DefaultOf(SlotText(slot)) == if slot.tail.Default? then Some(slot.tail.text) else None
  {
    hide SlotText;
    hide KeyRun;
    SlotKey(slot);
    var tail := TailText(slot.tail) + "}";
    if slot.tail.Default? {
      assert tail[1..|tail| - 1] == slot.tail.text;
    }
  }

  lemma SlotBrace(slot: Slot, after: string)
    requires GoodSlot(slot)
    ensures Brace(slot.key + (TailText(slot.tail) + "}" + after)) == Some(|slot.key| + |TailText(slot.tail)|)
  {
    hide TailText;
    hide Brace;
    var tail := TailText(slot.tail);
    TailIsClosed(slot);
    var rest := slot.key + (tail + "}" + after);
    var n := |slot.key| + |tail|;
    assert rest[n] == '}';
    forall i | 0 <= i < n
      ensures rest[i] != '}' && rest[i] != '\n'
    {
      if i < |slot.key| {
        assert rest[i] == slot.key[i];
      } else {
        assert rest[i] == tail[i - |slot.key|];
      }
    }
    BraceAt(rest, n);
  }

  /** What the search makes of a placeholder: its length, its key and its default. */
  lemma SlotIsFound(slot: Slot, after: string)
    requires GoodSlot(slot)
    ensures Match(SlotText(slot) + after) == Some(|SlotText(slot)|)
    ensures |SlotText(slot)| >= MARK + 2 && KeyOf(SlotText(slot)) == slot.key
    ensures DefaultOf(SlotText(slot)) == if slot.tail.Default? then Some(slot.tail.text) else None
  {
    hide TailText;
    hide KeyRun;
    hide Brace;
    hide KeyOf;
    hide DefaultOf;
    var tail := TailText(slot.tail) + "}" + after;
    SlotKey(slot);
    SlotDefault(slot);
    SlotParts(slot, after);
    SlotBrace(slot, after);
    TailIsClosed(slot);
    KeyRunOf(slot.key, tail);
    var s := SlotText(slot) + after;
    assert s[..MARK] <= s;
  }

  lemma {:induction false} BraceAt(s: string, n: nat)
    requires n < |s| && s[n] == '}' && forall i :: 0 <= i < n ==> s[i] != '}' && s[i] != '\n'
    ensures Brace(s) == Some(n)
    decreases n
  {
    if n > 0 {
      BraceAt(s[1..], n - 1);
    }
  }

  // ---------- What the search finds in a written template ----------

  function PiecesOf(t: Template): (ps: seq<Piece>)
    ensures ps != [] && ps[0] == Gap(t.text)
  {
    match t
    case End(text) => [Gap(text)]
    case Then(text, slot, rest) => [Gap(text), Hole(SlotText(slot))] + PiecesOf(rest)
  }

  lemma PiecesOfGap(s: string)
    requires s != "" && Match(s).None?
    ensures Pieces(s) == [Gap(s[..1] + Pieces(s[1..])[0].text)] + Pieces(s[1..])[1..]
  {
    hide Match;
  }

  lemma PiecesOfNothing()
    ensures Pieces("") == [Gap("")]
  {
  }

  lemma PiecesOfHole(hole: string, rest: string)
    requires hole != "" && Match(hole + rest) == Some(|hole|)
    ensures Pieces(hole + rest) == [Gap(""), Hole(hole)] + Pieces(rest)
  {
    hide Match;
    assert (hole + rest)[..|hole|] == hole && (hole + rest)[|hole|..] == rest;
  }

  /** A stretch in which no placeholder starts joins the gap behind it. */
  lemma {:induction false} PiecesSkip(a: string, b: string)
    requires forall j :: 0 <= j < |a| ==> Match((a + b)[j..]).None?
    ensures Pieces(a + b) == [Gap(a + Pieces(b)[0].text)] + Pieces(b)[1..]
    decreases a
  {
    hide Match;
    hide Pieces;
    var rest := Pieces(b);
    if a == "" {
      assert a + b == b && a + rest[0].text == rest[0].text;
      assert rest == [Gap(rest[0].text)] + rest[1..];
    } else {
      assert (a + b)[0..] == a + b && (a + b)[1..] == a[1..] + b && (a + b)[..1] == a[..1];
      forall j | 0 <= j < |a| - 1
        ensures Match((a[1..] + b)[j..]).None?
      {
        assert (a[1..] + b)[j..] == (a + b)[j + 1..];
      }
      PiecesSkip(a[1..], b);
      PiecesOfGap(a + b);
      assert Pieces(a[1..] + b)[1..] == rest[1..];
      assert a[..1] + (a[1..] + rest[0].text) == a + rest[0].text;
    }
  }

  lemma {:induction false} PiecesOfWritten(t: Template)
    requires Spelled(t)
    ensures Pieces(Written(t)) == PiecesOf(t)
  {
    hide Match;
    hide Pieces;
    hide StartsSlot;
    hide SlotText;
    hide GoodSlot;
    var s, text := Written(t), t.text;
    forall j | 0 <= j < |text|
      ensures Match(s[j..]).None?
    {
      MatchIsSlot(s[j..]);
    }
    assert text + "" == text;
    if t.End? {
      PiecesSkip(text, "");
      PiecesOfNothing();
    } else {
      var hole, b := SlotText(t.slot), SlotText(t.slot) + Written(t.rest);
      assert s == text + b;
      SlotIsFound(t.slot, Written(t.rest));
      PiecesOfWritten(t.rest);
      PiecesOfHole(hole, Written(t.rest));
      PiecesSkip(text, b);
      assert Pieces(b)[1..] == [Hole(hole)] + PiecesOf(t.rest);
      assert [Gap(text)] + ([Hole(hole)] + PiecesOf(t.rest)) == [Gap(text), Hole(hole)] + PiecesOf(t.rest);
    }
  }

  lemma FillsSlot(dictionary: map<string, string>, slot: Slot)
    requires GoodSlot(slot)
    ensures MARK < |SlotText(slot)| && Fill(dictionary, Hole(SlotText(slot))).text == SlotValue(dictionary, slot)
  {
    hide KeyOf;
    hide DefaultOf;
    hide SlotText;
    hide GoodSlot;
    SlotIsFound(slot, "");
  }

  /** The simultaneous substitution is what the template stands for. */
  lemma {:induction false} FillsWritten(dictionary: map<string, string>, t: Template)
    requires Spelled(t)
    ensures forall i :: 0 <= i < |PiecesOf(t)| && PiecesOf(t)[i].Hole? ==> MARK < |PiecesOf(t)[i].text|
    ensures Text(FillAll(dictionary, PiecesOf(t))) == Translated(dictionary, t)
  {
    hide SlotText;
    hide GoodSlot;
    hide StartsSlot;
    hide Resolve;
    if t.End? {
      assert PiecesOf(t)[1..] == [];
      assert t.text + "" == t.text;
    } else {
      FillsSlot(dictionary, t.slot);
      FillsWritten(dictionary, t.rest);
      FillsBoth(dictionary, t.text, Hole(SlotText(t.slot)), PiecesOf(t.rest));
    }
  }

  /** A gap and a placeholder in front. */
  lemma FillsBoth(dictionary: map<string, string>, text: string, hole: Piece, more: seq<Piece>)
    requires hole.Hole? && MARK < |hole.text|
    requires forall i :: 0 <= i < |more| && more[i].Hole? ==> MARK < |more[i].text|
    ensures Text(FillAll(dictionary, [Gap(text), hole] + more))
            == text + Fill(dictionary, hole).text + Text(FillAll(dictionary, more))
  {
    hide Resolve;
    hide Text;
    hide FillAll;
    var filled, after := Fill(dictionary, hole), FillAll(dictionary, more);
    FillCons(dictionary, hole, more);
    FillCons(dictionary, Gap(text), [hole] + more);
    assert [Gap(text), hole] + more == [Gap(text)] + ([hole] + more);
    TextCons(Gap(text), [filled] + after);
    TextCons(filled, after);
    assert text + (filled.text + Text(after)) == text + filled.text + Text(after);
  }

  lemma FillCons(dictionary: map<string, string>, p: Piece, ps: seq<Piece>)
    requires p.Hole? ==> MARK < |p.text|
    requires forall i :: 0 <= i < |ps| && ps[i].Hole? ==> MARK < |ps[i].text|
    ensures FillAll(dictionary, [p] + ps) == [Fill(dictionary, p)] + FillAll(dictionary, ps)
  {
    hide Fill;
    assert ([p] + ps)[1..] == ps;
  }

  lemma {:induction false} WrittenIsClean(t: Template)
    requires Spelled(t) && CleanText(t)
    ensures CleanTemplate(PiecesOf(t))
  {
    if t.Then? {
      WrittenIsClean(t.rest);
      SlotIsHole(t.slot);
      var ps, more := PiecesOf(t), PiecesOf(t.rest);
      forall i | 0 <= i < |ps|
        ensures ps[i].Hole? ==> IsHole(ps[i].text)
        ensures ps[i].Gap? && i < |ps| - 1 ==> forall j :: 0 <= j < |ps[i].text| ==> !PartOfMarker(ps[i].text[j..])
      {
        if i >= 2 {
          assert ps[i] == more[i - 2];
        }
      }
    }
  }

  lemma SlotIsHole(slot: Slot)
    requires GoodSlot(slot) && Plain(TailText(slot.tail))
    ensures IsHole(SlotText(slot))
  {
    var s, tail := SlotText(slot), TailText(slot.tail);
    assert s[..MARK] == slot.marker && s[MARK] == slot.key[0];
    forall i | 2 <= i < |s| - 1
      ensures !Special(s[i]) && s[i] != '\n'
    {
      if i < MARK {
        assert s[i] == slot.marker[i];
        MarkerIsPlain(i);
      } else if i < MARK + |slot.key| {
        assert s[i] == slot.key[i - MARK];
      } else {
        assert s[i] == tail[i - MARK - |slot.key|];
        if slot.tail.Default? && i > MARK + |slot.key| {
          assert s[i] == slot.tail.text[i - MARK - |slot.key| - 1];
        }
      }
    }
  }

  /** Every text is a template in exactly this sense: the placeholders found, and the texts between them. */
  lemma {:induction false} EveryTextIsTemplate(s: string) returns (t: Template)
    ensures Spelled(t) && Written(t) == s
    decreases |s|
  {
    hide Match;
    if s == "" {
      t := End("");
    } else if Match(s).Some? {
      var n := Match(s).value;
      var slot := SlotOf(s);
      var rest := EveryTextIsTemplate(s[n..]);
      t := Then("", slot, rest);
      assert s[..n] + s[n..] == s;
      assert "" + SlotText(slot) == SlotText(slot);
    } else {
      MatchIsSlot(s);
      var rest := EveryTextIsTemplate(s[1..]);
      t := if rest.End? then End(s[..1] + rest.text) else Then(s[..1] + rest.text, rest.slot, rest.rest);
      assert Written(t) == s[..1] + Written(rest) == s;
      forall j | 0 <= j < |t.text|
        ensures !StartsSlot(s[j..])
      {
        if j > 0 {
          assert s[j..] == s[1..][j - 1..];
        } else {
          assert s[0..] == s;
        }
      }
    }
  }

  lemma SlotOf(s: string) returns (slot: Slot)
    requires Match(s).Some?
    ensures GoodSlot(slot) && SlotText(slot) == s[..Match(s).value]
  {
    hide KeyRun;
    hide Brace;
    hide Starts;
    hide GoodSlot;
    var rest := s[MARK..];
    var k, b := KeyRun(rest), Brace(rest).value;
    StartIsMarker(s);
    assert !IsKey('}');
    assert k <= b;
    var tail := rest[k..b];
    slot := TailOf(s[..MARK], rest[..k], tail);
    SlotTextIs(s, k, b, slot);
  }

  lemma StartIsMarker(s: string)
    requires Starts(s)
    ensures |s| >= MARK && s[..MARK] in MARKERS
  {
    assert s[..MARK] == MARKERS[0] || s[..MARK] == MARKERS[1];
  }

  lemma SlotTextIs(s: string, k: nat, b: nat, slot: Slot)
    requires MARK <= |s| && k <= b < |s| - MARK && s[MARK + b] == '}'
    requires slot.marker == s[..MARK] && slot.key == s[MARK..][..k] && TailText(slot.tail) == s[MARK..][k..b]
    ensures SlotText(slot) == s[..MARK + b + 1]
  {
    hide TailText;
  }

  lemma TailOf(marker: string, key: string, tail: string) returns (slot: Slot)
    requires marker in MARKERS && IsKeyText(key) && OneLine(tail) && (tail != "" ==> !IsKey(tail[0]))
    ensures GoodSlot(slot) && slot.marker == marker && slot.key == key && TailText(slot.tail) == tail
  {
    if tail == "" {
      slot := Slot(marker, key, Bare);
    } else if tail[0] == ':' {
      slot := Slot(marker, key, Default(tail[1..]));
      assert ":" + tail[1..] == tail;
      assert forall i :: 0 <= i < |tail| - 1 ==> tail[1..][i] == tail[i + 1];
    } else {
      slot := Slot(marker, key, Other(tail));
    }
  }

  class Transformer {
    const dictionary: map<string, string>

    constructor (dictionary: map<string, string>)
      ensures this.dictionary == dictionary
    {
      this.dictionary := dictionary;
    }

    /** The first phase of translating a script. */
    method Translate(text: string) returns (res: string)
      ensures var hs := Holes(Pieces(text));
              (forall h :: h in hs ==> MARK + 2 <= |h|) && res == Sequential(dictionary, text, hs, |hs|)
      ensures PlainValues(dictionary) && CleanTemplate(Pieces(text)) ==> res == Simultaneous(dictionary, text)
      // Clean templates, as they are written, come out as what they stand for.
      ensures PlainValues(dictionary) ==>
                forall t :: Spelled(t) && CleanText(t) && Written(t) == text ==> res == Translated(dictionary, t)
    {
      hide Resolve;
      hide Pieces;
      hide Holes;
      var matches := Holes(Pieces(text));
      HolesAreLong(text);
      res := text;
      for i := 0 to |matches|
        invariant res == Sequential(dictionary, text, matches, i)
      {
        var value := Resolve(dictionary, matches[i]);
        if value.Some? {
          res := Replace(res, matches[i], value.value);
        }
      }
      if PlainValues(dictionary) && CleanTemplate(Pieces(text)) {
        SequentialIsSimultaneous(dictionary, text);
      }
      forall t | PlainValues(dictionary) && Spelled(t) && CleanText(t) && Written(t) == text
        ensures res == Translated(dictionary, t)
      {
        PiecesOfWritten(t);
        WrittenIsClean(t);
        FillsWritten(dictionary, t);
      }
    }
  }
}
