/**
 Which local builds are removed (deploy-agent/deployd/common/helper.py:43-62,
 deploy-agent/deployd/agent.py:242-264).
 */
module StaleBuilds {

  /** A build directory and when it was last modified. */
  datatype Local = Local(name: string, time: int)

  predicate DistinctNames(bs: seq<Local>) {
    forall i, j :: 0 <= i < j < |bs| ==> bs[i].name != bs[j].name
  }

  // ---------- Sorting by time: Python's stable sort ----------

  /** Puts `b` before the first build that is not older. */
  function Insert(b: Local, bs: seq<Local>): seq<Local> {
    if bs == [] then [b]
    else if b.time <= bs[0].time then [b] + bs
    else [bs[0]] + Insert(b, bs[1..])
  }

  function Sorted(bs: seq<Local>): seq<Local> {
    if bs == [] then [] else Insert(bs[0], Sorted(bs[1..]))
  }

  predicate Ascending(bs: seq<Local>) {
    forall i, j :: 0 <= i < j < |bs| ==> bs[i].time <= bs[j].time
  }

  lemma {:induction false} InsertAscends(b: Local, bs: seq<Local>)
    requires Ascending(bs)
    ensures Ascending(Insert(b, bs)) && multiset(Insert(b, bs)) == multiset(bs) + multiset{b}
  {
    if bs != [] && b.time > bs[0].time {
      assert bs == [bs[0]] + bs[1..];
      InsertAscends(b, bs[1..]);
      AscendingCons(bs[0], b, bs[1..], Insert(b, bs[1..]));
    } else {
      assert multiset([b] + bs) == multiset(bs) + multiset{b};
    }
  }

  lemma AscendingCons(first: Local, b: Local, bs: seq<Local>, rest: seq<Local>)
    requires Ascending([first] + bs) && first.time <= b.time
    requires Ascending(rest) && multiset(rest) == multiset(bs) + multiset{b}
    ensures Ascending([first] + rest) && multiset([first] + rest) == multiset([first] + bs) + multiset{b}
  {
    forall j | 0 <= j < |rest|
      ensures first.time <= rest[j].time
    {
      assert rest[j] in multiset(rest);
      if rest[j] != b {
        assert rest[j] in multiset(bs);
        var k :| 0 <= k < |bs| && bs[k] == rest[j];
        assert ([first] + bs)[k + 1] == bs[k] && ([first] + bs)[0] == first;
      }
    }
  }

  lemma {:induction false} SortedAscends(bs: seq<Local>)
    ensures Ascending(Sorted(bs)) && multiset(Sorted(bs)) == multiset(bs)
  {
    if bs != [] {
      assert bs == [bs[0]] + bs[1..];
      SortedAscends(bs[1..]);
      InsertAscends(bs[0], Sorted(bs[1..]));
    }
  }

  lemma {:induction false} InsertKeepsTies(b: Local, bs: seq<Local>, t: int)
    ensures AtTime(Insert(b, bs), t) == if b.time == t then [b] + AtTime(bs, t) else AtTime(bs, t)
    requires Ascending(bs)
  {
    if bs == [] {
    } else if b.time <= bs[0].time {
      assert ([b] + bs)[1..] == bs;
    } else {
      InsertKeepsTies(b, bs[1..], t);
      assert ([bs[0]] + Insert(b, bs[1..]))[1..] == Insert(b, bs[1..]);
      if b.time == t {
        assert AtTime(bs, t) == AtTime(bs[1..], t);
      }
    }
  }

  /** The builds of one moment, in their order. */
  function AtTime(bs: seq<Local>, t: int): seq<Local> {
    if bs == [] then []
    else if bs[0].time == t then [bs[0]] + AtTime(bs[1..], t)
    else AtTime(bs[1..], t)
  }

  /** The sort is stable. */
  lemma {:induction false} SortedIsStable(bs: seq<Local>, t: int)
    ensures AtTime(Sorted(bs), t) == AtTime(bs, t)
  {
    if bs != [] {
      SortedIsStable(bs[1..], t);
      SortedAscends(bs[1..]);
      InsertKeepsTies(bs[0], Sorted(bs[1..]), t);
    }
  }

  // ---------- The stale ones ----------

  /** How many of `n` builds are stale when `retain` are to be kept. */
  function StaleCount(n: nat, retain: int): nat {
    if n <= retain then 0 else if retain < 0 then n else n - retain
  }

  function Oldest(bs: seq<Local>, retain: int): seq<Local> {
    Sorted(bs)[..SortedLength(bs, retain)]
  }

  function SortedLength(bs: seq<Local>, retain: int): (n: nat)
    ensures n <= |Sorted(bs)| && |Sorted(bs)| == |bs|
  {
    SortedAscends(bs);
    assert |multiset(Sorted(bs))| == |multiset(bs)|;
    StaleCount(|bs|, retain)
  }

  /** Yields the oldest builds until only as many as are to be retained are left. */
  method GetStaleBuilds(builds: seq<Local>, retain: int) returns (stale: seq<Local>)
    ensures stale == Oldest(builds, retain)
  {
    var sortedItems := Sorted(builds);
    var totalBuilds := |sortedItems|;
    ghost var all := SortedLength(builds, retain);
    stale := [];
    var yieldedBuilds := 0;
    while yieldedBuilds < |sortedItems|
      invariant yieldedBuilds <= all && stale == sortedItems[..yieldedBuilds]
    {
      if totalBuilds - yieldedBuilds <= retain {
        break;
      }
      stale := stale + [sortedItems[yieldedBuilds]];
      yieldedBuilds := yieldedBuilds + 1;
    }
  }

  function Without(bs: seq<Local>, name: string): seq<Local> {
    if bs == [] then []
    else if bs[0].name == name then Without(bs[1..], name)
    else [bs[0]] + Without(bs[1..], name)
  }

  lemma {:induction false} WithoutMeans(bs: seq<Local>, name: string, b: Local)
    ensures b in Without(bs, name) <==> b in bs && b.name != name
  {
    if bs != [] {
      WithoutMeans(bs[1..], name, b);
    }
  }

  lemma {:induction false} WithoutKeepsDistinct(bs: seq<Local>, name: string)
    requires DistinctNames(bs)
    ensures DistinctNames(Without(bs, name))
    ensures |Without(bs, name)| == |bs| - if exists b :: b in bs && b.name == name then 1 else 0
  {
    if bs != [] {
      var rest := bs[1..];
      WithoutKeepsDistinct(rest, name);
      if bs[0].name == name {
        assert forall b :: b in rest ==> b.name != name;
        assert bs[0] in bs;
      } else {
        forall b
          ensures b in Without(rest, name) ==> b.name != bs[0].name
        {
          WithoutMeans(rest, name, b);
        }
        if b :| b in bs && b.name == name {
          assert b in rest;
        }
        if b :| b in rest && b.name == name {
          assert b in bs;
        }
      }
    }
  }

  /** Removes the stale builds that are not to be kept. */
  method CleanStaleFiles(builds: seq<Local>, keep: set<string>, retain: int) returns (left: seq<Local>)
    requires DistinctNames(builds)
    ensures forall b :: b in left <==> b in builds && (b.name in keep || b !in Oldest(builds, retain))
    ensures DistinctNames(left) && |left| >= |builds| - |Oldest(builds, retain)|
  {
    var stale := GetStaleBuilds(builds, retain);
    left := builds;
    SortedLengthMeans(builds, retain);
    for i := 0 to |stale|
      invariant forall b :: b in left <==> b in builds && (b.name in keep || b !in stale[..i])
      invariant DistinctNames(left) && |left| >= |builds| - i
    {
      if stale[i].name !in keep {
        OneBuildOfName(builds, stale[i]);
        forall b
          ensures b in Without(left, stale[i].name) <==> b in builds && (b.name in keep || b !in stale[..i + 1])
        {
          WithoutMeans(left, stale[i].name, b);
          assert stale[..i + 1] == stale[..i] + [stale[i]];
        }
        WithoutKeepsDistinct(left, stale[i].name);
        left := Without(left, stale[i].name);
      } else {
        assert stale[..i + 1] == stale[..i] + [stale[i]];
      }
    }
    assert stale[..|stale|] == stale;
  }

  lemma SortedLengthMeans(builds: seq<Local>, retain: int)
    ensures forall b :: b in Oldest(builds, retain) ==> b in builds
  {
    SortedAscends(builds);
    forall b | b in Oldest(builds, retain)
      ensures b in builds
    {
      assert b in multiset(Sorted(builds));
    }
  }

  lemma OneBuildOfName(builds: seq<Local>, b: Local)
    requires DistinctNames(builds) && b in builds
    ensures forall c :: c in builds && c.name == b.name ==> c == b
  {
  }

  lemma SplitAscends(bs: seq<Local>, n: nat)
    requires Ascending(bs) && n <= |bs|
    ensures forall a, b :: a in bs[..n] && b in bs[n..] ==> a.time <= b.time
    ensures multiset(bs[..n]) + multiset(bs[n..]) == multiset(bs)
  {
    assert bs == bs[..n] + bs[n..];
  }

  /**
   Retention: exactly the oldest builds beyond the number to retain are candidates for
   removal, none of them is newer than a build that is not, and every build to keep stays.
   */
  lemma Retention(builds: seq<Local>, keep: set<string>, retain: int)
    ensures var stale := Oldest(builds, retain);
            && |stale| == StaleCount(|builds|, retain)
            && |builds| - |stale| == (if |builds| < retain then |builds| else if retain < 0 then 0 else retain)
            && (forall b :: b in stale ==> b in builds)
            && (forall old_, young :: old_ in stale && young in Sorted(builds)[|stale|..] ==> old_.time <= young.time)
            && multiset(stale) + multiset(Sorted(builds)[|stale|..]) == multiset(builds)
  {
    hide Sorted;
    SortedAscends(builds);
    SortedLengthMeans(builds, retain);
    SplitAscends(Sorted(builds), SortedLength(builds, retain));
  }
}
