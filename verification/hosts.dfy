/**
 The hosts of a group, divided among its auto scaling groups
 (deploy-board/deploy_board/webapp/group_view.py:407-438): every host that is found among
 the instances of a group is removed from them, and what is left of them is listed, too.
 */
module Hosts {

  datatype Host = Host(name: string, id: string)

  datatype Asg = Asg(spotGroup: bool, instances: seq<string>)

  /** The hosts put on each list so far, and the instances not met so far. */
  datatype Lists = Lists(
    asg: seq<Host>, spot: seq<Host>, other: seq<Host>, asgLeft: seq<string>, spotLeft: seq<string>)

  /** Python's `list.remove`: the first occurrence goes. */
  function Remove(xs: seq<string>, x: string): (ys: seq<string>)
    requires x in xs
    ensures |ys| == |xs| - 1 && multiset(ys) == multiset(xs) - multiset{x}
  {
    if xs[0] == x then
      assert xs == [xs[0]] + xs[1..];
      xs[1..]
    else
      assert xs == [xs[0]] + xs[1..];
      [xs[0]] + Remove(xs[1..], x)
  }

  function Put(l: Lists, h: Host): Lists {
    if h.id in l.asgLeft then l.(asg := l.asg + [h], asgLeft := Remove(l.asgLeft, h.id))
    else if h.id in l.spotLeft then l.(spot := l.spot + [h], spotLeft := Remove(l.spotLeft, h.id))
    else l.(other := l.other + [h])
  }

  function PutAll(hosts: seq<Host>, asg: seq<string>, spot: seq<string>): Lists {
    if hosts == [] then Lists([], [], [], asg, spot)
    else Put(PutAll(hosts[..|hosts| - 1], asg, spot), hosts[|hosts| - 1])
  }

  function Names(hosts: seq<Host>): (ns: seq<string>)
    ensures |ns| == |hosts|
  {
    if hosts == [] then [] else Names(hosts[..|hosts| - 1]) + [hosts[|hosts| - 1].name]
  }

  function Ids(hosts: seq<Host>): (ids: seq<string>)
    ensures |ids| == |hosts| && forall i :: 0 <= i < |hosts| ==> ids[i] == hosts[i].id
  {
    if hosts == [] then [] else Ids(hosts[..|hosts| - 1]) + [hosts[|hosts| - 1].id]
  }

  /** Group `n` is the last of its kind. */
  predicate IsLast(asgs: seq<Asg>, spotGroup: bool, n: nat) {
    n < |asgs| && asgs[n].spotGroup == spotGroup && forall m :: n < m < |asgs| ==> asgs[m].spotGroup != spotGroup
  }

  /** The instances of the last group of a kind. */
  function Instances(asgs: seq<Asg>, spotGroup: bool): seq<string> {
    if asgs == [] then []
    else if asgs[|asgs| - 1].spotGroup == spotGroup then asgs[|asgs| - 1].instances
    else Instances(asgs[..|asgs| - 1], spotGroup)
  }

  lemma {:induction false} InstancesAreLast(asgs: seq<Asg>, spotGroup: bool, n: nat)
    ensures IsLast(asgs, spotGroup, n) ==> Instances(asgs, spotGroup) == asgs[n].instances
    ensures (forall m :: 0 <= m < |asgs| ==> asgs[m].spotGroup != spotGroup) ==> Instances(asgs, spotGroup) == []
    decreases |asgs|
  {
    if asgs != [] {
      InstancesAreLast(asgs[..|asgs| - 1], spotGroup, n);
    }
  }

  lemma NamesMore(hosts: seq<Host>, h: Host)
    ensures Names(hosts + [h]) == Names(hosts) + [h.name]
  {
    assert (hosts + [h])[..|hosts|] == hosts;
  }

  /** The instances of the last group of each kind. */
  method FindInstances(asgs: seq<Asg>) returns (nonspot: seq<string>, spot: seq<string>)
    ensures nonspot == Instances(asgs, false) && spot == Instances(asgs, true)
  {
    spot, nonspot := [], [];
    for i := 0 to |asgs|
      invariant nonspot == Instances(asgs[..i], false) && spot == Instances(asgs[..i], true)
    {
      assert asgs[..i + 1][..i] == asgs[..i];
      if asgs[i].spotGroup {
        spot := asgs[i].instances;
      } else {
        nonspot := asgs[i].instances;
      }
    }
    assert asgs[..|asgs|] == asgs;
  }

  /** The lists that the page shows, and the size of the fleet. */
  method GetGroupInfo(asgs: seq<Asg>, hosts: seq<Host>)
    returns (asgHosts: seq<string>, spotHosts: seq<string>, otherHosts: seq<string>, fleetSize: nat, spotSize: nat)
    ensures var nonspot, spot := Instances(asgs, false), Instances(asgs, true);
            var l := PutAll(hosts, nonspot, spot);
            && asgHosts == Names(l.asg) + l.asgLeft && spotHosts == Names(l.spot) + l.spotLeft
            && otherHosts == Names(l.other)
            // The lists are exactly as long as the lists of instances were.
            && |asgHosts| == |nonspot| && |spotHosts| == |spot| && spotSize == |spot|
            && fleetSize == |nonspot| + |spot| + |otherHosts|
  {
    hide Names;
    hide Instances;
    hide Remove;
    hide Conserves;
    var nonspot, spot := FindInstances(asgs);
    ghost var asg0, spot0 := nonspot, spot;
    asgHosts, spotHosts, otherHosts := [], [], [];
    ghost var l := PutAll([], asg0, spot0);
    NoNames();
    assert hosts[..0] == [];
    for i := 0 to |hosts|
      invariant l == PutAll(hosts[..i], asg0, spot0)
      invariant nonspot == l.asgLeft && spot == l.spotLeft
      invariant asgHosts == Names(l.asg) && spotHosts == Names(l.spot) && otherHosts == Names(l.other)
    {
      assert hosts[..i + 1][..i] == hosts[..i];
      var host := hosts[i];
      if host.id in nonspot {
        NamesMore(l.asg, host);
        asgHosts := asgHosts + [host.name];
        nonspot := Remove(nonspot, host.id);
      } else if host.id in spot {
        NamesMore(l.spot, host);
        spotHosts := spotHosts + [host.name];
        spot := Remove(spot, host.id);
      } else {
        NamesMore(l.other, host);
        otherHosts := otherHosts + [host.name];
      }
      l := Put(l, host);
    }
    assert hosts[..|hosts|] == hosts;
    Conserved(hosts, asg0, spot0);
    ConservedLengths(l, hosts, asg0, spot0);
    asgHosts := asgHosts + nonspot;
    spotHosts := spotHosts + spot;
    fleetSize := |asgHosts| + |otherHosts| + |spotHosts|;
    spotSize := |spotHosts|;
  }

  lemma NoNames()
    ensures Names([]) == []
  {
  }

  lemma ConservedLengths(l: Lists, hosts: seq<Host>, asg: seq<string>, spot: seq<string>)
    requires Conserves(l, hosts, asg, spot)
    ensures |l.asg| + |l.asgLeft| == |asg| && |l.spot| + |l.spotLeft| == |spot|
  {
  }

  lemma IdsMore(hosts: seq<Host>, h: Host)
    ensures multiset(Ids(hosts + [h])) == multiset(Ids(hosts)) + multiset{h.id}
  {
    assert (hosts + [h])[..|hosts|] == hosts;
  }

  /** Every host of `hosts` is on exactly one list; what is left of the instances are those of no host met. */
  ghost predicate Conserves(l: Lists, hosts: seq<Host>, asg: seq<string>, spot: seq<string>) {
    && multiset(l.asg) + multiset(l.spot) + multiset(l.other) == multiset(hosts)
    && |l.asg| + |l.spot| + |l.other| == |hosts|
    && multiset(Ids(l.asg)) + multiset(l.asgLeft) == multiset(asg)
    && multiset(Ids(l.spot)) + multiset(l.spotLeft) == multiset(spot)
    && |l.asg| + |l.asgLeft| == |asg| && |l.spot| + |l.spotLeft| == |spot|
  }

  lemma MoveOne(a: multiset<string>, b: multiset<string>, x: string)
    requires x in b
    ensures (a + multiset{x}) + (b - multiset{x}) == a + b
  {
  }

  lemma PutConserves(l: Lists, h: Host, hosts: seq<Host>, asg: seq<string>, spot: seq<string>)
    requires Conserves(l, hosts, asg, spot)
    ensures Conserves(Put(l, h), hosts + [h], asg, spot)
  {
    hide Ids;
    hide Remove;
    var one := multiset{h};
    assert multiset(hosts + [h]) == multiset(hosts) + one;
    if h.id in l.asgLeft {
      IdsMore(l.asg, h);
      MoveOne(multiset(Ids(l.asg)), multiset(l.asgLeft), h.id);
      assert multiset(l.asg + [h]) == multiset(l.asg) + one;
    } else if h.id in l.spotLeft {
      IdsMore(l.spot, h);
      MoveOne(multiset(Ids(l.spot)), multiset(l.spotLeft), h.id);
      assert multiset(l.spot + [h]) == multiset(l.spot) + one;
    } else {
      assert multiset(l.other + [h]) == multiset(l.other) + one;
    }
  }

  lemma {:induction false} Conserved(hosts: seq<Host>, asg: seq<string>, spot: seq<string>)
    ensures Conserves(PutAll(hosts, asg, spot), hosts, asg, spot)
    decreases hosts
  {
    if hosts != [] {
      var front, h := hosts[..|hosts| - 1], hosts[|hosts| - 1];
      assert hosts == front + [h];
      Conserved(front, asg, spot);
      PutConserves(PutAll(front, asg, spot), h, front, asg, spot);
    }
  }

  predicate NoRepeats(xs: seq<string>) { forall i, j :: 0 <= i < j < |xs| ==> xs[i] != xs[j] }

  function SetOf(xs: seq<string>): set<string> { set x | x in xs }

  lemma {:induction false} SetSize(xs: seq<string>)
    requires NoRepeats(xs)
    ensures |SetOf(xs)| == |xs|
    decreases xs
  {
    if xs == [] {
      assert SetOf(xs) == {};
    } else {
      var front, x := xs[..|xs| - 1], xs[|xs| - 1];
      SetSize(front);
      assert SetOf(xs) == SetOf(front) + {x} && x !in SetOf(front);
    }
  }

  lemma {:induction false} RemoveDistinct(xs: seq<string>, x: string)
    requires NoRepeats(xs) && x in xs
    ensures NoRepeats(Remove(xs, x)) && SetOf(Remove(xs, x)) == SetOf(xs) - {x}
    decreases xs
  {
    assert xs == [xs[0]] + xs[1..];
    if xs[0] != x {
      RemoveDistinct(xs[1..], x);
      assert SetOf(Remove(xs, x)) == {xs[0]} + SetOf(Remove(xs[1..], x));
      assert SetOf(xs) == {xs[0]} + SetOf(xs[1..]);
      forall y | y in Remove(xs[1..], x)
        ensures y != xs[0]
      {
        assert y in SetOf(Remove(xs[1..], x));
      }
    }
  }

  /** Of the ids `seen`, each is listed where it belongs. */
  ghost predicate Listed(l: Lists, seen: set<string>, asg: set<string>, spot: set<string>) {
    && NoRepeats(l.asgLeft) && NoRepeats(l.spotLeft) && NoRepeats(Ids(l.other))
    && SetOf(l.asgLeft) == asg - seen && SetOf(l.spotLeft) == spot - seen
    && SetOf(Ids(l.other)) == seen - asg - spot
  }

  lemma OneMore(hosts: seq<Host>, h: Host)
    requires NoRepeats(Ids(hosts)) && h.id !in SetOf(Ids(hosts))
    ensures NoRepeats(Ids(hosts + [h])) && SetOf(Ids(hosts + [h])) == SetOf(Ids(hosts)) + {h.id}
  {
    assert (hosts + [h])[..|hosts|] == hosts;
    assert Ids(hosts + [h]) == Ids(hosts) + [h.id];
  }

  lemma PutLists(l: Lists, h: Host, seen: set<string>, asg: set<string>, spot: set<string>)
    requires Listed(l, seen, asg, spot) && h.id !in seen && asg !! spot
    ensures Listed(Put(l, h), seen + {h.id}, asg, spot)
  {
    hide Remove;
    hide Ids;
    hide NoRepeats;
    if h.id in l.asgLeft {
      assert h.id in SetOf(l.asgLeft);
      RemoveDistinct(l.asgLeft, h.id);
    } else if h.id in l.spotLeft {
      assert h.id in SetOf(l.spotLeft);
      RemoveDistinct(l.spotLeft, h.id);
    } else {
      assert h.id !in SetOf(l.asgLeft) && h.id !in SetOf(l.spotLeft);
      assert h.id !in SetOf(Ids(l.other));
      OneMore(l.other, h);
    }
  }

  /** With distinct hosts, a host is listed by its id. */
  lemma {:induction false} ListedById(hosts: seq<Host>, asg: seq<string>, spot: seq<string>)
    requires NoRepeats(Ids(hosts)) && NoRepeats(asg) && NoRepeats(spot) && SetOf(asg) !! SetOf(spot)
    ensures Listed(PutAll(hosts, asg, spot), SetOf(Ids(hosts)), SetOf(asg), SetOf(spot))
    decreases hosts
  {
    hide Listed;
    if hosts == [] {
      NothingListed(asg, spot);
      assert SetOf(Ids(hosts)) == {};
    } else {
      var front, h := hosts[..|hosts| - 1], hosts[|hosts| - 1];
      assert Ids(hosts) == Ids(front) + [h.id];
      ListedById(front, asg, spot);
      PutLists(PutAll(front, asg, spot), h, SetOf(Ids(front)), SetOf(asg), SetOf(spot));
      assert SetOf(Ids(hosts)) == SetOf(Ids(front)) + {h.id};
    }
  }

  lemma NothingListed(asg: seq<string>, spot: seq<string>)
    requires NoRepeats(asg) && NoRepeats(spot)
    ensures Listed(Lists([], [], [], asg, spot), {}, SetOf(asg), SetOf(spot))
  {
  }

  /** The size of the fleet is the number of different hosts and instances. */
  lemma FleetIsUnion(hosts: seq<Host>, asg: seq<string>, spot: seq<string>)
    requires NoRepeats(Ids(hosts)) && NoRepeats(asg) && NoRepeats(spot)
    requires SetOf(asg) !! SetOf(spot)
    ensures |asg| + |spot| + |PutAll(hosts, asg, spot).other| == |SetOf(Ids(hosts)) + SetOf(asg) + SetOf(spot)|
  {
    hide PutAll;
    var other := Ids(PutAll(hosts, asg, spot).other);
    ListedById(hosts, asg, spot);
    SetSize(asg);
    SetSize(spot);
    SetSize(other);
    var instances := SetOf(asg) + SetOf(spot);
    assert |instances| == |asg| + |spot|;
    assert SetOf(other) !! instances;
    assert SetOf(Ids(hosts)) + SetOf(asg) + SetOf(spot) == SetOf(other) + instances;
  }
}
