/** Generating a router map: select and sort the hosts, then number their slots. */
module Dmap {
  import opened Addresses
  import opened Text
  import opened EndPointMaps

  // ----- Selecting hosts -----

  function Selected(addrs: seq<IPv4Number>, skip: seq<IPv4Number>): seq<IPv4Number> {
    if addrs == [] then []
    else
      var n := |addrs| - 1;
      Selected(addrs[..n], skip) + if addrs[n] in skip then [] else [addrs[n]]
  }

  /** The hosts asked for, or all known ones when none were, without those to be skipped. */
  method SelectHosts(
      known: seq<IPv4Number>, asked: seq<IPv4Number>, skip: seq<IPv4Number>) returns (hosts: seq<IPv4Number>)
    ensures hosts == Selected(if |asked| > 0 then asked else known, skip)
  {
    var addrs := known;
    if |asked| > 0 {
      addrs := asked;
    }
    hosts := [];
    for i := 0 to |addrs|
      invariant hosts == Selected(addrs[..i], skip)
    {
      var found := false;
      for j := 0 to |skip|
        invariant found == (addrs[i] in skip[..j])
      {
        if addrs[i] == skip[j] {
          found := true;
        }
      }
      assert skip[..|skip|] == skip && addrs[..i + 1][..i] == addrs[..i];
      if !found {
        hosts := hosts + [addrs[i]];
      }
    }
    assert addrs[..|addrs|] == addrs;
  }

  lemma {:induction false} SelectedHosts(addrs: seq<IPv4Number>, skip: seq<IPv4Number>, h: IPv4Number)
    ensures h in Selected(addrs, skip) <==> h in addrs && h !in skip
  {
    if addrs != [] {
      var n := |addrs| - 1;
      SelectedHosts(addrs[..n], skip, h);
      assert addrs == addrs[..n] + [addrs[n]];
    }
  }

  // ----- Sorting in place -----

  predicate Ascending(s: seq<IPv4Number>) {
    forall i, j :: 0 <= i < j < |s| ==> s[i] <= s[j]
  }

  ghost predicate Permutation(s: seq<IPv4Number>, t: seq<IPv4Number>) {
    multiset(s) == multiset(t)
  }

  function Below(s: seq<IPv4Number>, x: IPv4Number): nat {
    if s == [] then 0 else (if s[0] < x then 1 else 0) + Below(s[1..], x)
  }

  /** The pairs that are out of order. */
  function Inversions(s: seq<IPv4Number>): nat {
    if s == [] then 0 else Below(s[1..], s[0]) + Inversions(s[1..])
  }

  function Swapped(s: seq<IPv4Number>, i: nat): seq<IPv4Number>
    requires i + 1 < |s|
  {
    s[i := s[i + 1]][i + 1 := s[i]]
  }

  lemma {:induction false} SwapKeepsBelow(s: seq<IPv4Number>, i: nat, x: IPv4Number)
    requires i + 1 < |s|
    ensures Below(Swapped(s, i), x) == Below(s, x)
    decreases i
  {
    var t := Swapped(s, i);
    if i == 0 {
      assert s[1..][1..] == t[1..][1..];
      assert Below(s, x) == (if s[0] < x then 1 else 0) + ((if s[1] < x then 1 else 0) + Below(s[1..][1..], x));
      assert Below(t, x) == (if s[1] < x then 1 else 0) + ((if s[0] < x then 1 else 0) + Below(t[1..][1..], x));
    } else {
      SwapKeepsBelow(s[1..], i - 1, x);
      assert t[1..] == Swapped(s[1..], i - 1);
    }
  }

  /** Exchanging two neighbours that are out of order removes exactly one inversion. */
  lemma {:induction false} SwapRemovesInversion(s: seq<IPv4Number>, i: nat)
    requires i + 1 < |s| && s[i] > s[i + 1]
    ensures Inversions(Swapped(s, i)) == Inversions(s) - 1
    decreases i
  {
    var t := Swapped(s, i);
    if i == 0 {
      var rest := s[1..][1..];
      assert t[1..][1..] == rest && t[1..][0] == s[0];
      assert Below(s[1..], s[0]) == 1 + Below(rest, s[0]);
      assert Below(t[1..], s[1]) == Below(rest, s[1]);
      assert Inversions(s[1..]) == Below(rest, s[1]) + Inversions(rest);
      assert Inversions(t[1..]) == Below(rest, s[0]) + Inversions(rest);
    } else {
      SwapRemovesInversion(s[1..], i - 1);
      SwapKeepsBelow(s[1..], i - 1, s[0]);
      assert t[1..] == Swapped(s[1..], i - 1) && t[0] == s[0];
    }
  }

  lemma SwapPermutes(s: seq<IPv4Number>, i: nat)
    requires i + 1 < |s|
    ensures Permutation(Swapped(s, i), s)
  {
  }

  lemma {:induction false} NeighboursAscend(s: seq<IPv4Number>)
    requires forall i :: 0 <= i < |s| - 1 ==> s[i] <= s[i + 1]
    ensures Ascending(s)
    decreases |s|
  {
    if |s| > 1 {
      var front := s[..|s| - 1];
      assert forall i :: 0 <= i < |front| - 1 ==> front[i] <= front[i + 1];
      NeighboursAscend(front);
      forall i, j | 0 <= i < j < |s|
        ensures s[i] <= s[j]
      {
        assert i < |front| && front[i] == s[i] && front[|front| - 1] == s[|s| - 2] && s[|s| - 2] <= s[|s| - 2 + 1];
        if j < |front| {
          assert front[j] == s[j];
        } else if i < |front| - 1 {
          assert front[i] <= front[|front| - 1];
        }
      }
    }
  }

  method Exchange(hosts: array<IPv4Number>, i: nat)
    requires i + 1 < hosts.Length
    modifies hosts
    ensures hosts[..] == Swapped(old(hosts[..]), i)
  {
    var addr := hosts[i];
    hosts[i] := hosts[i + 1];
    hosts[i + 1] := addr;
  }

  /** One pass over the neighbours: every exchange removes an inversion, and no exchange means the order is right. */
  method Pass(hosts: array<IPv4Number>) returns (changed: bool)
    modifies hosts
    ensures Permutation(hosts[..], old(hosts[..]))
    ensures changed ==> Inversions(hosts[..]) < Inversions(old(hosts[..]))
    ensures !changed ==> hosts[..] == old(hosts[..]) && Ascending(hosts[..])
  {
    hide Inversions, Swapped, Ascending;
    changed := false;
    var i := 0;
    while i < hosts.Length - 1
      invariant i == 0 || 0 <= i < hosts.Length
      invariant Permutation(hosts[..], old(hosts[..]))
      invariant changed ==> Inversions(hosts[..]) < Inversions(old(hosts[..]))
      invariant !changed ==> hosts[..] == old(hosts[..]) && forall k :: 0 <= k < i ==> hosts[..][k] <= hosts[..][k + 1]
    {
      if hosts[i] > hosts[i + 1] {
        SwapRemovesInversion(hosts[..], i);
        SwapPermutes(hosts[..], i);
        Exchange(hosts, i);
        changed := true;
      }
      i := i + 1;
    }
    if !changed {
      NeighboursAscend(hosts[..]);
    }
  }

  method SortHosts(hosts: array<IPv4Number>)
    modifies hosts
    ensures Ascending(hosts[..]) && Permutation(hosts[..], old(hosts[..]))
  {
    hide Inversions, Ascending;
    var changed := true;
    while changed
      invariant Permutation(hosts[..], old(hosts[..]))
      invariant !changed ==> Ascending(hosts[..])
      decreases Inversions(hosts[..]) + (if changed then 1 else 0)
    {
      changed := Pass(hosts);
    }
  }

  // ----- Numbering the slots -----

  /** What the server reports of a host: the names of its sources and destinations, and how many GPIs and GPOs. */
  datatype HostSlots = HostSlots(sources: seq<string>, destinations: seq<string>, gpis: nat, gpos: nat)

  function SlotNames(kind: RouterKind, e: End, h: HostSlots): seq<string> {
    match (kind, e)
    case (AudioRouter, Input) => h.sources
    case (AudioRouter, Output) => h.destinations
    case (GpioRouter, Input) => OutNames(h.gpis)
    case (GpioRouter, Output) => OutNames(h.gpos)
  }

  function OutNames(n: nat): seq<string> {
    seq(n, j requires 0 <= j < n => "OUT " + PrintNat(j + 1))
  }

  /** The names of the slots of each host. */
  type Plant = map<IPv4Number, HostSlots>

  predicate Reported(plant: Plant, hosts: seq<IPv4Number>) {
    forall i :: 0 <= i < |hosts| ==> hosts[i] in plant
  }

  function Ends(kind: RouterKind, e: End, plant: Plant, host: IPv4Number): seq<EndPoint>
    requires host in plant
  {
    var names := SlotNames(kind, e, plant[host]);
    seq(|names|, j requires 0 <= j < |names| => EndPoint(IPv4(host), j, names[j], true))
  }

  function Generated(kind: RouterKind, e: End, plant: Plant, hosts: seq<IPv4Number>): seq<EndPoint>
    requires Reported(plant, hosts)
  {
    if hosts == [] then []
    else Generated(kind, e, plant, hosts[..|hosts| - 1]) + Ends(kind, e, plant, hosts[|hosts| - 1])
  }

  /** Appends the slots of all hosts to one side of a map. */
  method AddEnds(m: EndPointMap, kind: RouterKind, e: End, plant: Plant, hosts: seq<IPv4Number>)
    requires m.Valid() && Reported(plant, hosts)
    modifies m
    ensures m.Valid()
    ensures m.Value() == old(m.Value()).WithEnds(e, old(m.Value().Ends(e)) + Generated(kind, e, plant, hosts))
  {
    hide Ends, EndPointMap.Value, Lists.Zipped;
    ghost var was := m.Value();
    for i := 0 to |hosts|
      invariant m.Valid()
      invariant m.Value() == was.WithEnds(e, was.Ends(e) + Generated(kind, e, plant, hosts[..i]))
    {
      assert hosts[..i + 1][..i] == hosts[..i];
      AddHost(m, kind, e, plant, hosts[i]);
    }
    assert hosts[..|hosts|] == hosts;
  }

  method AddHost(m: EndPointMap, kind: RouterKind, e: End, plant: Plant, host: IPv4Number)
    requires m.Valid() && host in plant
    modifies m
    ensures m.Valid()
    ensures m.Value() == old(m.Value()).WithEnds(e, old(m.Value().Ends(e)) + Ends(kind, e, plant, host))
  {
    hide SlotNames;
    var names := SlotNames(kind, e, plant[host]);
    ghost var was := m.Value();
    ghost var ends := Ends(kind, e, plant, host);
    for j := 0 to |names|
      invariant m.Valid()
      invariant m.Value() == was.WithEnds(e, was.Ends(e) + ends[..j])
    {
      ghost var before := m.Value().Ends(e);
      m.Insert(e, m.Value().Quantity(e), IPv4(host), j, names[j]);
      assert before[..|before|] == before && before[|before|..] == [];
      assert ends[..j + 1] == ends[..j] + [ends[j]];
    }
    assert ends[..|names|] == ends;
  }

  /** The whole generation, into a new map. */
  method Generate(
      m: EndPointMap, kind: RouterKind, plant: Plant,
      known: seq<IPv4Number>, asked: seq<IPv4Number>, skip: seq<IPv4Number>) returns (hosts: array<IPv4Number>)
    requires m.Valid() && m.Value().inputs == [] && m.Value().outputs == []
    requires Reported(plant, Selected(if |asked| > 0 then asked else known, skip))
    modifies m
    ensures Ascending(hosts[..]) && Permutation(hosts[..], Selected(if |asked| > 0 then asked else known, skip))
    ensures m.Valid() && Reported(plant, hosts[..])
    ensures m.Value() == old(m.Value()).(inputs := Generated(kind, Input, plant, hosts[..]),
                                         outputs := Generated(kind, Output, plant, hosts[..]))
  {
    hide Ascending, Generated, Selected;
    var selected := SelectHosts(known, asked, skip);
    hosts := new IPv4Number[|selected|](i requires 0 <= i < |selected| => selected[i]);
    assert hosts[..] == selected;
    SortHosts(hosts);
    PermutationReported(plant, selected, hosts[..]);
    AddEnds(m, kind, Input, plant, hosts[..]);
    AddEnds(m, kind, Output, plant, hosts[..]);
  }

  lemma PermutationReported(plant: Plant, s: seq<IPv4Number>, t: seq<IPv4Number>)
    requires Reported(plant, s) && Permutation(t, s)
    ensures Reported(plant, t)
  {
    forall i | 0 <= i < |t|
      ensures t[i] in plant
    {
      assert t[i] in multiset(t);
      assert t[i] in multiset(s);
    }
  }

  // ----- What the numbers mean -----

  predicate DistinctHosts(hosts: seq<IPv4Number>) {
    forall i, j :: 0 <= i < j < |hosts| ==> hosts[i] != hosts[j]
  }

  function Slots(kind: RouterKind, e: End, plant: Plant, host: IPv4Number): nat {
    if host in plant then |SlotNames(kind, e, plant[host])| else 0
  }

  /** The slots of all listed hosts with smaller addresses than `h`, in whatever order they are listed. */
  function SlotsBelow(kind: RouterKind, e: End, plant: Plant, hosts: seq<IPv4Number>, h: IPv4Number): nat {
    if hosts == [] then 0
    else
      var n := |hosts| - 1;
      SlotsBelow(kind, e, plant, hosts[..n], h) + if hosts[n] < h then Slots(kind, e, plant, hosts[n]) else 0
  }

  lemma {:induction false} FirstAtAppend(a: seq<EndPoint>, b: seq<EndPoint>, host: HostAddress, slot: int)
    ensures FirstAt(a + b, host, slot) ==
            if FirstAt(a, host, slot) >= 0 then FirstAt(a, host, slot)
            else if FirstAt(b, host, slot) >= 0 then |a| + FirstAt(b, host, slot)
            else -1
    decreases |a|
  {
    if a == [] {
      assert a + b == b;
    } else {
      assert (a + b)[1..] == a[1..] + b;
      FirstAtAppend(a[1..], b, host, slot);
    }
  }

  lemma SlotOfHost(kind: RouterKind, e: End, plant: Plant, host: IPv4Number, h: IPv4Number, j: int)
    requires host in plant
    ensures FirstAt(Ends(kind, e, plant, host), IPv4(h), j) ==
            if h == host && 0 <= j < Slots(kind, e, plant, host) then j else -1
  {
    hide SlotNames;
    var ends := Ends(kind, e, plant, host);
    if h == host && 0 <= j < |ends| {
      assert ends[j].At(IPv4(h), j);
    }
  }

  lemma {:induction false} GeneratedLength(
      kind: RouterKind, e: End, plant: Plant, hosts: seq<IPv4Number>, h: IPv4Number)
    requires Reported(plant, hosts) && forall i :: 0 <= i < |hosts| ==> hosts[i] < h
    ensures |Generated(kind, e, plant, hosts)| == SlotsBelow(kind, e, plant, hosts, h)
  {
    hide SlotNames;
    if hosts != [] {
      GeneratedLength(kind, e, plant, hosts[..|hosts| - 1], h);
    }
  }

  lemma {:induction false} NoneAbove(
      kind: RouterKind, e: End, plant: Plant, hosts: seq<IPv4Number>, h: IPv4Number, n: nat)
    requires n <= |hosts| && forall i :: n <= i < |hosts| ==> hosts[i] >= h
    ensures SlotsBelow(kind, e, plant, hosts, h) == SlotsBelow(kind, e, plant, hosts[..n], h)
    decreases |hosts|
  {
    hide SlotNames;
    if n < |hosts| {
      NoneAbove(kind, e, plant, hosts[..|hosts| - 1], h, n);
      assert hosts[..|hosts| - 1][..n] == hosts[..n];
    } else {
      assert hosts[..n] == hosts;
    }
  }

  /**
   * For hosts in ascending order without repetition, slot `j` of a host has the number of all slots of smaller
   * hosts plus `j`; what no listed host has is not in the map.
   */
  lemma {:induction false} NumberOfSlot(
      kind: RouterKind, e: End, plant: Plant, hosts: seq<IPv4Number>, h: IPv4Number, j: int)
    requires Reported(plant, hosts) && Ascending(hosts) && DistinctHosts(hosts)
    ensures FirstAt(Generated(kind, e, plant, hosts), IPv4(h), j) ==
            if h in hosts && 0 <= j < Slots(kind, e, plant, h) then SlotsBelow(kind, e, plant, hosts, h) + j else -1
    decreases |hosts|
  {
    hide Ends, Slots, Ascending, DistinctHosts, FirstAt;
    if hosts != [] {
      var n := |hosts| - 1;
      var front, last := hosts[..n], hosts[n];
      LastIsGreatest(hosts);
      NumberOfSlot(kind, e, plant, front, h, j);
      FirstAtAppend(Generated(kind, e, plant, front), Ends(kind, e, plant, last), IPv4(h), j);
      SlotOfHost(kind, e, plant, last, h, j);
      if h == last {
        GeneratedLength(kind, e, plant, front, h);
      }
    } else {
      NothingAt(IPv4(h), j);
    }
  }

  lemma NothingAt(host: HostAddress, slot: int)
    ensures FirstAt([], host, slot) == -1
  {
  }

  lemma LastIsGreatest(hosts: seq<IPv4Number>)
    requires hosts != [] && Ascending(hosts) && DistinctHosts(hosts)
    ensures var n := |hosts| - 1;
            && Ascending(hosts[..n]) && DistinctHosts(hosts[..n]) && hosts == hosts[..n] + [hosts[n]]
            && forall i :: 0 <= i < n ==> hosts[..n][i] < hosts[n]
  {
  }

  lemma {:induction false} SlotsBelowRemoved(
      kind: RouterKind, e: End, plant: Plant, s: seq<IPv4Number>, k: nat, h: IPv4Number)
    requires k < |s|
    ensures SlotsBelow(kind, e, plant, s, h) ==
            SlotsBelow(kind, e, plant, s[..k] + s[k + 1..], h) + if s[k] < h then Slots(kind, e, plant, s[k]) else 0
    decreases |s|
  {
    hide Slots;
    var n := |s| - 1;
    if k == n {
      assert s[..k] + s[k + 1..] == s[..n];
    } else {
      SlotsBelowRemoved(kind, e, plant, s[..n], k, h);
      assert (s[..k] + s[k + 1..])[..n - 1] == s[..n][..k] + s[..n][k + 1..];
    }
  }

  /** The sum does not depend on the order of the list. */
  lemma {:induction false} SlotsBelowPermutes(
      kind: RouterKind, e: End, plant: Plant, s: seq<IPv4Number>, t: seq<IPv4Number>, h: IPv4Number)
    requires Permutation(s, t)
    ensures SlotsBelow(kind, e, plant, s, h) == SlotsBelow(kind, e, plant, t, h)
    decreases |s|
  {
    hide Slots, Permutation;
    if s != [] {
      var k := SameWithoutLast(s, t);
      SlotsBelowPermutes(kind, e, plant, s[..|s| - 1], t[..k] + t[k + 1..], h);
      SlotsBelowRemoved(kind, e, plant, t, k, h);
    } else {
      EmptyPermutation(t);
    }
  }

  lemma EmptyPermutation(t: seq<IPv4Number>)
    requires Permutation([], t)
    ensures t == []
  {
    assert |multiset(t)| == |t|;
  }

  lemma OneTaken(s: seq<IPv4Number>, k: nat)
    requires k < |s|
    ensures multiset(s[..k] + s[k + 1..]) == multiset(s) - multiset{s[k]}
  {
    assert s == s[..k] + [s[k]] + s[k + 1..];
  }

  lemma SameWithoutLast(s: seq<IPv4Number>, t: seq<IPv4Number>) returns (k: nat)
    requires s != [] && Permutation(s, t)
    ensures k < |t| && t[k] == s[|s| - 1] && Permutation(s[..|s| - 1], t[..k] + t[k + 1..])
  {
    var n := |s| - 1;
    assert s[n] in multiset(s);
    assert s[n] in multiset(t);
    k :| 0 <= k < |t| && t[k] == s[n];
    OneTaken(s, n);
    OneTaken(t, k);
    assert s[..n] + s[n + 1..] == s[..n];
  }

  /**
   * The generated map: whatever the order in which the hosts were given, slot `j` of a selected host is numbered
   * by the slots of all smaller selected hosts plus `j`, and looking that number up gives host and slot back.
   */
  lemma GeneratedNumbers(
      kind: RouterKind, e: End, plant: Plant, selected: seq<IPv4Number>, sorted: seq<IPv4Number>, m: RouterMap,
      h: IPv4Number, j: nat)
    requires Reported(plant, sorted) && Ascending(sorted) && Permutation(sorted, selected) && DistinctHosts(sorted)
    requires m.Ends(e) == Generated(kind, e, plant, sorted)
    requires h in selected && j < Slots(kind, e, plant, h)
    ensures var n := SlotsBelow(kind, e, plant, selected, h) + j;
            && m.NumberOf(e, IPv4(h), j) == n
            && m.HostAt(e, n) == IPv4(h) && m.SlotAt(e, n) == j
  {
    hide Slots, Ascending, DistinctHosts, Generated, SlotsBelow;
    assert h in multiset(selected);
    assert h in multiset(sorted);
    NumberOfSlot(kind, e, plant, sorted, h, j);
    SlotsBelowPermutes(kind, e, plant, sorted, selected, h);
  }

  // ----- The four sides, from what the server reports -----

  function SourceCount(s: HostSlots): nat {
    |s.sources|
  }

  function DestinationCount(s: HostSlots): nat {
    |s.destinations|
  }

  function GpiCount(s: HostSlots): nat {
    s.gpis
  }

  function GpoCount(s: HostSlots): nat {
    s.gpos
  }

  /** What is counted of all listed hosts with smaller addresses than `h`. */
  function CountBelow(count: HostSlots -> nat, plant: Plant, hosts: seq<IPv4Number>, h: IPv4Number): nat
    requires Reported(plant, hosts)
  {
    if hosts == [] then 0
    else
      var n := |hosts| - 1;
      CountBelow(count, plant, hosts[..n], h) + if hosts[n] < h then count(plant[hosts[n]]) else 0
  }

  lemma {:induction false} BelowIsCounted(
      kind: RouterKind, e: End, plant: Plant, count: HostSlots -> nat, hosts: seq<IPv4Number>, h: IPv4Number)
    requires Reported(plant, hosts) && forall x :: x in plant ==> Slots(kind, e, plant, x) == count(plant[x])
    ensures SlotsBelow(kind, e, plant, hosts, h) == CountBelow(count, plant, hosts, h)
    decreases |hosts|
  {
    hide Slots;
    if hosts != [] {
      BelowIsCounted(kind, e, plant, count, hosts[..|hosts| - 1], h);
    }
  }

  /** One side of a map has exactly the counted slots of the selected hosts, in order of address and then of slot. */
  ghost predicate HasSide(
    m: RouterMap, e: End, plant: Plant, selected: seq<IPv4Number>, count: HostSlots -> nat, h: IPv4Number, j: int)
    requires Reported(plant, selected)
  {
    m.NumberOf(e, IPv4(h), j) ==
    if h in selected && 0 <= j < count(plant[h]) then CountBelow(count, plant, selected, h) + j else -1
  }

  lemma SideNumbers(
      kind: RouterKind, e: End, plant: Plant, selected: seq<IPv4Number>, sorted: seq<IPv4Number>, m: RouterMap,
      count: HostSlots -> nat, h: IPv4Number, j: int)
    requires Reported(plant, sorted) && Ascending(sorted) && Permutation(sorted, selected) && DistinctHosts(sorted)
    requires m.Ends(e) == Generated(kind, e, plant, sorted) && Reported(plant, selected)
    requires forall x :: x in plant ==> Slots(kind, e, plant, x) == count(plant[x])
    ensures HasSide(m, e, plant, selected, count, h, j)
    ensures h in selected && 0 <= j < count(plant[h]) ==>
              && m.NumberOf(e, IPv4(h), j) < |m.Ends(e)| && j < |Ends(kind, e, plant, h)|
              && m.Ends(e)[m.NumberOf(e, IPv4(h), j)] == Ends(kind, e, plant, h)[j]
  {
    hide Slots, Ascending, DistinctHosts, Generated, SlotsBelow, FirstAt, CountBelow, Ends;
    assert h in selected <==> h in sorted by {
      assert h in multiset(selected) <==> h in multiset(sorted);
    }
    NumberOfSlot(kind, e, plant, sorted, h, j);
    SlotsBelowPermutes(kind, e, plant, sorted, selected, h);
    BelowIsCounted(kind, e, plant, count, selected, h);
    if h in selected && 0 <= j < count(plant[h]) {
      EndAtNumber(kind, e, plant, sorted, h, j);
    }
  }

  lemma {:induction false} EndAtNumber(
      kind: RouterKind, e: End, plant: Plant, hosts: seq<IPv4Number>, h: IPv4Number, j: nat)
    requires Reported(plant, hosts) && Ascending(hosts) && DistinctHosts(hosts)
    requires h in hosts && j < Slots(kind, e, plant, h)
    ensures var n := FirstAt(Generated(kind, e, plant, hosts), IPv4(h), j);
            && 0 <= n < |Generated(kind, e, plant, hosts)| && j < |Ends(kind, e, plant, h)|
            && Generated(kind, e, plant, hosts)[n] == Ends(kind, e, plant, h)[j]
    decreases |hosts|
  {
    hide Ascending, DistinctHosts, FirstAt;
    var k := |hosts| - 1;
    var front, last := hosts[..k], hosts[k];
    LastIsGreatest(hosts);
    FirstAtAppend(Generated(kind, e, plant, front), Ends(kind, e, plant, last), IPv4(h), j);
    SlotOfHost(kind, e, plant, last, h, j);
    NumberOfSlot(kind, e, plant, front, h, j);
    if h != last {
      EndAtNumber(kind, e, plant, front, h, j);
    }
  }

  /**
   * The map that the generation leaves, from what the server reports: an audio router's inputs are the sources and its
   * outputs the destinations of the selected hosts, under their names; a GPIO router's are the GPIs and the GPOs,
   * named by number. Slot `j` of a host is numbered by the slots of its sort of the smaller hosts, and nothing else
   * has a number.
   */
  lemma GeneratedSides(
      kind: RouterKind, plant: Plant, selected: seq<IPv4Number>, sorted: seq<IPv4Number>, m: RouterMap,
      h: IPv4Number, j: int)
    requires Reported(plant, sorted) && Ascending(sorted) && Permutation(sorted, selected) && DistinctHosts(sorted)
    requires Reported(plant, selected) && m.inputs == Generated(kind, Input, plant, sorted)
    requires m.outputs == Generated(kind, Output, plant, sorted)
    ensures kind == AudioRouter ==>
              && HasSide(m, Input, plant, selected, SourceCount, h, j)
              && (h in selected && 0 <= j < |plant[h].sources| ==>
                    m.inputs[m.NumberOf(Input, IPv4(h), j)] == EndPoint(IPv4(h), j, plant[h].sources[j], true))
              && HasSide(m, Output, plant, selected, DestinationCount, h, j)
              && (h in selected && 0 <= j < |plant[h].destinations| ==>
                    m.outputs[m.NumberOf(Output, IPv4(h), j)] == EndPoint(IPv4(h), j, plant[h].destinations[j], true))
    ensures kind == GpioRouter ==>
              && HasSide(m, Input, plant, selected, GpiCount, h, j)
              && (h in selected && 0 <= j < plant[h].gpis ==>
                    m.inputs[m.NumberOf(Input, IPv4(h), j)] == EndPoint(IPv4(h), j, "OUT " + PrintNat(j + 1), true))
              && HasSide(m, Output, plant, selected, GpoCount, h, j)
              && (h in selected && 0 <= j < plant[h].gpos ==>
                    m.outputs[m.NumberOf(Output, IPv4(h), j)] == EndPoint(IPv4(h), j, "OUT " + PrintNat(j + 1), true))
  {
    hide Ascending, DistinctHosts, Permutation, Generated, CountBelow, FirstAt, PrintNat;
    if kind == AudioRouter {
      SideNumbers(kind, Input, plant, selected, sorted, m, SourceCount, h, j);
      SideNumbers(kind, Output, plant, selected, sorted, m, DestinationCount, h, j);
    } else {
      SideNumbers(kind, Input, plant, selected, sorted, m, GpiCount, h, j);
      SideNumbers(kind, Output, plant, selected, sorted, m, GpoCount, h, j);
    }
  }

  /** Every number of the generated map is the number of its own host and slot. */
  lemma EveryNumberEffective(kind: RouterKind, e: End, plant: Plant, hosts: seq<IPv4Number>, m: RouterMap, n: nat)
    requires Reported(plant, hosts) && Ascending(hosts) && DistinctHosts(hosts)
    requires m.Ends(e) == Generated(kind, e, plant, hosts) && n < m.Quantity(e)
    ensures m.Effective(e, n)
  {
    hide Ascending, DistinctHosts;
    EachFirst(kind, e, plant, hosts, n);
  }

  lemma {:induction false} EachFirst(kind: RouterKind, e: End, plant: Plant, hosts: seq<IPv4Number>, n: nat)
    requires Reported(plant, hosts) && Ascending(hosts) && DistinctHosts(hosts)
    requires n < |Generated(kind, e, plant, hosts)|
    ensures var p := Generated(kind, e, plant, hosts)[n];
            FirstAt(Generated(kind, e, plant, hosts), p.host, p.slot) == n
    decreases |hosts|
  {
    hide SlotNames;
    var k := |hosts| - 1;
    var front, last := hosts[..k], hosts[k];
    var a := Generated(kind, e, plant, front);
    var b := Ends(kind, e, plant, last);
    var p: EndPoint := (a + b)[n];
    FirstAtAppend(a, b, p.host, p.slot);
    if n < |a| {
      EachFirst(kind, e, plant, front, n);
    } else {
      assert p.host == IPv4(last) && p.slot == n - |a|;
      SlotOfHost(kind, e, plant, last, last, n - |a|);
      NumberOfSlot(kind, e, plant, front, last, n - |a|);
      assert last !in front;
    }
  }
}
