/** Router maps: the numbered inputs and outputs of a virtual router, each naming one slot of one host. */
module EndPointMaps {
  import opened Addresses

  datatype RouterKind = AudioRouter | GpioRouter

  datatype End = Input | Output

  datatype EndPoint = EndPoint(host: HostAddress, slot: int, name: string, custom: bool) {
    predicate At(h: HostAddress, s: int) {
      host == h && slot == s
    }
  }

  datatype Route = Route(output: int, input: int)

  datatype Snapshot = Snapshot(name: string, routes: seq<Route>)

  /** The number of the first end point at that host and slot, or -1. */
  function FirstAt(ends: seq<EndPoint>, host: HostAddress, slot: int): (n: int)
    ensures -1 <= n < |ends|
    ensures n >= 0 ==> ends[n].At(host, slot) && forall i :: 0 <= i < n ==> !ends[i].At(host, slot)
    ensures n < 0 ==> forall i :: 0 <= i < |ends| ==> !ends[i].At(host, slot)
  {
    if ends == [] then -1
    else if ends[0].At(host, slot) then 0
    else
      var n := FirstAt(ends[1..], host, slot);
      if n < 0 then -1 else n + 1
  }

  datatype RouterMap = RouterMap(
    kind: RouterKind, name: string, number: int, inputs: seq<EndPoint>, outputs: seq<EndPoint>,
    snapshots: seq<Snapshot>)
  {
    function Ends(e: End): seq<EndPoint> {
      if e == Input then inputs else outputs
    }

    function WithEnds(e: End, ends: seq<EndPoint>): (m: RouterMap)
      ensures m.Ends(e) == ends && m == this.(inputs := m.inputs, outputs := m.outputs)
      ensures forall other :: other != e ==> m.Ends(other) == Ends(other)
    {
      if e == Input then this.(inputs := ends) else this.(outputs := ends)
    }

    function Quantity(e: End): nat {
      |Ends(e)|
    }

    function HostAt(e: End, n: nat): HostAddress {
      if n < |Ends(e)| then Ends(e)[n].host else Null
    }

    function SlotAt(e: End, n: nat): int {
      if n < |Ends(e)| then Ends(e)[n].slot else -1
    }

    function NumberOf(e: End, host: HostAddress, slot: int): int {
      FirstAt(Ends(e), host, slot)
    }

    /** Entry `n` is the first, hence the effective, entry for its slot. */
    predicate Effective(e: End, n: nat) {
      n < Quantity(e) && NumberOf(e, HostAt(e, n), SlotAt(e, n)) == n
    }
  }

  /** The four parallel lists kept for one kind of end point. */
  datatype Lists = Lists(hosts: seq<HostAddress>, slots: seq<int>, names: seq<string>, customs: seq<bool>) {
    predicate Aligned() {
      |hosts| == |slots| == |names| == |customs|
    }

    function Zipped(): seq<EndPoint>
      requires Aligned()
    {
      seq(|hosts|, i requires 0 <= i < |hosts| => EndPoint(hosts[i], slots[i], names[i], customs[i]))
    }

    function Insert(n: nat, host: HostAddress, slot: int, name: string): Lists
      requires Aligned() && n <= |hosts|
    {
      Lists(hosts[..n] + [host] + hosts[n..], slots[..n] + [slot] + slots[n..],
            names[..n] + [name] + names[n..], customs[..n] + [true] + customs[n..])
    }
  }

  const NO_ENDS := Lists([], [], [], [])

  lemma InsertZips(l: Lists, n: nat, host: HostAddress, slot: int, name: string)
    requires l.Aligned() && n <= |l.hosts|
    ensures l.Insert(n, host, slot, name).Aligned()
    ensures l.Insert(n, host, slot, name).Zipped() ==
            l.Zipped()[..n] + [EndPoint(host, slot, name, true)] + l.Zipped()[n..]
  {
  }

  class EndPointMap {
    var routerType: RouterKind
    var routerName: string
    var routerNumber: int
    var inputs: Lists
    var outputs: Lists
    var snapshots: seq<Snapshot>

    ghost predicate Valid()
      reads this
    {
      inputs.Aligned() && outputs.Aligned()
    }

    function Value(): RouterMap
      requires Valid()
      reads this
    {
      RouterMap(routerType, routerName, routerNumber, inputs.Zipped(), outputs.Zipped(), snapshots)
    }

    constructor ()
      ensures Valid() && Value() == RouterMap(AudioRouter, "Livewire", 0, [], [], [])
    {
      routerType, routerName, routerNumber := AudioRouter, "Livewire", 0;
      inputs, outputs, snapshots := NO_ENDS, NO_ENDS, [];
    }

    method Insert(e: End, n: nat, host: HostAddress, slot: int, name: string)
      requires Valid() && n <= Value().Quantity(e)
      modifies this
      ensures Valid()
      ensures var ends := old(Value().Ends(e));
              Value() == old(Value()).WithEnds(e, ends[..n] + [EndPoint(host, slot, name, true)] + ends[n..])
    {
      if e == Input {
        InsertZips(inputs, n, host, slot, name);
        inputs := inputs.Insert(n, host, slot, name);
      } else {
        InsertZips(outputs, n, host, slot, name);
        outputs := outputs.Insert(n, host, slot, name);
      }
    }

    method FindEndPoint(e: End, host: HostAddress, slot: int) returns (n: int)
      requires Valid()
      ensures n == Value().NumberOf(e, host, slot)
    {
      var lists := if e == Input then inputs else outputs;
      for i := 0 to |lists.hosts|
        invariant forall k :: 0 <= k < i ==> !Value().Ends(e)[k].At(host, slot)
      {
        if lists.hosts[i] == host && lists.slots[i] == slot {
          assert Value().Ends(e)[i].At(host, slot);
          return i;
        }
      }
      return -1;
    }
  }
}
