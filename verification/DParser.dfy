/** The C++ client of Protocol D: a replica of three tables, kept by index. */
module DParserClient {
  import opened Addresses
  import opened Text
  import opened Lines
  import opened RoutingTables
  import opened Ipc
  import opened Replication
  import opened ProtocolD
  import opened ProtocolDText

  // ----- Indexes -----

  const INDEX_LIMIT: nat := 0x1_0000_0000_0000_0000

  /** A host and slot in one 64-bit number; a negative slot wraps around. */
  function ToIndex(host: IPv4Number, slot: int): (index: nat)
    ensures index < INDEX_LIMIT
  {
    (host * 0x1_0000_0000 + slot) % INDEX_LIMIT
  }

  function ToAddress(index: nat): HostAddress
    requires index < INDEX_LIMIT
  {
    IPv4(index / 0x1_0000_0000)
  }

  /** The lower half, read as a signed 32-bit number. */
  function ToSlot(index: nat): (slot: int)
    ensures -0x8000_0000 <= slot < 0x8000_0000
  {
    var low := index % 0x1_0000_0000;
    if low < 0x8000_0000 then low else low - 0x1_0000_0000
  }

  lemma IndexReadsBack(host: IPv4Number, slot: int)
    requires IsSlot(slot)
    ensures ToAddress(ToIndex(host, slot)) == IPv4(host) && ToSlot(ToIndex(host, slot)) == slot
  {
  }

  /** Every index whose slot half is not negative comes from its own address and slot. */
  lemma IndexIsItsParts(index: nat)
    requires index < INDEX_LIMIT && ToSlot(index) >= 0
    ensures ToIndex(ToAddress(index).number, ToSlot(index)) == index
  {
  }

  // ----- The replica -----

  datatype SourceEntry = SourceEntry(stream: HostAddress, name: string, enabled: bool, channels: nat, packetSize: nat)

  datatype DestinationEntry = DestinationEntry(stream: HostAddress, name: string, channels: nat)

  /** Looking up a missing entry leaves a null one behind, as the map type does. */
  datatype Replica = Replica(
    nodes: map<nat, Option<NodeInfo>>, sources: map<nat, Option<SourceEntry>>,
    destinations: map<nat, Option<DestinationEntry>>)

  const EMPTY_REPLICA := Replica(map[], map[], map[])

  function EntryStep<V>(m: map<nat, Option<V>>, op: Op<nat, V>): map<nat, Option<V>> {
    var known := op.key in m && m[op.key].Some?;
    match op
    case Add(i, v) => if known then m else m[i := Some(v)]
    case Change(i, v) => if known then m[i := Some(v)] else m[i := None]
    case Remove(i) => if known then map j | j in m && j != i :: m[j] else m[i := None]
  }

  function SourceOf(c: SourceColumns): SourceEntry {
    SourceEntry(c.link, c.data.name, c.data.enabled, c.data.channels, c.data.blockSize)
  }

  function DestinationOf(c: DestinationColumns): DestinationEntry {
    DestinationEntry(c.link, c.data.name, c.data.channels)
  }

  function Recoded<K, V, W>(op: Op<K, V>, index: K -> nat, entry: V -> W): Op<nat, W> {
    match op
    case Add(k, v) => Add(index(k), entry(v))
    case Change(k, v) => Change(index(k), entry(v))
    case Remove(k) => Remove(index(k))
  }

  function IndexOf(key: Key): nat {
    ToIndex(key.host, key.slot)
  }

  function HostOf(host: IPv4Number): nat {
    host
  }

  function Same(n: NodeInfo): NodeInfo {
    n
  }

  /** Changes of nodes are not understood by this client, nor are GPIs and GPOs. */
  function Replayed(r: Replica, m: Message): Replica {
    match m
    case Node(op) => if op.Change? then r else r.(nodes := EntryStep(r.nodes, Recoded(op, HostOf, Same)))
    case Source(op) => r.(sources := EntryStep(r.sources, Recoded(op, IndexOf, SourceOf)))
    case Destination(op) => r.(destinations := EntryStep(r.destinations, Recoded(op, IndexOf, DestinationOf)))
    case _ => r
  }

  function ReplayedAll(r: Replica, ms: seq<Message>): Replica {
    if ms == [] then r else Replayed(ReplayedAll(r, ms[..|ms| - 1]), ms[|ms| - 1])
  }

  lemma {:induction false} ReplayedAppend(r: Replica, a: seq<Message>, b: seq<Message>)
    ensures ReplayedAll(r, a + b) == ReplayedAll(ReplayedAll(r, a), b)
    decreases |b|
  {
    hide Replayed;
    if b == [] {
      assert a + b == a;
    } else {
      assert (a + b)[..|a + b| - 1] == a + b[..|b| - 1];
      ReplayedAppend(r, a, b[..|b| - 1]);
    }
  }

  // ----- The client -----

  class DParser {
    var nodes: map<nat, Option<NodeInfo>>
    var sources: map<nat, Option<SourceEntry>>
    var destinations: map<nat, Option<DestinationEntry>>
    var accum: string
    var connected: bool

    ghost function State(): Replica
      reads this
    {
      Replica(nodes, sources, destinations)
    }

    constructor ()
      ensures State() == EMPTY_REPLICA && accum == "" && !connected
    {
      nodes, sources, destinations, accum, connected := map[], map[], map[], "", false;
    }

    method ProcessCommand(text: string)
      modifies `nodes, `sources, `destinations, `connected
      ensures State() == match ParseMessage(text) case None => old(State()) case Some(m) => Replayed(old(State()), m)
      ensures connected == (old(connected) || ParseMessage(text) == Some(Pong))
    {
      match ParseMessage(text) {
        case None =>
        case Some(m) =>
          match m {
            case Node(op) =>
              if !op.Change? {
                nodes := EntryStep(nodes, Recoded(op, HostOf, Same));
              }
            case Source(op) => sources := EntryStep(sources, Recoded(op, IndexOf, SourceOf));
            case Destination(op) => destinations := EntryStep(destinations, Recoded(op, IndexOf, DestinationOf));
            case GpiPort(_) =>
            case GpoPort(_) =>
            case Ok =>
            case Pong => connected := true;
          }
      }
    }

    method ReadyRead(data: string)
      modifies `nodes, `sources, `destinations, `connected, `accum
      ensures var (rest, lines) := Fed(old(accum), data);
              accum == rest && State() == ReplayedAll(old(State()), Understood(lines))
    {
      hide Fed, ReplayedAll, Replayed, Understood, ParseMessage;
      ghost var lines: seq<string> := [];
      NothingFed(accum);
      NothingUnderstood(State());
      for i := 0 to |data|
        invariant Fed(old(accum), data[..i]) == (accum, lines)
        invariant State() == ReplayedAll(old(State()), Understood(lines))
      {
        FedByte(old(accum), data[..i], data[i]);
        assert data[..i + 1] == data[..i] + [data[i]];
        match data[i] {
          case '\r' =>
            OneMoreLine(old(State()), lines, accum);
            lines := lines + [accum];
            ProcessCommand(accum);
            accum := "";
          case '\n' =>
          case c => accum := accum + [c];
        }
      }
      assert data[..|data|] == data;
    }

    /** A silent connection is dropped with everything learned from it, except an unfinished line. */
    method WatchdogTimeout()
      modifies `nodes, `sources, `destinations, `connected
      ensures State() == EMPTY_REPLICA && !connected
    {
      destinations := map[];
      sources := map[];
      nodes := map[];
      connected := false;
    }
  }

  lemma NothingUnderstood(r: Replica)
    ensures Understood([]) == [] && ReplayedAll(r, []) == r
  {
  }

  lemma OneMoreLine(r: Replica, lines: seq<string>, line: string)
    ensures ReplayedAll(r, Understood(lines + [line])) ==
            match ParseMessage(line)
            case None => ReplayedAll(r, Understood(lines))
            case Some(m) => Replayed(ReplayedAll(r, Understood(lines)), m)
  {
    hide Replayed, ParseMessage;
    assert (lines + [line])[..|lines|] == lines;
    match ParseMessage(line)
    case None => assert Understood(lines) + [] == Understood(lines);
    case Some(m) => assert (Understood(lines) + [m])[..|Understood(lines)|] == Understood(lines);
  }

  // ----- Batches, table by table -----

  function EntriesAfter<K, V, W>(
      m: map<nat, Option<W>>, ops: seq<Op<K, V>>, index: K -> nat, entry: V -> W): map<nat, Option<W>> {
    if ops == [] then m
    else EntryStep(EntriesAfter(m, ops[..|ops| - 1], index, entry), Recoded(ops[|ops| - 1], index, entry))
  }

  lemma {:induction false} SourcesReplay(r: Replica, ops: seq<Op<Key, SourceColumns>>)
    ensures ReplayedAll(r, Sources(ops)) == r.(sources := EntriesAfter(r.sources, ops, IndexOf, SourceOf))
  {
    hide EntryStep, Recoded;
    if ops != [] {
      SourcesReplay(r, ops[..|ops| - 1]);
      assert Sources(ops)[..|ops| - 1] == Sources(ops[..|ops| - 1]);
    }
  }

  lemma {:induction false} DestinationsReplay(r: Replica, ops: seq<Op<Key, DestinationColumns>>)
    ensures ReplayedAll(r, Destinations(ops)) ==
            r.(destinations := EntriesAfter(r.destinations, ops, IndexOf, DestinationOf))
  {
    hide EntryStep, Recoded;
    if ops != [] {
      DestinationsReplay(r, ops[..|ops| - 1]);
      assert Destinations(ops)[..|ops| - 1] == Destinations(ops[..|ops| - 1]);
    }
  }

  ghost predicate NoChanges<K, V>(ops: seq<Op<K, V>>) {
    forall i :: 0 <= i < |ops| ==> !ops[i].Change?
  }

  lemma {:induction false} NodesReplay(r: Replica, ops: seq<Op<IPv4Number, NodeInfo>>)
    requires NoChanges(ops)
    ensures ReplayedAll(r, Nodes(ops)) == r.(nodes := EntriesAfter(r.nodes, ops, HostOf, Same))
  {
    hide EntryStep, Recoded;
    if ops != [] {
      NodesReplay(r, ops[..|ops| - 1]);
      assert Nodes(ops)[..|ops| - 1] == Nodes(ops[..|ops| - 1]);
    }
  }

  lemma {:induction false} PortsIgnored(r: Replica, gpis: seq<Op<Key, GpiColumns>>, gpos: seq<Op<Key, GpoColumns>>)
    ensures ReplayedAll(r, GpiPorts(gpis)) == r && ReplayedAll(r, GpoPorts(gpos)) == r
    decreases |gpis| + |gpos|
  {
    hide EntryStep, Recoded;
    if gpis != [] {
      PortsIgnored(r, gpis[..|gpis| - 1], gpos);
      assert GpiPorts(gpis)[..|gpis| - 1] == GpiPorts(gpis[..|gpis| - 1]);
    } else if gpos != [] {
      PortsIgnored(r, gpis, gpos[..|gpos| - 1]);
      assert GpoPorts(gpos)[..|gpos| - 1] == GpoPorts(gpos[..|gpos| - 1]);
    }
  }

  function BatchReplayed(r: Replica, b: Batch): Replica {
    Replica(EntriesAfter(r.nodes, b.nodes, HostOf, Same), EntriesAfter(r.sources, b.sources, IndexOf, SourceOf),
            EntriesAfter(r.destinations, b.destinations, IndexOf, DestinationOf))
  }

  lemma WrittenReplay(r: Replica, b: Batch)
    requires NoChanges(b.nodes)
    ensures ReplayedAll(r, Written(b)) == BatchReplayed(r, b)
  {
    hide ReplayedAll, EntriesAfter;
    ReplayedAppend(r, GpoPorts(b.gpos) + GpiPorts(b.gpis) + Destinations(b.destinations) + Sources(b.sources),
                   Nodes(b.nodes));
    ReplayedAppend(r, GpoPorts(b.gpos) + GpiPorts(b.gpis) + Destinations(b.destinations), Sources(b.sources));
    ReplayedAppend(r, GpoPorts(b.gpos) + GpiPorts(b.gpis), Destinations(b.destinations));
    ReplayedAppend(r, GpoPorts(b.gpos), GpiPorts(b.gpis));
    PortsIgnored(r, b.gpis, b.gpos);
    DestinationsReplay(r, b.destinations);
    var r1 := ReplayedAll(r, Destinations(b.destinations));
    SourcesReplay(r1, b.sources);
    NodesReplay(ReplayedAll(r1, Sources(b.sources)), b.nodes);
  }

  lemma {:induction false} EntriesAppend<K, V, W>(
      m: map<nat, Option<W>>, a: seq<Op<K, V>>, b: seq<Op<K, V>>, index: K -> nat, entry: V -> W)
    ensures EntriesAfter(m, a + b, index, entry) == EntriesAfter(EntriesAfter(m, a, index, entry), b, index, entry)
    decreases |b|
  {
    hide EntryStep, Recoded;
    if b == [] {
      assert a + b == a;
    } else {
      assert (a + b)[..|a + b| - 1] == a + b[..|b| - 1];
      EntriesAppend(m, a, b[..|b| - 1], index, entry);
    }
  }

  // ----- The replica mirrors the view -----

  /** An entry for every row and no other entry, not even a null one. */
  ghost predicate Mirrors<K(!new), V, W>(m: map<nat, Option<W>>, view: map<K, V>, index: K -> nat, entry: V -> W) {
    && (forall k :: k in view ==> index(k) in m && m[index(k)] == Some(entry(view[k])))
    && (forall i :: i in m ==> exists k :: k in view && index(k) == i)
  }

  /** Distinct keys, as far as they occur, have distinct indexes. */
  ghost predicate Coded<K(!new)>(index: K -> nat, good: K -> bool) {
    forall j, k :: good(j) && good(k) && index(j) == index(k) ==> j == k
  }

  lemma MirrorStep<K(!new), V, W>(
      m: map<nat, Option<W>>, view: map<K, V>, op: Op<K, V>, index: K -> nat, entry: V -> W, good: K -> bool)
    requires Mirrors(m, view, index, entry) && Known(view, op)
    requires Coded(index, good) && good(op.key) && forall k :: k in view ==> good(k)
    ensures Mirrors(EntryStep(m, Recoded(op, index, entry)), Taken(view, op, false), index, entry)
    ensures forall k :: k in Taken(view, op, false) ==> good(k)
  {
    var n, next := EntryStep(m, Recoded(op, index, entry)), Taken(view, op, false);
    forall i | i in n
      ensures exists k :: k in next && index(k) == i
    {
      if i == index(op.key) {
        assert op.key in next;
      } else {
        var k :| k in view && index(k) == i;
        assert k in next;
      }
    }
  }

  ghost predicate GoodKeys<K, V>(ops: seq<Op<K, V>>, good: K -> bool) {
    forall i :: 0 <= i < |ops| ==> good(ops[i].key)
  }

  lemma {:induction false} MirrorReplay<K(!new), V, W>(
      m: map<nat, Option<W>>, view: map<K, V>, ops: seq<Op<K, V>>, index: K -> nat, entry: V -> W, good: K -> bool)
    requires Mirrors(m, view, index, entry) && KnownAll(view, ops, false)
    requires Coded(index, good) && GoodKeys(ops, good) && forall k :: k in view ==> good(k)
    ensures Mirrors(EntriesAfter(m, ops, index, entry), TakenAll(view, ops, false), index, entry)
    ensures forall k :: k in TakenAll(view, ops, false) ==> good(k)
    decreases |ops|
  {
    hide Mirrors, Coded, Known, Taken, EntryStep, Recoded;
    if ops != [] {
      MirrorStep(m, view, ops[0], index, entry, good);
      MirrorReplay(EntryStep(m, Recoded(ops[0], index, entry)), Taken(view, ops[0], false), ops[1..], index, entry,
                   good);
      EntriesAppend(m, [ops[0]], ops[1..], index, entry);
      assert [ops[0]] + ops[1..] == ops;
      OneEntry(m, ops[0], index, entry);
    }
  }

  lemma OneEntry<K, V, W>(m: map<nat, Option<W>>, op: Op<K, V>, index: K -> nat, entry: V -> W)
    ensures EntriesAfter(m, [op], index, entry) == EntryStep(m, Recoded(op, index, entry))
  {
  }
}
