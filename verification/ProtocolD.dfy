/** The Protocol D server: what it tells its subscribers, and that replaying it reproduces the tables. */
module ProtocolD {
  import opened Addresses
  import opened RoutingTables
  import opened RoutingDatabase
  import opened Ipc
  import opened Replication

  // ----- Messages -----

  datatype Columns<L, D> = Columns(link: L, data: D)

  /** The columns of a NODES row that subscribers see. */
  datatype NodeInfo = NodeInfo(
    hostName: string, deviceName: string, sources: nat, destinations: nat, gpis: nat, gpos: nat)

  type SourceColumns = Columns<HostAddress, SourceData>
  type DestinationColumns = Columns<HostAddress, DestinationData>
  type GpiColumns = Columns<(), GpiData>
  type GpoColumns = Columns<GpoLink, GpoData>

  datatype Message =
    | Node(node: Op<IPv4Number, NodeInfo>)
    | Source(source: Op<Key, SourceColumns>)
    | Destination(destination: Op<Key, DestinationColumns>)
    | GpiPort(gpi: Op<Key, GpiColumns>)
    | GpoPort(gpo: Op<Key, GpoColumns>)
    | Ok
    | Pong

  // ----- The tables as subscribers see them: LWRP nodes only -----

  predicate Lwrp(nodes: map<IPv4Number, NodeRow>, host: IPv4Number) {
    host in nodes && nodes[host].matrixType == LwrpMatrix
  }

  function InfoOf(n: NodeRow): NodeInfo {
    NodeInfo(n.hostName, n.deviceName, n.sources, n.destinations, n.gpis, n.gpos)
  }

  function NodesSeen(nodes: map<IPv4Number, NodeRow>): map<IPv4Number, NodeInfo> {
    map h | h in nodes && Lwrp(nodes, h) :: InfoOf(nodes[h])
  }

  function RowsSeen<L, D>(t: Table<L, D>, nodes: map<IPv4Number, NodeRow>): map<Key, Columns<L, D>> {
    map k | k in t.rows && Lwrp(nodes, k.host) :: Columns(t.rows[k].link, t.rows[k].data)
  }

  /** All that a full subscription shows. */
  datatype View = View(
    nodes: map<IPv4Number, NodeInfo>, sources: map<Key, SourceColumns>, destinations: map<Key, DestinationColumns>,
    gpis: map<Key, GpiColumns>, gpos: map<Key, GpoColumns>)

  const NO_VIEW := View(map[], map[], map[], map[], map[])

  function Seen(db: Database): View {
    View(NodesSeen(db.nodes), RowsSeen(db.sources, db.nodes), RowsSeen(db.destinations, db.nodes),
         RowsSeen(db.gpis, db.nodes), RowsSeen(db.gpos, db.nodes))
  }

  // ----- What the server writes -----

  datatype Subscriptions = Subscriptions(nodes: bool, sources: bool, destinations: bool, gpis: bool, gpos: bool)

  const UNSUBSCRIBED := Subscriptions(false, false, false, false, false)

  /** The rows of one host in order of slot, as additions. */
  function HostAdds<L, D>(t: Table<L, D>, host: IPv4Number, n: nat): seq<Op<Key, Columns<L, D>>> {
    if n == 0 then []
    else
      var key := Key(host, n - 1);
      HostAdds(t, host, n - 1) + (if key in t.rows then [Add(key, Columns(t.rows[key].link, t.rows[key].data))] else [])
  }

  function HostRemoves<V>(host: IPv4Number, n: nat): seq<Op<Key, V>> {
    if n == 0 then [] else HostRemoves(host, n - 1) + [Remove(Key(host, n - 1))]
  }

  function RowChange<L, D>(t: Table<L, D>, nodes: map<IPv4Number, NodeRow>, key: Key): seq<Op<Key, Columns<L, D>>> {
    if key in t.rows && Lwrp(nodes, key.host) then [Change(key, Columns(t.rows[key].link, t.rows[key].data))] else []
  }

  function Sources(ops: seq<Op<Key, SourceColumns>>): seq<Message> {
    seq(|ops|, i requires 0 <= i < |ops| => Source(ops[i]))
  }

  function Destinations(ops: seq<Op<Key, DestinationColumns>>): seq<Message> {
    seq(|ops|, i requires 0 <= i < |ops| => Destination(ops[i]))
  }

  function GpiPorts(ops: seq<Op<Key, GpiColumns>>): seq<Message> {
    seq(|ops|, i requires 0 <= i < |ops| => GpiPort(ops[i]))
  }

  function GpoPorts(ops: seq<Op<Key, GpoColumns>>): seq<Message> {
    seq(|ops|, i requires 0 <= i < |ops| => GpoPort(ops[i]))
  }

  /** Messages sorted into the five tables. */
  datatype Batch = Batch(
    nodes: seq<Op<IPv4Number, NodeInfo>>, sources: seq<Op<Key, SourceColumns>>,
    destinations: seq<Op<Key, DestinationColumns>>, gpis: seq<Op<Key, GpiColumns>>, gpos: seq<Op<Key, GpoColumns>>)

  const NOTHING := Batch([], [], [], [], [])

  function Nodes(ops: seq<Op<IPv4Number, NodeInfo>>): seq<Message> {
    seq(|ops|, i requires 0 <= i < |ops| => Node(ops[i]))
  }

  function Subscribed(subs: Subscriptions, b: Batch): Batch {
    Batch(if subs.nodes then b.nodes else [], if subs.sources then b.sources else [],
          if subs.destinations then b.destinations else [], if subs.gpis then b.gpis else [],
          if subs.gpos then b.gpos else [])
  }

  /** The order in which a removal is written: node last. */
  function Written(b: Batch): seq<Message> {
    GpoPorts(b.gpos) + GpiPorts(b.gpis) + Destinations(b.destinations) + Sources(b.sources) + Nodes(b.nodes)
  }

  // ----- What the handler asks the database -----

  datatype Subject = NodesSubject | SourcesSubject | DestinationsSubject | GpisSubject | GposSubject

  /** One select: all rows of a host, one row, or, for a removal, whether the node is there. */
  datatype Query =
    | AllOf(subject: Subject, host: IPv4Number)
    | RowOf(subject: Subject, host: IPv4Number, slot: nat)
    | Removal(host: IPv4Number, counts: Counts)

  function Positive(n: int): nat {
    if n < 0 then 0 else n
  }

  function HostQueries(host: IPv4Number): seq<Query> {
    [AllOf(NodesSubject, host), AllOf(SourcesSubject, host), AllOf(DestinationsSubject, host),
     AllOf(GpisSubject, host), AllOf(GposSubject, host)]
  }

  /**
   * The selects a notice leads to, in order. The handling of NODEADD is written twice; crosspoint and code notices
   * are for the Software Authority handler.
   */
  function Queries(n: Notice): seq<Query> {
    match n
    case Tether(_) => []
    case NodeAdd(h) => HostQueries(Number(h)) + HostQueries(Number(h))
    case NodeDel(h, a, b, c, d) => [Removal(Number(h), Counts(Positive(a), Positive(b), Positive(c), Positive(d)))]
    case Slot(topic, h, s) =>
      if s < 0 then []
      else
        match topic
        case Src => [RowOf(SourcesSubject, Number(h), s)]
        case Dst => [RowOf(DestinationsSubject, Number(h), s)]
        case Gpi => [RowOf(GpisSubject, Number(h), s)]
        case Gpo => [RowOf(GposSubject, Number(h), s)]
        case _ => []
  }

  function QueriesAll(ns: seq<Notice>): seq<Query>
    decreases |ns|
  {
    if ns == [] then [] else Queries(ns[0]) + QueriesAll(ns[1..])
  }

  lemma {:induction false} QueriesAppend(a: seq<Notice>, b: seq<Notice>)
    ensures QueriesAll(a + b) == QueriesAll(a) + QueriesAll(b)
    decreases |a|
  {
    hide Queries;
    if a == [] {
      assert a + b == b;
    } else {
      assert (a + b)[1..] == a[1..] + b;
      QueriesAppend(a[1..], b);
    }
  }

  function HostBatch(db: Database, subject: Subject, host: IPv4Number): Batch
    requires host in db.nodes
  {
    var n := db.nodes[host];
    match subject
    case NodesSubject => NOTHING.(nodes := [Add(host, InfoOf(n))])
    case SourcesSubject => NOTHING.(sources := HostAdds(db.sources, host, n.sources))
    case DestinationsSubject => NOTHING.(destinations := HostAdds(db.destinations, host, n.destinations))
    case GpisSubject => NOTHING.(gpis := HostAdds(db.gpis, host, n.gpis))
    case GposSubject => NOTHING.(gpos := HostAdds(db.gpos, host, n.gpos))
  }

  function RowBatch(db: Database, subject: Subject, key: Key): Batch {
    match subject
    case NodesSubject => NOTHING
    case SourcesSubject => NOTHING.(sources := RowChange(db.sources, db.nodes, key))
    case DestinationsSubject => NOTHING.(destinations := RowChange(db.destinations, db.nodes, key))
    case GpisSubject => NOTHING.(gpis := RowChange(db.gpis, db.nodes, key))
    case GposSubject => NOTHING.(gpos := RowChange(db.gpos, db.nodes, key))
  }

  function RemovalBatch(host: IPv4Number, n: Counts): Batch {
    Batch([Remove(host)], HostRemoves(host, n.sources), HostRemoves(host, n.destinations),
          HostRemoves(host, n.gpis), HostRemoves(host, n.gpos))
  }

  /** What a select makes the handler write for a full subscription, from the tables as they stand when it is made. */
  function Read(db: Database, q: Query): Batch {
    match q
    case AllOf(subject, h) => if Lwrp(db.nodes, h) then HostBatch(db, subject, h) else NOTHING
    case RowOf(subject, h, s) => RowBatch(db, subject, Key(h, s))
    case Removal(h, n) => if Lwrp(db.nodes, h) then RemovalBatch(h, n) else NOTHING
  }

  function Answer(subs: Subscriptions, db: Database, q: Query): seq<Message> {
    Written(Subscribed(subs, Read(db, q)))
  }

  function AnswerAll(subs: Subscriptions, db: Database, qs: seq<Query>): seq<Message>
    decreases |qs|
  {
    if qs == [] then [] else Answer(subs, db, qs[0]) + AnswerAll(subs, db, qs[1..])
  }

  // ----- What the selects answer, table by table -----

  lemma {:induction false} HostAddsAre<L, D>(t: Table<L, D>, nodes: map<IPv4Number, NodeRow>, host: IPv4Number, n: nat)
    requires Lwrp(nodes, host) && forall s: nat :: s < n ==> Key(host, s) in t.rows
    ensures AddsOf(HostAdds(t, host, n), RowsSeen(t, nodes)) && |HostAdds(t, host, n)| == n
    ensures forall s :: 0 <= s < n ==> HostAdds(t, host, n)[s].key == Key(host, s)
  {
    if n > 0 {
      HostAddsAre(t, nodes, host, n - 1);
    }
  }

  lemma {:induction false} HostRemovesAre<V>(host: IPv4Number, n: nat)
    ensures Removes(HostRemoves<V>(host, n)) && |HostRemoves<V>(host, n)| == n
    ensures forall s :: 0 <= s < n ==> HostRemoves<V>(host, n)[s].key == Key(host, s)
  {
    if n > 0 {
      HostRemovesAre<V>(host, n - 1);
    }
  }

  function HostOfKey(k: Key): IPv4Number {
    k.host
  }

  function HostItself(h: IPv4Number): IPv4Number {
    h
  }

  /** A select for a host reads all its rows, in order of slot. */
  lemma HostIsAnswered<L, D>(t: Table<L, D>, nodes: map<IPv4Number, NodeRow>, host: IPv4Number, n: nat)
    requires Lwrp(nodes, host) && Sized(t, host, n)
    ensures AnswersWhole(HostAdds(t, host, n), RowsSeen(t, nodes), host, HostOfKey)
  {
    var ops := HostAdds(t, host, n);
    HostAddsAre(t, nodes, host, n);
    forall i | 0 <= i < |ops|
      ensures ops[i].key.host == host
    {
      assert ops[i].key == Key(host, i);
    }
    forall k | k in RowsSeen(t, nodes) && k.host == host
      ensures NamesKey(ops, k)
    {
      assert ops[k.slot].key == k;
    }
  }

  lemma NodeIsAnswered(nodes: map<IPv4Number, NodeRow>, host: IPv4Number)
    requires Lwrp(nodes, host)
    ensures AnswersWhole([Add(host, InfoOf(nodes[host]))], NodesSeen(nodes), host, HostItself)
  {
    assert [Add(host, InfoOf(nodes[host]))][0].key == host;
  }

  /** A host that is not there, or not an LWRP node, shows nothing. */
  lemma NobodyIsAnswered<K(!new), V>(shown: map<K, V>, host: IPv4Number, home: K -> IPv4Number)
    requires forall k :: k in shown ==> home(k) != host
    ensures AnswersWhole([], shown, host, home)
  {
  }

  lemma RowIsAnswered<L, D>(t: Table<L, D>, nodes: map<IPv4Number, NodeRow>, key: Key)
    ensures RowChange(t, nodes, key) == SingleAnswer(RowsSeen(t, nodes), key)
  {
  }

  // ----- Subscribing -----

  /** The rows a subscription lists, in the order the database returns them. */
  ghost predicate Lists<K, V>(order: seq<K>, view: map<K, V>) {
    (forall i :: 0 <= i < |order| ==> order[i] in view) && forall k :: k in view ==> k in order
  }

  ghost function Listing<K, V>(order: seq<K>, view: map<K, V>): seq<Op<K, V>>
    requires Lists(order, view)
  {
    seq(|order|, i requires 0 <= i < |order| => Add(order[i], view[order[i]]))
  }

  /** Taken by an empty copy, these additions make it the table. */
  ghost predicate Fills<K, V>(ops: seq<Op<K, V>>, view: map<K, V>, renews: bool) {
    KnownAll(map[], ops, renews) && TakenAll(map[], ops, renews) == view && NoRemovals(ops)
  }

  lemma SameEntries<K, V>(m: map<K, V>, view: map<K, V>)
    requires forall k :: k in m <==> k in view
    requires forall k :: k in m ==> m[k] == view[k]
    ensures m == view
  {
  }

  lemma ListingFills<K, V>(order: seq<K>, view: map<K, V>, renews: bool)
    requires Lists(order, view)
    ensures Fills(Listing(order, view), view, renews)
  {
    var ops := Listing(order, view);
    TakeAdds<K, V>(map[], view, ops, renews);
    forall k | k in view
      ensures NamesKey(ops, k)
    {
      var i :| 0 <= i < |order| && order[i] == k;
      assert ops[i].key == k;
    }
    var none: map<K, V> := map[];
    forall k | k in TakenAll(none, ops, renews)
      ensures k in view && TakenAll(none, ops, renews)[k] == view[k]
    {
      assert NamesKey(ops, k) && k !in none;
    }
    SameEntries(TakenAll(none, ops, renews), view);
  }

  /** The addition messages of a subscription, before the closing `ok`. */
  ghost predicate SubscriptionListing(subject: Subject, db: Database, b: Batch) {
    match subject
    case NodesSubject =>
      exists order :: Lists(order, NodesSeen(db.nodes)) && b == NOTHING.(nodes := Listing(order, NodesSeen(db.nodes)))
    case SourcesSubject =>
      var v := Seen(db).sources;
      exists order :: Lists(order, v) && b == NOTHING.(sources := Listing(order, v))
    case DestinationsSubject =>
      var v := Seen(db).destinations;
      exists order :: Lists(order, v) && b == NOTHING.(destinations := Listing(order, v))
    case GpisSubject =>
      var v := Seen(db).gpis;
      exists order :: Lists(order, v) && b == NOTHING.(gpis := Listing(order, v))
    case GposSubject =>
      var v := Seen(db).gpos;
      exists order :: Lists(order, v) && b == NOTHING.(gpos := Listing(order, v))
  }

  function WithSubject(subs: Subscriptions, subject: Subject): Subscriptions {
    match subject
    case NodesSubject => subs.(nodes := true)
    case SourcesSubject => subs.(sources := true)
    case DestinationsSubject => subs.(destinations := true)
    case GpisSubject => subs.(gpis := true)
    case GposSubject => subs.(gpos := true)
  }

  /** What a subscriber to some of the tables should hold: the rest stays empty. */
  function SeenBy(subs: Subscriptions, db: Database): View {
    var v := Seen(db);
    View(if subs.nodes then v.nodes else map[], if subs.sources then v.sources else map[],
         if subs.destinations then v.destinations else map[], if subs.gpis then v.gpis else map[],
         if subs.gpos then v.gpos else map[])
  }

  predicate Subscribing(subs: Subscriptions, subject: Subject) {
    match subject
    case NodesSubject => subs.nodes
    case SourcesSubject => subs.sources
    case DestinationsSubject => subs.destinations
    case GpisSubject => subs.gpis
    case GposSubject => subs.gpos
  }

  /** A subscription lists its table, in any order, and nothing of the others. */
  lemma SubscriptionFills(subject: Subject, db: Database, b: Batch, renews: bool)
    requires SubscriptionListing(subject, db, b)
    ensures if subject == NodesSubject then Fills(b.nodes, Seen(db).nodes, renews) else b.nodes == []
    ensures if subject == SourcesSubject then Fills(b.sources, Seen(db).sources, renews) else b.sources == []
    ensures if subject == DestinationsSubject then Fills(b.destinations, Seen(db).destinations, renews)
            else b.destinations == []
    ensures if subject == GpisSubject then Fills(b.gpis, Seen(db).gpis, renews) else b.gpis == []
    ensures if subject == GposSubject then Fills(b.gpos, Seen(db).gpos, renews) else b.gpos == []
  {
    var v := Seen(db);
    hide Fills, NodesSeen, RowsSeen;
    match subject
    case NodesSubject =>
      var order :| Lists(order, v.nodes) && b == NOTHING.(nodes := Listing(order, v.nodes));
      ListingFills(order, v.nodes, renews);
    case SourcesSubject =>
      var order :| Lists(order, v.sources) && b == NOTHING.(sources := Listing(order, v.sources));
      ListingFills(order, v.sources, renews);
    case DestinationsSubject =>
      var order :| Lists(order, v.destinations) && b == NOTHING.(destinations := Listing(order, v.destinations));
      ListingFills(order, v.destinations, renews);
    case GpisSubject =>
      var order :| Lists(order, v.gpis) && b == NOTHING.(gpis := Listing(order, v.gpis));
      ListingFills(order, v.gpis, renews);
    case GposSubject =>
      var order :| Lists(order, v.gpos) && b == NOTHING.(gpos := Listing(order, v.gpos));
      ListingFills(order, v.gpos, renews);
  }

  // ----- What a client holds -----

  function HeldAfter(v: View, b: Batch, renews: bool): View {
    View(TakenAll(v.nodes, b.nodes, renews), TakenAll(v.sources, b.sources, renews),
         TakenAll(v.destinations, b.destinations, renews), TakenAll(v.gpis, b.gpis, renews),
         TakenAll(v.gpos, b.gpos, renews))
  }

  ghost predicate KnownBatch(v: View, b: Batch, renews: bool) {
    && KnownAll(v.nodes, b.nodes, renews) && KnownAll(v.sources, b.sources, renews)
    && KnownAll(v.destinations, b.destinations, renews)
    && KnownAll(v.gpis, b.gpis, renews) && KnownAll(v.gpos, b.gpos, renews)
  }

  /** Nothing is removed, and nodes are only added. */
  ghost predicate OnlyGrows(b: Batch) {
    && (forall i :: 0 <= i < |b.nodes| ==> b.nodes[i].Add?)
    && NoRemovals(b.sources) && NoRemovals(b.destinations) && NoRemovals(b.gpis) && NoRemovals(b.gpos)
  }

  // ----- A removal is read too late -----

  /** A removal is written exactly when the host is there, as an LWRP node, when the notice is handled. */
  lemma RemovalWrittenIff(subs: Subscriptions, db: Database, host: IPv4Number, n: Counts)
    ensures Answer(subs, db, Removal(host, n)) != [] <==>
              Lwrp(db.nodes, host) &&
              (subs.nodes || (subs.sources && n.sources > 0) || (subs.destinations && n.destinations > 0)
               || (subs.gpis && n.gpis > 0) || (subs.gpos && n.gpos > 0))
  {
    HostRemovesAre<SourceColumns>(host, n.sources);
    HostRemovesAre<DestinationColumns>(host, n.destinations);
    HostRemovesAre<GpiColumns>(host, n.gpis);
    HostRemovesAre<GpoColumns>(host, n.gpos);
    hide HostRemoves, Removes;
  }

  /** No row of the host is shown in this table, now that it is not subscribed, not LWRP, or has no slot. */
  lemma TableLosesHost<L, D>(on: bool, t: Table<L, D>, nodes: map<IPv4Number, NodeRow>, host: IPv4Number, n: nat)
    requires Sized(t, host, n)
    ensures var after := map h | h in nodes && h != host :: nodes[h];
            (on ==> RowsSeen(HostRemoved(t, host), after) == RowsSeen(t, nodes)) <==>
              !on || !Lwrp(nodes, host) || n == 0
  {
    var after := map h | h in nodes && h != host :: nodes[h];
    var seen, left := RowsSeen(t, nodes), RowsSeen(HostRemoved(t, host), after);
    assert forall k :: k in left <==> k in seen && k.host != host;
    if Lwrp(nodes, host) && n > 0 {
      assert Key(host, 0) in seen && Key(host, 0) !in left;
    } else {
      assert forall k :: k in seen ==> k.host != host;
      assert seen == left;
    }
  }

  lemma NodesLoseHost(nodes: map<IPv4Number, NodeRow>, host: IPv4Number)
    ensures NodesSeen(map h | h in nodes && h != host :: nodes[h]) == NodesSeen(nodes) <==> !Lwrp(nodes, host)
  {
    var after := map h | h in nodes && h != host :: nodes[h];
    if Lwrp(nodes, host) {
      assert host in NodesSeen(nodes) && host !in NodesSeen(after);
    } else {
      assert NodesSeen(after) == NodesSeen(nodes);
    }
  }

  /**
   * The core keeps the tables locked from before it announces a removal until the rows are gone, so that the
   * announcement is handled on tables without the host: nothing is written. What a subscriber sees is nevertheless
   * right afterwards exactly if it saw nothing of the host before.
   */
  lemma RemovalComesTooLate(subs: Subscriptions, db: Database, maps: MapSet, host: IPv4Number)
    requires maps.Loaded() && Sound(db, maps)
    ensures var after := Handled(db, maps, Disconnected(host));
            var n := CountsOf(db, host);
            && AnswerAll(subs, after, QueriesAll(Notices(db, Disconnected(host)))) == []
            && (SeenBy(subs, after) == SeenBy(subs, db) <==>
                  || !Lwrp(db.nodes, host)
                  || (!subs.nodes && (subs.sources ==> n.sources == 0) && (subs.destinations ==> n.destinations == 0)
                      && (subs.gpis ==> n.gpis == 0) && (subs.gpos ==> n.gpos == 0)))
  {
    NothingAnswered(subs, db, host);
    assert ShapedAt(db, host);
    var n := CountsOf(db, host);
    NodesLoseHost(db.nodes, host);
    TableLosesHost(subs.sources, db.sources, db.nodes, host, n.sources);
    TableLosesHost(subs.destinations, db.destinations, db.nodes, host, n.destinations);
    TableLosesHost(subs.gpis, db.gpis, db.nodes, host, n.gpis);
    TableLosesHost(subs.gpos, db.gpos, db.nodes, host, n.gpos);
    hide RowsSeen, NodesSeen, HostRemoved, Sized, Shaped, IndexAgreement, StreamsNormal, QueriesAll, AnswerAll;
  }

  lemma NothingAnswered(subs: Subscriptions, db: Database, host: IPv4Number)
    ensures AnswerAll(subs, WithoutNode(db, host), QueriesAll(Notices(db, Disconnected(host)))) == []
  {
    if host in db.nodes {
      var n := db.nodes[host];
      var notice := NodeDel(IPv4(host), n.sources, n.destinations, n.gpis, n.gpos);
      assert QueriesAll([notice]) == Queries(notice) + QueriesAll([]);
      var q := Removal(host, Counts(n.sources, n.destinations, n.gpis, n.gpos));
      assert Queries(notice) == [q] && AnswerAll(subs, WithoutNode(db, host), [q][1..]) == [];
    }
  }
}
