/** When everything in the tables fits the wire format, so does everything the server writes. */
module Deliverability {
  import opened Addresses
  import opened RoutingTables
  import opened RoutingDatabase
  import opened Ipc
  import opened Replication
  import opened ProtocolD
  import opened ProtocolDText
  import opened ServerRuns

  // ----- Events and tables that fit -----

  predicate SourceFits(hostName: string, s: SourceImage) {
    Word(hostName) && Word(s.name) && IsSlot(s.channels) && IsSlot(s.blockSize)
  }

  predicate DestinationFits(hostName: string, d: DestinationImage) {
    Word(hostName) && Word(d.name) && IsSlot(d.channels)
  }

  predicate GpoFits(code: string, name: string, link: GpoLink) {
    Word(code) && Word(name) && -0x8000_0000 <= link.slot < 0x8000_0000
  }

  predicate ImageFits(m: MatrixImage) {
    && NodeSendable(InfoOf(m.Node()))
    && (forall i :: 0 <= i < |m.sources| ==> SourceFits(m.hostName, m.sources[i]))
    && (forall i :: 0 <= i < |m.destinations| ==> DestinationFits(m.hostName, m.destinations[i]))
    && (forall i :: 0 <= i < |m.gpis| ==> Word(m.gpis[i]))
    && (forall i :: 0 <= i < |m.gpos| ==> GpoFits(m.gpos[i].bundleCode, m.gpos[i].name, m.gpos[i].link))
  }

  /** Names free of tabs and line ends, in 7-bit characters, and numbers that fit their fields. */
  predicate EventFits(e: Event) {
    match e
    case Connected(_, image) => ImageFits(image)
    case Disconnected(_) => true
    case SourceChanged(_, _, hostName, s) => SourceFits(hostName, s)
    case DestinationChanged(_, _, hostName, d) => DestinationFits(hostName, d)
    case GpiChanged(_, _, code) => Word(code)
    case GpoChanged(_, _, code, name, link) => GpoFits(code, name, link)
  }

  ghost predicate TableFits<L, D>(t: Table<L, D>, good: Columns<L, D> -> bool) {
    forall k :: k in t.rows ==> IsSlot(k.slot) && good(Columns(t.rows[k].link, t.rows[k].data))
  }

  ghost predicate DatabaseFits(db: Database) {
    && (forall h :: h in db.nodes ==> NodeSendable(InfoOf(db.nodes[h])))
    && TableFits(db.sources, SourceSendable) && TableFits(db.destinations, DestinationSendable)
    && TableFits(db.gpis, GpiSendable) && TableFits(db.gpos, GpoSendable)
  }

  lemma LowerIsWord(s: string)
    requires Word(s)
    ensures Word(Lower(s))
  {
  }

  lemma HostFits<L, D>(
      t: Table<L, D>, u: Table<L, D>, host: IPv4Number, slots: seq<(L, D)>, good: Columns<L, D> -> bool)
    requires TableFits(t, good) && Holds(u, host, slots) && SameElsewhere(t, u, host) && IsSlot(|slots|)
    requires forall i :: 0 <= i < |slots| ==> good(Columns(slots[i].0, slots[i].1))
    ensures TableFits(u, good)
  {
  }

  lemma ImageSlotsFit(m: MatrixImage)
    requires ImageFits(m)
    ensures forall i :: 0 <= i < |m.SourceSlots()| ==>
              SourceSendable(Columns(m.SourceSlots()[i].0, m.SourceSlots()[i].1))
    ensures forall i :: 0 <= i < |m.DestinationSlots()| ==>
              DestinationSendable(Columns(m.DestinationSlots()[i].0, m.DestinationSlots()[i].1))
    ensures forall i :: 0 <= i < |m.GpiSlots()| ==> GpiSendable(Columns(m.GpiSlots()[i].0, m.GpiSlots()[i].1))
  {
  }

  lemma GpoSlotsFit(m: MatrixImage)
    requires ImageFits(m)
    ensures forall i :: 0 <= i < |m.GpoSlots()| ==> GpoSendable(Columns(m.GpoSlots()[i].0, m.GpoSlots()[i].1))
  {
  }

  ghost predicate SlotsFit<L, D>(slots: seq<(L, D)>, good: Columns<L, D> -> bool) {
    IsSlot(|slots|) && forall i :: 0 <= i < |slots| ==> good(Columns(slots[i].0, slots[i].1))
  }

  lemma TableConnectedFits<L, D>(
      t: Table<L, D>, maps: MapSet, role: Role, host: IPv4Number, slots: seq<(L, D)>, good: Columns<L, D> -> bool)
    requires maps.Valid() && Agrees(t, maps, role) && Sized(t, host, 0) && TableFits(t, good) && SlotsFit(slots, good)
    ensures TableFits(HostAdded(t, maps, role, host, slots), good)
  {
    hide Agrees, HostAdded, Sized, Holds, SameElsewhere, TableFits;
    TableConnected(t, maps, role, host, slots);
    HostFits(t, HostAdded(t, maps, role, host, slots), host, slots, good);
  }

  lemma ConnectedFits(db: Database, maps: MapSet, host: IPv4Number, image: MatrixImage)
    requires maps.Valid() && Sound(db, maps) && DatabaseFits(db) && host !in db.nodes && ImageFits(image)
    ensures DatabaseFits(WithNode(db, maps, host, image))
  {
    ImageSlotsFit(image);
    GpoSlotsFit(image);
    assert ShapedAt(db, host);
    hide Agrees, HostAdded, Sized, TableFits, SourceSendable, DestinationSendable, GpiSendable, GpoSendable, Word;
    assert SlotsFit(image.SourceSlots(), SourceSendable) && SlotsFit(image.DestinationSlots(), DestinationSendable);
    assert SlotsFit(image.GpiSlots(), GpiSendable) && SlotsFit(image.GpoSlots(), GpoSendable);
    hide SlotsFit;
    TableConnectedFits(db.sources, maps, SOURCES, host, image.SourceSlots(), SourceSendable);
    TableConnectedFits(db.destinations, maps, DESTINATIONS, host, image.DestinationSlots(), DestinationSendable);
    TableConnectedFits(db.gpis, maps, GPIS, host, image.GpiSlots(), GpiSendable);
    TableConnectedFits(db.gpos, maps, GPOS, host, image.GpoSlots(), GpoSendable);
  }

  lemma RowFits<L, D>(t: Table<L, D>, key: Key, link: L, data: D, good: Columns<L, D> -> bool)
    requires TableFits(t, good) && good(Columns(link, data))
    ensures TableFits(LinkChanged(DataChanged(t, key, data), key, link), good)
  {
  }

  lemma SourceChangedFits(db: Database, key: Key, hostName: string, s: SourceImage)
    requires DatabaseFits(db) && SourceFits(hostName, s)
    ensures DatabaseFits(WithSource(db, key, hostName, s))
  {
  }

  lemma DestinationChangedFits(db: Database, key: Key, hostName: string, d: DestinationImage)
    requires DatabaseFits(db) && DestinationFits(hostName, d)
    ensures DatabaseFits(WithDestination(db, key, hostName, d))
  {
  }

  lemma DisconnectedFits(db: Database, host: IPv4Number)
    requires DatabaseFits(db)
    ensures DatabaseFits(WithoutNode(db, host))
  {
  }

  lemma ChangedFits(db: Database, maps: MapSet, e: Event)
    requires maps.Loaded() && DatabaseFits(db) && EventFits(e) && !e.Connected?
    ensures DatabaseFits(Handled(db, maps, e))
  {
    hide DatabaseFits, WithoutNode, WithSource, WithDestination, WithGpi, WithGpo, SourceFits, DestinationFits, GpoFits;
    match e
    case Disconnected(h) => DisconnectedFits(db, h);
    case SourceChanged(h, s, hostName, i) => SourceChangedFits(db, Key(h, s), hostName, i);
    case DestinationChanged(h, s, hostName, i) => DestinationChangedFits(db, Key(h, s), hostName, i);
    case GpiChanged(h, s, code) => GpiChangedFits(db, Key(h, s), code);
    case GpoChanged(h, s, code, name, link) => GpoChangedFits(db, Key(h, s), code, name, link);
  }

  lemma GpiChangedFits(db: Database, key: Key, code: string)
    requires DatabaseFits(db) && Word(code)
    ensures DatabaseFits(WithGpi(db, key, code))
  {
  }

  lemma GpoChangedFits(db: Database, key: Key, code: string, name: string, link: GpoLink)
    requires DatabaseFits(db) && GpoFits(code, name, link)
    ensures DatabaseFits(WithGpo(db, key, code, name, link))
  {
    LowerIsWord(code);
    assert Word("");
    hide Lower, Word, LinkChanged, DataChanged;
    var data := if key in db.gpos.rows then db.gpos.rows[key].data.(code := Lower(code), name := name)
                else GpoData("", Lower(code), name);
    RowFits(db.gpos, key, link, data, GpoSendable);
  }

  lemma HandledFits(db: Database, maps: MapSet, e: Event)
    requires maps.Valid() && Sound(db, maps) && DatabaseFits(db) && Possible(db, e) && EventFits(e)
    ensures DatabaseFits(Handled(db, maps, e))
  {
    hide DatabaseFits, Sound, ImageFits, WithNode;
    if e.Connected? {
      ConnectedFits(db, maps, e.host, e.image);
    } else {
      ChangedFits(db, maps, e);
    }
  }

  // ----- Messages -----

  ghost predicate OpsFit<K, V>(ops: seq<Op<K, V>>, goodKey: K -> bool, good: V -> bool) {
    forall i :: 0 <= i < |ops| ==> goodKey(ops[i].key) && (ops[i].Remove? || good(ops[i].value))
  }

  predicate AnyHost(h: IPv4Number) {
    true
  }

  predicate GoodKey(k: Key) {
    IsSlot(k.slot)
  }

  ghost predicate BatchFits(b: Batch) {
    && OpsFit(b.nodes, AnyHost, NodeSendable) && OpsFit(b.sources, GoodKey, SourceSendable)
    && OpsFit(b.destinations, GoodKey, DestinationSendable)
    && OpsFit(b.gpis, GoodKey, GpiSendable) && OpsFit(b.gpos, GoodKey, GpoSendable)
  }

  ghost predicate AllSendable(ms: seq<Message>) {
    forall i :: 0 <= i < |ms| ==> MessageSendable(ms[i])
  }

  lemma BatchIsSendable(b: Batch)
    requires BatchFits(b)
    ensures AllSendable(Written(b))
  {
  }

  ghost predicate MapFits<K, V>(m: map<K, V>, goodKey: K -> bool, good: V -> bool) {
    forall k :: k in m ==> goodKey(k) && good(m[k])
  }

  ghost predicate ViewFits(v: View) {
    && MapFits(v.nodes, AnyHost, NodeSendable) && MapFits(v.sources, GoodKey, SourceSendable)
    && MapFits(v.destinations, GoodKey, DestinationSendable)
    && MapFits(v.gpis, GoodKey, GpiSendable) && MapFits(v.gpos, GoodKey, GpoSendable)
  }

  lemma RowsSeenFit<L, D>(t: Table<L, D>, nodes: map<IPv4Number, NodeRow>, good: Columns<L, D> -> bool)
    requires TableFits(t, good)
    ensures MapFits(RowsSeen(t, nodes), GoodKey, good)
  {
  }

  lemma NodesSeenFit(nodes: map<IPv4Number, NodeRow>)
    requires forall h :: h in nodes ==> NodeSendable(InfoOf(nodes[h]))
    ensures MapFits(NodesSeen(nodes), AnyHost, NodeSendable)
  {
  }

  lemma SeenFits(db: Database)
    requires DatabaseFits(db)
    ensures ViewFits(Seen(db))
  {
    NodesSeenFit(db.nodes);
    RowsSeenFit(db.sources, db.nodes, SourceSendable);
    RowsSeenFit(db.destinations, db.nodes, DestinationSendable);
    RowsSeenFit(db.gpis, db.nodes, GpiSendable);
    RowsSeenFit(db.gpos, db.nodes, GpoSendable);
    hide MapFits, NodesSeen, RowsSeen;
  }

  lemma ListedFits<K, V>(order: seq<K>, view: map<K, V>, goodKey: K -> bool, good: V -> bool)
    requires Lists(order, view) && MapFits(view, goodKey, good)
    ensures OpsFit(Listing(order, view), goodKey, good)
  {
  }

  lemma ListingFits(subject: Subject, db: Database, b: Batch)
    requires DatabaseFits(db) && SubscriptionListing(subject, db, b)
    ensures BatchFits(b)
  {
    SeenFits(db);
    var v := Seen(db);
    hide DatabaseFits, Seen, NodesSeen, MapFits, Lists, NodeSendable, SourceSendable, DestinationSendable;
    hide GpiSendable, GpoSendable;
    match subject
    case NodesSubject =>
      var order :| Lists(order, v.nodes) && b == NOTHING.(nodes := Listing(order, v.nodes));
      ListedFits(order, v.nodes, AnyHost, NodeSendable);
    case SourcesSubject =>
      var order :| Lists(order, v.sources) && b == NOTHING.(sources := Listing(order, v.sources));
      ListedFits(order, v.sources, GoodKey, SourceSendable);
    case DestinationsSubject =>
      var order :| Lists(order, v.destinations) && b == NOTHING.(destinations := Listing(order, v.destinations));
      ListedFits(order, v.destinations, GoodKey, DestinationSendable);
    case GpisSubject =>
      var order :| Lists(order, v.gpis) && b == NOTHING.(gpis := Listing(order, v.gpis));
      ListedFits(order, v.gpis, GoodKey, GpiSendable);
    case GposSubject =>
      var order :| Lists(order, v.gpos) && b == NOTHING.(gpos := Listing(order, v.gpos));
      ListedFits(order, v.gpos, GoodKey, GpoSendable);
  }

  // ----- What a select makes the handler write -----

  lemma {:induction false} HostAddsFit<L, D>(t: Table<L, D>, host: IPv4Number, n: nat, good: Columns<L, D> -> bool)
    requires TableFits(t, good)
    ensures OpsFit(HostAdds(t, host, n), GoodKey, good)
  {
    if n > 0 {
      HostAddsFit(t, host, n - 1, good);
    }
  }

  lemma {:induction false} HostRemovesFit<V>(host: IPv4Number, n: nat, good: V -> bool)
    requires IsSlot(n)
    ensures OpsFit(HostRemoves<V>(host, n), GoodKey, good)
  {
    if n > 0 {
      HostRemovesFit<V>(host, n - 1, good);
    }
  }

  predicate CountsFit(n: Counts) {
    IsSlot(n.sources) && IsSlot(n.destinations) && IsSlot(n.gpis) && IsSlot(n.gpos)
  }

  predicate QueryFits(q: Query) {
    q.Removal? ==> CountsFit(q.counts)
  }

  lemma HostBatchFits(db: Database, subject: Subject, host: IPv4Number)
    requires DatabaseFits(db) && host in db.nodes
    ensures BatchFits(HostBatch(db, subject, host))
  {
    var n := db.nodes[host];
    HostAddsFit(db.sources, host, n.sources, SourceSendable);
    HostAddsFit(db.destinations, host, n.destinations, DestinationSendable);
    HostAddsFit(db.gpis, host, n.gpis, GpiSendable);
    HostAddsFit(db.gpos, host, n.gpos, GpoSendable);
    hide HostAdds, TableFits, NodeSendable, SourceSendable, DestinationSendable, GpiSendable, GpoSendable;
  }

  lemma RowBatchFits(db: Database, subject: Subject, key: Key)
    requires DatabaseFits(db)
    ensures BatchFits(RowBatch(db, subject, key))
  {
    hide NodeSendable, SourceSendable, DestinationSendable, GpiSendable, GpoSendable;
  }

  lemma RemovalBatchFits(host: IPv4Number, n: Counts)
    requires CountsFit(n)
    ensures BatchFits(RemovalBatch(host, n))
  {
    HostRemovesFit(host, n.sources, SourceSendable);
    HostRemovesFit(host, n.destinations, DestinationSendable);
    HostRemovesFit(host, n.gpis, GpiSendable);
    HostRemovesFit(host, n.gpos, GpoSendable);
    hide HostRemoves;
  }

  lemma ReadFits(subs: Subscriptions, db: Database, q: Query)
    requires DatabaseFits(db) && QueryFits(q)
    ensures BatchFits(Subscribed(subs, Read(db, q)))
  {
    hide DatabaseFits, HostBatch, RowBatch, RemovalBatch;
    hide NodeSendable, SourceSendable, DestinationSendable, GpiSendable, GpoSendable;
    match q
    case AllOf(subject, h) =>
      if Lwrp(db.nodes, h) {
        HostBatchFits(db, subject, h);
      }
    case RowOf(subject, h, slot) => RowBatchFits(db, subject, Key(h, slot));
    case Removal(h, n) =>
      if Lwrp(db.nodes, h) {
        RemovalBatchFits(h, n);
      }
  }

  // ----- Steps of the server -----

  predicate StepFits(step: ServerStep) {
    step.Happens? ==> EventFits(step.event)
  }

  ghost predicate QueriesFit(waiting: seq<Query>) {
    forall i :: 0 <= i < |waiting| ==> QueryFits(waiting[i])
  }

  ghost predicate ServerFits(s: Server, maps: MapSet) {
    Sound(s.db, maps) && DatabaseFits(s.db) && QueriesFit(Waiting(s))
  }

  lemma EventQueriesFit(waiting: seq<Query>, db: Database, e: Event)
    requires DatabaseFits(db) && QueriesFit(waiting)
    ensures QueriesFit(waiting + EventQueries(db, e))
  {
    var more := EventQueries(db, e);
    assert forall i :: 0 <= i < |more| ==> QueryFits(more[i]);
    hide EventQueries, QueryFits;
    assert forall i :: |waiting| <= i < |waiting + more| ==> (waiting + more)[i] == more[i - |waiting|];
  }

  lemma RestFits(q: Query, waiting: seq<Query>)
    requires QueriesFit([q] + waiting)
    ensures QueryFits(q) && QueriesFit(waiting)
  {
    hide QueryFits;
    assert forall i :: 0 <= i < |waiting| ==> waiting[i] == ([q] + waiting)[i + 1];
    assert ([q] + waiting)[0] == q;
  }

  lemma StepKeepsFit(s: Server, maps: MapSet, step: ServerStep)
    requires maps.Valid() && ServerFits(s, maps) && Enabled(s, step) && StepFits(step)
    ensures ServerFits(Next(s, maps, step), maps)
  {
    StepKeepsSound(s, maps, step);
    WaitingAfter(s, maps, step);
    hide Sound, DatabaseFits, Handled, EventFits, SubscriptionListing, Waiting, Possible, QueriesFit, Notices;
    hide EventQueries;
    match step
    case Happens(e) =>
      HandledFits(s.db, maps, e);
      NoticesAsk(s.db, e);
      EventQueriesFit(Waiting(s), s.db, e);
    case Selects => RestFits(s.current[0], Waiting(Next(s, maps, step)));
    case _ =>
  }

  lemma RecordsFit(s: Server, maps: MapSet, step: ServerStep)
    requires ServerFits(s, maps) && Enabled(s, step)
    ensures BatchFits(Records(s, step))
  {
    hide Sound, DatabaseFits, BatchFits, SubscriptionListing, Subscribed, Read, QueryFits;
    match step
    case Selects =>
      WaitingFromCurrent(s);
      ReadFits(s.subs, s.db, s.current[0]);
    case Subscribes(subject, b) => ListingFits(subject, s.db, b);
    case _ => NothingFits();
  }

  lemma OutputIsSendable(s: Server, maps: MapSet, step: ServerStep)
    requires ServerFits(s, maps) && Enabled(s, step)
    ensures AllSendable(Response(s, step))
  {
    hide ServerFits, Enabled, BatchFits, Records, Written;
    assert AllSendable(Closing(step));
    RecordsFit(s, maps, step);
    BatchIsSendable(Records(s, step));
  }

  lemma WaitingFromCurrent(s: Server)
    requires s.current != [] && QueriesFit(Waiting(s))
    ensures QueryFits(s.current[0])
  {
    assert Waiting(s)[0] == s.current[0];
  }

  lemma NothingFits()
    ensures BatchFits(NOTHING)
  {
  }

  lemma {:induction false} TranscriptIsSendable(s: Server, maps: MapSet, steps: seq<ServerStep>)
    requires maps.Valid() && ServerFits(s, maps) && IsServerRun(s, maps, steps)
    requires forall i :: 0 <= i < |steps| ==> StepFits(steps[i])
    ensures AllSendable(Transcript(s, maps, steps))
    decreases |steps|
  {
    hide ServerFits, Enabled, StepFits, Response, Next, MessageSendable;
    if steps != [] {
      OutputIsSendable(s, maps, steps[0]);
      StepKeepsFit(s, maps, steps[0]);
      TranscriptIsSendable(Next(s, maps, steps[0]), maps, steps[1..]);
    }
  }
}
