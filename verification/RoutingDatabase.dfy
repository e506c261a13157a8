/** The whole routing database, and what each event from a matrix does to it. */
module RoutingDatabase {
  import opened Addresses
  import opened Text
  import opened RoutingTables
  import opened Ipc

  datatype MatrixType = LwrpMatrix | Bt41MlrMatrix | Gvg7000Matrix

  datatype NodeRow = NodeRow(
    hostName: string, deviceName: string, matrixType: MatrixType, sources: nat, destinations: nat, gpis: nat, gpos: nat)

  datatype SourceData = SourceData(hostName: string, name: string, enabled: bool, channels: nat, blockSize: nat)

  datatype DestinationData = DestinationData(hostName: string, name: string, channels: nat)

  datatype GpiData = GpiData(hostName: string, code: string)

  datatype GpoData = GpoData(hostName: string, code: string, name: string)

  /** The GPI a GPO follows. */
  datatype GpoLink = GpoLink(address: HostAddress, slot: int)

  const NO_GPI := GpoLink(Null, -1)

  datatype Database = Database(
    nodes: map<IPv4Number, NodeRow>,
    sources: Table<HostAddress, SourceData>,
    destinations: Table<HostAddress, DestinationData>,
    gpis: Table<(), GpiData>,
    gpos: Table<GpoLink, GpoData>)

  function EmptyDatabase(): Database {
    Database(map[], NoRows(), NoRows(), NoRows(), NoRows())
  }

  // ----- What a matrix reports -----

  datatype SourceImage = SourceImage(stream: HostAddress, name: string, enabled: bool, channels: nat, blockSize: nat)

  datatype DestinationImage = DestinationImage(stream: HostAddress, name: string, channels: nat)

  /**
   * `bundleCode` is the code that the GPI bundle of the same number had on connecting, which is what the GPOS row
   * starts with; `code` is the GPO's own, which it reports from then on.
   */
  datatype GpoImage = GpoImage(code: string, bundleCode: string, name: string, link: GpoLink)

  datatype MatrixImage = MatrixImage(
    hostName: string, deviceName: string, matrixType: MatrixType,
    sources: seq<SourceImage>, destinations: seq<DestinationImage>, gpis: seq<string>, gpos: seq<GpoImage>)
  {
    function Node(): NodeRow {
      NodeRow(hostName, deviceName, matrixType, |sources|, |destinations|, |gpis|, |gpos|)
    }

    function SourceSlots(): seq<(HostAddress, SourceData)> {
      seq(|sources|, i requires 0 <= i < |sources| => (Normalized(sources[i].stream), SourceRow(hostName, sources[i])))
    }

    function DestinationSlots(): seq<(HostAddress, DestinationData)> {
      seq(|destinations|, i requires 0 <= i < |destinations| =>
        (Normalized(destinations[i].stream), DestinationRow(hostName, destinations[i])))
    }

    function GpiSlots(): seq<((), GpiData)> {
      seq(|gpis|, i requires 0 <= i < |gpis| => ((), GpiData(hostName, gpis[i])))
    }

    function GpoSlots(): seq<(GpoLink, GpoData)> {
      seq(|gpos|, i requires 0 <= i < |gpos| =>
        (gpos[i].link,
         GpoData(hostName, gpos[i].bundleCode, if gpos[i].name == "" then "GPO " + PrintNat(i + 1) else gpos[i].name)))
    }
  }

  function SourceRow(hostName: string, s: SourceImage): SourceData {
    SourceData(hostName, s.name, s.enabled, s.channels, s.blockSize)
  }

  function DestinationRow(hostName: string, d: DestinationImage): DestinationData {
    DestinationData(hostName, d.name, d.channels)
  }

  function LowerChar(c: char): char {
    if 'A' <= c <= 'Z' then c + ('a' - 'A') else c
  }

  function Lower(s: string): string {
    seq(|s|, i requires 0 <= i < |s| => LowerChar(s[i]))
  }

  /** No capital is left; a capital becomes the small letter of the same place in the alphabet; all else stays. */
  lemma LowerIsExact(s: string, i: nat)
    requires i < |s|
    ensures |Lower(s)| == |s| && !('A' <= Lower(s)[i] <= 'Z')
    ensures 'A' <= s[i] <= 'Z' ==> 'a' <= Lower(s)[i] <= 'z' && Lower(s)[i] - 'a' == s[i] - 'A'
    ensures !('A' <= s[i] <= 'Z') ==> Lower(s)[i] == s[i]
  {
  }

  // ----- Events -----

  datatype Event =
    | Connected(host: IPv4Number, image: MatrixImage)
    | Disconnected(host: IPv4Number)
    | SourceChanged(host: IPv4Number, slot: nat, hostName: string, source: SourceImage)
    | DestinationChanged(host: IPv4Number, slot: nat, hostName: string, destination: DestinationImage)
    | GpiChanged(host: IPv4Number, slot: nat, code: string)
    | GpoChanged(host: IPv4Number, slot: nat, code: string, name: string, link: GpoLink)

  /** A matrix announces a connection only when none of its rows are there. */
  predicate Possible(db: Database, e: Event) {
    e.Connected? ==> e.host !in db.nodes
  }

  function WithNode(db: Database, maps: MapSet, host: IPv4Number, image: MatrixImage): Database
    requires maps.Loaded()
  {
    Database(
      db.nodes[host := image.Node()],
      HostAdded(db.sources, maps, SOURCES, host, image.SourceSlots()),
      HostAdded(db.destinations, maps, DESTINATIONS, host, image.DestinationSlots()),
      HostAdded(db.gpis, maps, GPIS, host, image.GpiSlots()),
      HostAdded(db.gpos, maps, GPOS, host, image.GpoSlots()))
  }

  function WithoutNode(db: Database, host: IPv4Number): Database {
    Database(
      map h | h in db.nodes && h != host :: db.nodes[h],
      HostRemoved(db.sources, host), HostRemoved(db.destinations, host),
      HostRemoved(db.gpis, host), HostRemoved(db.gpos, host))
  }

  function WithSource(db: Database, key: Key, hostName: string, s: SourceImage): Database {
    db.(sources := LinkChanged(DataChanged(db.sources, key, SourceRow(hostName, s)), key, Normalized(s.stream)))
  }

  function WithDestination(db: Database, key: Key, hostName: string, d: DestinationImage): Database {
    db.(destinations :=
      LinkChanged(DataChanged(db.destinations, key, DestinationRow(hostName, d)), key, Normalized(d.stream)))
  }

  function WithGpi(db: Database, key: Key, code: string): Database {
    if key in db.gpis.rows then
      db.(gpis := DataChanged(db.gpis, key, db.gpis.rows[key].data.(code := Lower(code))))
    else db
  }

  function WithGpo(db: Database, key: Key, code: string, name: string, link: GpoLink): Database {
    var data := if key in db.gpos.rows then db.gpos.rows[key].data.(code := Lower(code), name := name)
                else GpoData("", Lower(code), name);
    db.(gpos := LinkChanged(DataChanged(db.gpos, key, data), key, link))
  }

  function Handled(db: Database, maps: MapSet, e: Event): Database
    requires maps.Loaded()
  {
    match e
    case Connected(host, image) => WithNode(db, maps, host, image)
    case Disconnected(host) => WithoutNode(db, host)
    case SourceChanged(host, slot, hostName, s) => WithSource(db, Key(host, slot), hostName, s)
    case DestinationChanged(host, slot, hostName, d) => WithDestination(db, Key(host, slot), hostName, d)
    case GpiChanged(host, slot, code) => WithGpi(db, Key(host, slot), code)
    case GpoChanged(host, slot, code, name, link) => WithGpo(db, Key(host, slot), code, name, link)
  }

  // ----- The invariant -----

  /** The slots of a host present in a table are those below `n`. */
  ghost predicate Sized<L, D>(t: Table<L, D>, host: IPv4Number, n: nat) {
    forall s: nat :: Key(host, s) in t.rows <==> s < n
  }

  datatype Counts = Counts(sources: nat, destinations: nat, gpis: nat, gpos: nat)

  function CountsOf(db: Database, host: IPv4Number): Counts {
    if host !in db.nodes then Counts(0, 0, 0, 0)
    else
      var n := db.nodes[host];
      Counts(n.sources, n.destinations, n.gpis, n.gpos)
  }

  ghost predicate ShapedAt(db: Database, host: IPv4Number) {
    var c := CountsOf(db, host);
    && Sized(db.sources, host, c.sources) && Sized(db.destinations, host, c.destinations)
    && Sized(db.gpis, host, c.gpis) && Sized(db.gpos, host, c.gpos)
  }

  /** Every table holds, for each node, the slots its NODES row counts, and nothing for other hosts. */
  ghost predicate Shaped(db: Database) {
    forall h: IPv4Number :: ShapedAt(db, h)
  }

  /** Stream addresses are stored in normalised form. */
  ghost predicate StreamsNormal<D>(t: Table<HostAddress, D>) {
    forall k :: k in t.rows ==> t.rows[k].link == Normalized(t.rows[k].link)
  }

  /** The four indexes are the joins of the live tables with the maps. */
  ghost predicate IndexAgreement(db: Database, maps: MapSet) {
    && Agrees(db.sources, maps, SOURCES)
    && Agrees(db.destinations, maps, DESTINATIONS)
    && Agrees(db.gpis, maps, GPIS)
    && Agrees(db.gpos, maps, GPOS)
  }

  ghost predicate Sound(db: Database, maps: MapSet) {
    IndexAgreement(db, maps) && Shaped(db) && StreamsNormal(db.sources) && StreamsNormal(db.destinations)
  }

  lemma HoldsIsSized<L, D>(t: Table<L, D>, host: IPv4Number, slots: seq<(L, D)>)
    requires Holds(t, host, slots)
    ensures Sized(t, host, |slots|)
  {
  }

  /** Connecting a host to one table. */
  lemma TableConnected<L, D>(t: Table<L, D>, maps: MapSet, role: Role, host: IPv4Number, slots: seq<(L, D)>)
    requires maps.Valid() && Agrees(t, maps, role) && Sized(t, host, 0)
    ensures var u := HostAdded(t, maps, role, host, slots);
            && Agrees(u, maps, role) && Sized(u, host, |slots|) && Holds(u, host, slots) && SameElsewhere(t, u, host)
            && forall h, n :: h != host && Sized(t, h, n) ==> Sized(u, h, n)
  {
    hide Agrees, HostAdded;
    HostAddedAgrees(t, maps, role, host, slots);
    HoldsIsSized(HostAdded(t, maps, role, host, slots), host, slots);
  }

  lemma TableDisconnected<L, D>(t: Table<L, D>, maps: MapSet, role: Role, host: IPv4Number)
    requires Agrees(t, maps, role)
    ensures var u := HostRemoved(t, host);
            && Agrees(u, maps, role) && Sized(u, host, 0)
            && forall h, n :: h != host && Sized(t, h, n) ==> Sized(u, h, n)
  {
    hide Agrees;
    HostRemovedAgrees(t, maps, role, host);
  }

  lemma TableChanged<L, D>(t: Table<L, D>, maps: MapSet, role: Role, key: Key, link: L, data: D)
    requires Agrees(t, maps, role)
    ensures var u := LinkChanged(DataChanged(t, key, data), key, link);
            && Agrees(u, maps, role)
            && (forall h, n :: Sized(t, h, n) ==> Sized(u, h, n))
            && (forall k :: k in u.rows ==> k in t.rows && u.rows[k].link == if k == key then link else t.rows[k].link)
  {
    hide Agrees;
    DataChangedAgrees(t, maps, role, key, data);
    LinkChangedAgrees(DataChanged(t, key, data), maps, role, key, link);
  }

  lemma StreamsStayNormal<D>(
      t: Table<HostAddress, D>, u: Table<HostAddress, D>, host: IPv4Number, slots: seq<(HostAddress, D)>)
    requires StreamsNormal(t) && Holds(u, host, slots) && SameElsewhere(t, u, host)
    requires forall i :: 0 <= i < |slots| ==> slots[i].0 == Normalized(slots[i].0)
    ensures StreamsNormal(u)
  {
  }

  lemma ConnectedKeepsSound(db: Database, maps: MapSet, host: IPv4Number, image: MatrixImage)
    requires maps.Valid() && Sound(db, maps) && host !in db.nodes
    ensures Sound(WithNode(db, maps, host, image), maps)
  {
    hide Agrees, Sized, HostAdded, StreamsNormal, Holds, SameElsewhere;
    assert ShapedAt(db, host);
    TableConnected(db.sources, maps, SOURCES, host, image.SourceSlots());
    TableConnected(db.destinations, maps, DESTINATIONS, host, image.DestinationSlots());
    TableConnected(db.gpis, maps, GPIS, host, image.GpiSlots());
    TableConnected(db.gpos, maps, GPOS, host, image.GpoSlots());
    var u := WithNode(db, maps, host, image);
    StreamsStayNormal(db.sources, u.sources, host, image.SourceSlots());
    StreamsStayNormal(db.destinations, u.destinations, host, image.DestinationSlots());
    forall h: IPv4Number
      ensures ShapedAt(u, h)
    {
      assert ShapedAt(db, h);
    }
  }

  lemma DisconnectedKeepsSound(db: Database, maps: MapSet, host: IPv4Number)
    requires Sound(db, maps)
    ensures Sound(WithoutNode(db, host), maps)
  {
    hide Agrees, Sized;
    TableDisconnected(db.sources, maps, SOURCES, host);
    TableDisconnected(db.destinations, maps, DESTINATIONS, host);
    TableDisconnected(db.gpis, maps, GPIS, host);
    TableDisconnected(db.gpos, maps, GPOS, host);
    var u := WithoutNode(db, host);
    forall h: IPv4Number
      ensures ShapedAt(u, h)
    {
      assert ShapedAt(db, h);
    }
  }

  lemma GpiChangedKeepsSound(db: Database, maps: MapSet, key: Key, code: string)
    requires Sound(db, maps)
    ensures Sound(WithGpi(db, key, code), maps)
  {
    hide Agrees, StreamsNormal;
    var u := WithGpi(db, key, code);
    forall h: IPv4Number
      ensures ShapedAt(u, h)
    {
      assert ShapedAt(db, h);
    }
    if key in db.gpis.rows {
      DataChangedAgrees(db.gpis, maps, GPIS, key, db.gpis.rows[key].data.(code := Lower(code)));
    }
  }

  lemma SourceChangedKeepsSound(db: Database, maps: MapSet, key: Key, hostName: string, s: SourceImage)
    requires Sound(db, maps)
    ensures Sound(WithSource(db, key, hostName, s), maps)
  {
    hide Agrees, Sized, LinkChanged, DataChanged;
    TableChanged(db.sources, maps, SOURCES, key, Normalized(s.stream), SourceRow(hostName, s));
    forall h: IPv4Number
      ensures ShapedAt(WithSource(db, key, hostName, s), h)
    {
      assert ShapedAt(db, h);
    }
  }

  lemma DestinationChangedKeepsSound(db: Database, maps: MapSet, key: Key, hostName: string, d: DestinationImage)
    requires Sound(db, maps)
    ensures Sound(WithDestination(db, key, hostName, d), maps)
  {
    hide Agrees, Sized, LinkChanged, DataChanged;
    TableChanged(db.destinations, maps, DESTINATIONS, key, Normalized(d.stream), DestinationRow(hostName, d));
    forall h: IPv4Number
      ensures ShapedAt(WithDestination(db, key, hostName, d), h)
    {
      assert ShapedAt(db, h);
    }
  }

  lemma GpoChangedKeepsSound(db: Database, maps: MapSet, key: Key, code: string, name: string, link: GpoLink)
    requires Sound(db, maps)
    ensures Sound(WithGpo(db, key, code, name, link), maps)
  {
    hide Agrees, Sized, LinkChanged, DataChanged, StreamsNormal;
    var data := if key in db.gpos.rows then db.gpos.rows[key].data.(code := Lower(code), name := name)
                else GpoData("", Lower(code), name);
    TableChanged(db.gpos, maps, GPOS, key, link, data);
    forall h: IPv4Number
      ensures ShapedAt(WithGpo(db, key, code, name, link), h)
    {
      assert ShapedAt(db, h);
    }
  }

  lemma HandledKeepsSound(db: Database, maps: MapSet, e: Event)
    requires maps.Valid() && Sound(db, maps) && Possible(db, e)
    ensures Sound(Handled(db, maps, e), maps)
  {
    hide Sound, WithNode, WithoutNode, WithSource, WithDestination, WithGpi, WithGpo;
    match e
    case Connected(host, image) => ConnectedKeepsSound(db, maps, host, image);
    case Disconnected(host) => DisconnectedKeepsSound(db, maps, host);
    case SourceChanged(host, slot, hostName, s) => SourceChangedKeepsSound(db, maps, Key(host, slot), hostName, s);
    case DestinationChanged(host, slot, hostName, d) =>
      DestinationChangedKeepsSound(db, maps, Key(host, slot), hostName, d);
    case GpiChanged(host, slot, code) => GpiChangedKeepsSound(db, maps, Key(host, slot), code);
    case GpoChanged(host, slot, code, name, link) =>
      GpoChangedKeepsSound(db, maps, Key(host, slot), code, name, link);
  }

  // ----- Whole runs -----

  ghost predicate IsRun(db: Database, maps: MapSet, events: seq<Event>)
    requires maps.Loaded()
    decreases |events|
  {
    events == [] || (Possible(db, events[0]) && IsRun(Handled(db, maps, events[0]), maps, events[1..]))
  }

  ghost function After(db: Database, maps: MapSet, events: seq<Event>): Database
    requires maps.Loaded()
    decreases |events|
  {
    if events == [] then db else After(Handled(db, maps, events[0]), maps, events[1..])
  }

  lemma {:induction false} RunKeepsSound(db: Database, maps: MapSet, events: seq<Event>)
    requires maps.Valid() && Sound(db, maps) && IsRun(db, maps, events)
    ensures Sound(After(db, maps, events), maps)
    decreases |events|
  {
    hide Sound, Handled, Possible;
    if events != [] {
      HandledKeepsSound(db, maps, events[0]);
      RunKeepsSound(Handled(db, maps, events[0]), maps, events[1..]);
    }
  }

  /** In every state the database can reach, the index tables are the joins they stand for. */
  lemma IndexesAlwaysAgree(maps: MapSet, events: seq<Event>)
    requires maps.Valid() && IsRun(EmptyDatabase(), maps, events)
    ensures IndexAgreement(After(EmptyDatabase(), maps, events), maps)
  {
    hide IsRun, After;
    RunKeepsSound(EmptyDatabase(), maps, events);
  }

  // ----- Notices -----

  function TextSlot(topic: Topic, key: Key): Notice {
    Ipc.Slot(topic, IPv4(key.host), key.slot)
  }

  /** A crosspoint notice compares the stored, normalised address with the raw one. */
  function DestinationNotices(db: Database, key: Key, d: DestinationImage): seq<Notice> {
    (if key in db.destinations.rows && db.destinations.rows[key].link != d.stream then [TextSlot(DstX, key)] else [])
    + [TextSlot(Dst, key)]
  }

  function GpiNotices(db: Database, key: Key, code: string): seq<Notice> {
    (if key in db.gpis.rows && Lower(db.gpis.rows[key].data.code) != Lower(code) then [TextSlot(GpiCode, key)] else [])
    + [TextSlot(Gpi, key)]
  }

  function GpoNotices(db: Database, key: Key, code: string, link: GpoLink): seq<Notice> {
    (if key in db.gpos.rows && db.gpos.rows[key].link != link then [TextSlot(GpoX, key)] else [])
    + (if key in db.gpos.rows && Lower(db.gpos.rows[key].data.code) != Lower(code) then [TextSlot(GpoCode, key)]
       else [])
    + [TextSlot(Gpo, key)]
  }

  /**
   * The notices of an event. That of a removal is sent before the rows go, but with the tables locked until they
   * have gone.
   */
  function Notices(db: Database, e: Event): seq<Notice> {
    match e
    case Connected(host, _) => [NodeAdd(IPv4(host))]
    case Disconnected(host) =>
      if host !in db.nodes then []
      else
        var n := db.nodes[host];
        [NodeDel(IPv4(host), n.sources, n.destinations, n.gpis, n.gpos)]
    case SourceChanged(host, slot, _, _) => [TextSlot(Src, Key(host, slot))]
    case DestinationChanged(host, slot, _, d) => DestinationNotices(db, Key(host, slot), d)
    case GpiChanged(host, slot, code) => GpiNotices(db, Key(host, slot), code)
    case GpoChanged(host, slot, code, _, link) => GpoNotices(db, Key(host, slot), code, link)
  }

  /**
   * No crosspoint change goes unannounced; and an announcement without a change happens exactly when the
   * matrix reports "no stream" in its raw form for a destination already stored as having none.
   */
  lemma CrosspointNoticeExact(db: Database, key: Key, d: DestinationImage)
    requires key in db.destinations.rows && StreamsNormal(db.destinations)
    ensures var before := db.destinations.rows[key].link;
            var announced := TextSlot(DstX, key) in DestinationNotices(db, key, d);
            && (before != Normalized(d.stream) ==> announced)
            && (announced && before == Normalized(d.stream) <==>
                  before == NULL_STREAM_ADDRESS && (d.stream == Null || d.stream == BROADCAST_ADDRESS))
  {
  }

  /**
   * A code notice of a GPI is sent exactly if its row gets another code, up to capitals; the notice of the row itself
   * is always sent, once and last, and nothing else is.
   */
  lemma GpiNoticesExact(db: Database, key: Key, code: string)
    ensures var ns, after := GpiNotices(db, key, code), WithGpi(db, key, code).gpis.rows;
            var differs := key in db.gpis.rows && after[key].data.code != Lower(db.gpis.rows[key].data.code);
            ns == (if differs then [Ipc.Slot(GpiCode, IPv4(key.host), key.slot)] else [])
                  + [Ipc.Slot(Gpi, IPv4(key.host), key.slot)]
  {
    hide Lower;
  }

  /** The same for a GPO, whose crosspoint notice is sent first and exactly if the GPI it follows is another. */
  lemma GpoNoticesExact(db: Database, key: Key, code: string, name: string, link: GpoLink)
    ensures var ns, after := GpoNotices(db, key, code, link), WithGpo(db, key, code, name, link).gpos.rows;
            var there := key in db.gpos.rows;
            ns == (if there && after[key].link != db.gpos.rows[key].link then [Ipc.Slot(GpoX, IPv4(key.host), key.slot)]
                   else [])
                  + (if there && after[key].data.code != Lower(db.gpos.rows[key].data.code)
                     then [Ipc.Slot(GpoCode, IPv4(key.host), key.slot)] else [])
                  + [Ipc.Slot(Gpo, IPv4(key.host), key.slot)]
  {
    hide Lower;
  }
}
