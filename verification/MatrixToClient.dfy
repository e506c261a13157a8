/**
 * From a matrix to the clients: what its image says, column by column, is what a client shows of it, once nothing is
 * left to ask and if it has not departed since the client asked for the table.
 */
module MatrixToClient {
  import opened Addresses
  import opened Text
  import opened RoutingTables
  import opened RoutingDatabase
  import opened Ipc
  import opened Replication
  import opened ProtocolD
  import opened ServerRuns
  import opened Deliverability
  import opened Following
  import opened TableByTable
  import opened PlantRuns
  import opened DParserClient
  import opened DParserReplication
  import Loops = StateEngineReplication

  // ----- What subscribers see -----

  ghost predicate NodeShown(n: NodeInfo, image: MatrixImage) {
    && n.hostName == image.hostName && n.deviceName == image.deviceName
    && n.sources == |image.sources| && n.destinations == |image.destinations|
    && n.gpis == |image.gpis| && n.gpos == |image.gpos|
  }

  ghost predicate SourcesShown(shown: map<Key, SourceColumns>, host: IPv4Number, image: MatrixImage) {
    forall s: nat :: s < |image.sources| ==>
      && Key(host, s) in shown
      && var c, source := shown[Key(host, s)], image.sources[s];
         && c.link == Normalized(source.stream) && c.data.hostName == image.hostName && c.data.name == source.name
         && c.data.enabled == source.enabled && c.data.channels == source.channels
         && c.data.blockSize == source.blockSize
  }

  ghost predicate DestinationsShown(shown: map<Key, DestinationColumns>, host: IPv4Number, image: MatrixImage) {
    forall s: nat :: s < |image.destinations| ==>
      && Key(host, s) in shown
      && var c, d := shown[Key(host, s)], image.destinations[s];
         && c.link == Normalized(d.stream) && c.data.hostName == image.hostName && c.data.name == d.name
         && c.data.channels == d.channels
  }

  ghost predicate GpisShown(shown: map<Key, GpiColumns>, host: IPv4Number, image: MatrixImage) {
    forall s: nat :: s < |image.gpis| ==>
      && Key(host, s) in shown
      && var data := shown[Key(host, s)].data;
         data.hostName == image.hostName && Lower(data.code) == Lower(image.gpis[s])
  }

  ghost predicate GposShown(shown: map<Key, GpoColumns>, host: IPv4Number, image: MatrixImage) {
    forall s: nat :: s < |image.gpos| ==>
      && Key(host, s) in shown
      && var c, g := shown[Key(host, s)], image.gpos[s];
         && c.link == g.link && c.data.hostName == image.hostName
         && (Lower(c.data.code) == Lower(g.code) || Lower(c.data.code) == Lower(g.bundleCode))
         && (c.data.name == g.name || (g.name == "" && c.data.name == "GPO " + PrintNat(s + 1)))
  }

  /** Of the tables subscribed that the host has not left, everything the matrix says. */
  ghost predicate Shows(v: View, subs: Subscriptions, gone: Leavers, host: IPv4Number, image: MatrixImage) {
    && (subs.nodes && host !in gone.nodes ==> host in v.nodes && NodeShown(v.nodes[host], image))
    && (subs.sources && host !in gone.sources ==> SourcesShown(v.sources, host, image))
    && (subs.destinations && host !in gone.destinations ==> DestinationsShown(v.destinations, host, image))
    && (subs.gpis && host !in gone.gpis ==> GpisShown(v.gpis, host, image))
    && (subs.gpos && host !in gone.gpos ==> GposShown(v.gpos, host, image))
  }

  lemma SeenShows(db: Database, host: IPv4Number, image: MatrixImage)
    requires host in db.nodes && AsReported(db, host, image) && image.matrixType == LwrpMatrix
    ensures var v := Seen(db);
            && host in v.nodes && NodeShown(v.nodes[host], image)
            && SourcesShown(v.sources, host, image) && DestinationsShown(v.destinations, host, image)
            && GpisShown(v.gpis, host, image) && GposShown(v.gpos, host, image)
  {
    hide Lower, PrintNat;
  }

  lemma TableShows<K(!new), V>(
      on: bool, held: map<K, V>, shown: map<K, V>, gone: set<IPv4Number>, home: K -> IPv4Number, renews: bool)
    requires Accurate(held, if on then shown else map[], gone, home, renews)
    ensures forall k :: on && k in shown && (renews || home(k) !in gone) ==> k in held && held[k] == shown[k]
  {
  }

  /** An accurate client shows each connected LWRP matrix as it is; one that renews, whether it has departed or not. */
  lemma PortraitShows(
      v: View, subs: Subscriptions, db: Database, gone: Leavers, renews: bool, host: IPv4Number, image: MatrixImage)
    requires Portrays(v, SeenBy(subs, db), gone, renews)
    requires host in db.nodes && AsReported(db, host, image) && image.matrixType == LwrpMatrix
    ensures Shows(v, subs, if renews then NOBODY else gone, host, image)
  {
    hide Seen, AsReported, Accurate, Lower, PrintNat;
    SeenShows(db, host, image);
    var seen := Seen(db);
    TableShows(subs.nodes, v.nodes, seen.nodes, gone.nodes, HostItself, renews);
    TableShows(subs.sources, v.sources, seen.sources, gone.sources, HostOfKey, renews);
    TableShows(subs.destinations, v.destinations, seen.destinations, gone.destinations, HostOfKey, renews);
    TableShows(subs.gpis, v.gpis, seen.gpis, gone.gpis, HostOfKey, renews);
    TableShows(subs.gpos, v.gpos, seen.gpos, gone.gpos, HostOfKey, renews);
  }

  /**
   * The Python client after any run without early returns: with nothing left to ask and all arrived, its dictionaries
   * of the tables subscribed show every connected LWRP matrix as it is, column by column.
   */
  lemma EngineShowsMatrix(
      db: Database, maps: MapSet, steps: seq<Loops.LoopStep>, host: IPv4Number, image: MatrixImage)
    requires maps.Valid() && Sound(db, maps) && Loops.IsLoopRun(Loops.Start(db), maps, steps)
    requires Loops.EarlyReturns(Loops.Start(db), maps, steps) == {}
    requires var l := Loops.LoopAfter(Loops.Start(db), maps, steps);
             && Waiting(l.server) == [] && host in l.server.db.nodes
             && AsReported(l.server.db, host, image) && image.matrixType == LwrpMatrix
    ensures var l := Loops.LoopAfter(Loops.Start(db), maps, steps);
            Shows(Loops.Settled(l).dicts, l.server.subs, NOBODY, host, image)
  {
    hide Sound, Loops.IsLoopRun, Loops.LoopAfter, EarlyReturns, Loops.LeftBehind, Portrays, SeenBy, Waiting, Shows;
    hide Loops.Settled, AsReported;
    Loops.SettledShowsTables(db, maps, steps);
    var l := Loops.LoopAfter(Loops.Start(db), maps, steps);
    PortraitShows(Loops.Settled(l).dicts, l.server.subs, l.server.db, Loops.LeftBehind(Loops.Start(db), maps, steps),
                  true, host, image);
  }

  /** Of a host that is not in the tables, or not as an LWRP node, a client has at most what it left behind. */
  ghost predicate Hides(v: View, gone: Leavers, host: IPv4Number) {
    && (host in v.nodes ==> host in gone.nodes)
    && (forall k :: k in v.sources && k.host == host ==> host in gone.sources)
    && (forall k :: k in v.destinations && k.host == host ==> host in gone.destinations)
    && (forall k :: k in v.gpis && k.host == host ==> host in gone.gpis)
    && (forall k :: k in v.gpos && k.host == host ==> host in gone.gpos)
  }

  lemma PortraitHides(v: View, subs: Subscriptions, db: Database, gone: Leavers, renews: bool, host: IPv4Number)
    requires Portrays(v, SeenBy(subs, db), gone, renews)
    requires host !in db.nodes || db.nodes[host].matrixType != LwrpMatrix
    ensures Hides(v, gone, host)
  {
    var seen := SeenBy(subs, db);
    assert forall k: Key :: k.host == host ==>
        k !in seen.sources && k !in seen.destinations && k !in seen.gpis && k !in seen.gpos;
    hide SeenBy;
  }

  /** Matrices of other makes are never shown to the Python client. */
  lemma EngineHidesOthers(db: Database, maps: MapSet, steps: seq<Loops.LoopStep>, host: IPv4Number)
    requires maps.Valid() && Sound(db, maps) && Loops.IsLoopRun(Loops.Start(db), maps, steps)
    requires Loops.EarlyReturns(Loops.Start(db), maps, steps) == {}
    requires var l := Loops.LoopAfter(Loops.Start(db), maps, steps);
             && Waiting(l.server) == []
             && (host !in l.server.db.nodes || l.server.db.nodes[host].matrixType != LwrpMatrix)
    ensures var l := Loops.LoopAfter(Loops.Start(db), maps, steps);
            Hides(Loops.Settled(l).dicts, Loops.LeftBehind(Loops.Start(db), maps, steps), host)
  {
    hide Sound, Loops.IsLoopRun, Loops.LoopAfter, EarlyReturns, Loops.LeftBehind, Portrays, SeenBy, Waiting, Hides;
    hide Loops.Settled;
    Loops.SettledShowsTables(db, maps, steps);
    var l := Loops.LoopAfter(Loops.Start(db), maps, steps);
    PortraitHides(Loops.Settled(l).dicts, l.server.subs, l.server.db, Loops.LeftBehind(Loops.Start(db), maps, steps),
                  true, host);
  }

  // ----- The replica -----

  ghost predicate ReplicaSources(m: map<nat, Option<SourceEntry>>, host: IPv4Number, image: MatrixImage) {
    forall s: nat :: s < |image.sources| ==>
      && ToIndex(host, s) in m && m[ToIndex(host, s)].Some?
      && var x, source := m[ToIndex(host, s)].value, image.sources[s];
         && x.stream == Normalized(source.stream) && x.name == source.name && x.enabled == source.enabled
         && x.channels == source.channels && x.packetSize == source.blockSize
  }

  ghost predicate ReplicaDestinations(m: map<nat, Option<DestinationEntry>>, host: IPv4Number, image: MatrixImage) {
    forall s: nat :: s < |image.destinations| ==>
      && ToIndex(host, s) in m && m[ToIndex(host, s)].Some?
      && var x, d := m[ToIndex(host, s)].value, image.destinations[s];
         x.stream == Normalized(d.stream) && x.name == d.name && x.channels == d.channels
  }

  ghost predicate ReplicaShows(r: Replica, subs: Subscriptions, gone: Leavers, host: IPv4Number, image: MatrixImage) {
    && (subs.nodes && host !in gone.nodes ==>
          host in r.nodes && r.nodes[host].Some? && NodeShown(r.nodes[host].value, image))
    && (subs.sources && host !in gone.sources ==> ReplicaSources(r.sources, host, image))
    && (subs.destinations && host !in gone.destinations ==> ReplicaDestinations(r.destinations, host, image))
  }

  lemma PicturesShow(
      r: Replica, subs: Subscriptions, db: Database, gone: Leavers, host: IPv4Number, image: MatrixImage)
    requires ReplicaPictures(r, SeenBy(subs, db), gone)
    requires host in db.nodes && AsReported(db, host, image) && image.matrixType == LwrpMatrix
    ensures ReplicaShows(r, subs, gone, host, image)
  {
    hide Seen, AsReported, Lower, PrintNat, ToIndex;
    SeenShows(db, host, image);
    if subs.nodes {
      assert host in SeenBy(subs, db).nodes && HostOf(host) == host;
    }
    forall s: nat
      ensures IndexOf(Key(host, s)) == ToIndex(host, s)
    {
    }
  }

  /**
   * The C++ client after any run without early returns, with nothing left to ask: its entries of the tables
   * subscribed show every LWRP matrix that is connected and has not departed since, column by column.
   */
  lemma ReplicaShowsMatrix(
      db: Database, maps: MapSet, steps: seq<ServerStep>, host: IPv4Number, image: MatrixImage)
    requires maps.Valid() && Sound(db, maps) && DatabaseFits(db) && IsServerRun(Connecting(db), maps, steps)
    requires (forall i :: 0 <= i < |steps| ==> StepFits(steps[i])) && EarlyReturns(Connecting(db), maps, steps) == {}
    requires var t := ServerAfter(Connecting(db), maps, steps);
             && Waiting(t) == [] && host in t.db.nodes
             && AsReported(t.db, host, image) && image.matrixType == LwrpMatrix
    ensures var t := ServerAfter(Connecting(db), maps, steps);
            ReplicaShows(ReplayedAll(EMPTY_REPLICA, Transcript(Connecting(db), maps, steps)), t.subs,
                         Left(Connecting(db), maps, steps), host, image)
  {
    hide Sound, DatabaseFits, IsServerRun, ServerAfter, Transcript, StepFits, EarlyReturns, Left, Waiting, SeenBy;
    hide ReplayedAll, ReplicaPictures, ReplicaShows, AsReported;
    ReplicaPicturesTables(db, maps, steps);
    var t := ServerAfter(Connecting(db), maps, steps);
    PicturesShow(ReplayedAll(EMPTY_REPLICA, Transcript(Connecting(db), maps, steps)), t.subs, t.db,
                 Left(Connecting(db), maps, steps), host, image);
  }

  ghost predicate ReplicaHides(r: Replica, gone: Leavers, host: IPv4Number) {
    && (host in r.nodes ==> host in gone.nodes)
    && (forall s :: IsSlot(s) && ToIndex(host, s) in r.sources ==> host in gone.sources)
    && (forall s :: IsSlot(s) && ToIndex(host, s) in r.destinations ==> host in gone.destinations)
  }

  lemma TableHides<V, W>(
      m: map<nat, Option<W>>, shown: map<Key, V>, gone: set<IPv4Number>, entry: V -> W, host: IPv4Number, slot: int)
    requires Pictures(m, shown, gone, HostOfKey, IndexOf, GoodKey, entry) && IsSlot(slot) && ToIndex(host, slot) in m
    requires forall k :: k in shown ==> k.host != host
    ensures host in gone
  {
    var k :| GoodKey(k) && IndexOf(k) == ToIndex(host, slot) && (k in shown || HostOfKey(k) in gone);
    IndexReadsBack(host, slot);
    IndexReadsBack(k.host, k.slot);
  }

  lemma PicturesHide(r: Replica, subs: Subscriptions, db: Database, gone: Leavers, host: IPv4Number)
    requires ReplicaPictures(r, SeenBy(subs, db), gone)
    requires host !in db.nodes || db.nodes[host].matrixType != LwrpMatrix
    ensures ReplicaHides(r, gone, host)
  {
    var seen := SeenBy(subs, db);
    assert host !in seen.nodes && forall k: Key :: k.host == host ==> k !in seen.sources && k !in seen.destinations;
    NodeHides(r.nodes, seen.nodes, gone.nodes, host);
    hide SeenBy, ToIndex, Pictures;
    forall s | IsSlot(s) && ToIndex(host, s) in r.sources
      ensures host in gone.sources
    {
      TableHides(r.sources, seen.sources, gone.sources, SourceOf, host, s);
    }
    forall s | IsSlot(s) && ToIndex(host, s) in r.destinations
      ensures host in gone.destinations
    {
      TableHides(r.destinations, seen.destinations, gone.destinations, DestinationOf, host, s);
    }
  }

  lemma NodeHides(
      m: map<nat, Option<NodeInfo>>, shown: map<IPv4Number, NodeInfo>, gone: set<IPv4Number>, host: IPv4Number)
    requires Pictures(m, shown, gone, HostItself, HostOf, AnyHost, Same) && host !in shown
    ensures host in m ==> host in gone
  {
    if host in m {
      var h :| AnyHost(h) && HostOf(h) == host && (h in shown || HostItself(h) in gone);
    }
  }

  /** Nor to the C++ client. */
  lemma ReplicaHidesOthers(db: Database, maps: MapSet, steps: seq<ServerStep>, host: IPv4Number)
    requires maps.Valid() && Sound(db, maps) && DatabaseFits(db) && IsServerRun(Connecting(db), maps, steps)
    requires (forall i :: 0 <= i < |steps| ==> StepFits(steps[i])) && EarlyReturns(Connecting(db), maps, steps) == {}
    requires var t := ServerAfter(Connecting(db), maps, steps);
             Waiting(t) == [] && (host !in t.db.nodes || t.db.nodes[host].matrixType != LwrpMatrix)
    ensures ReplicaHides(ReplayedAll(EMPTY_REPLICA, Transcript(Connecting(db), maps, steps)),
                         Left(Connecting(db), maps, steps), host)
  {
    hide Sound, DatabaseFits, IsServerRun, ServerAfter, Transcript, StepFits, EarlyReturns, Left, Waiting, SeenBy;
    hide ReplayedAll, ReplicaPictures, ReplicaHides;
    ReplicaPicturesTables(db, maps, steps);
    var t := ServerAfter(Connecting(db), maps, steps);
    PicturesHide(ReplayedAll(EMPTY_REPLICA, Transcript(Connecting(db), maps, steps)), t.subs, t.db,
                 Left(Connecting(db), maps, steps), host);
  }
}
