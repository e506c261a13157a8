/** What both clients do when a host comes back while the handler has yet to read of its departure. */
module Comebacks {
  import opened Addresses
  import opened RoutingTables
  import opened RoutingDatabase
  import opened Ipc
  import opened Replication
  import opened ProtocolD
  import opened ServerRuns
  import opened Following
  import Deliverability
  import DParserClient
  import DParserReplication
  import StateEngineClient
  import Loops = StateEngineReplication

  // ----- A host that comes back before its removal was handled -----

  /** An LWRP node without slots. */
  const BLANK := MatrixImage("", "", LwrpMatrix, [], [], [], [])

  function Bare(host: IPv4Number): Database {
    EmptyDatabase().(nodes := map[host := BLANK.Node()])
  }

  lemma BareIsSound(maps: MapSet, host: IPv4Number)
    requires maps.Valid()
    ensures WithNode(EmptyDatabase(), maps, host, BLANK) == Bare(host)
    ensures WithoutNode(Bare(host), host) == EmptyDatabase()
    ensures Sound(EmptyDatabase(), maps) && Sound(Bare(host), maps)
  {
    assert WithNode(EmptyDatabase(), maps, host, BLANK) == Bare(host);
    assert WithoutNode(Bare(host), host) == EmptyDatabase();
    ConnectedKeepsSound(EmptyDatabase(), maps, host, BLANK);
    hide Sound;
  }

  /**
   * The host is up when the client connects, goes down before the client has subscribed to nodes, and is up again
   * before its removal is handled, which then removes a node the client was never told of.
   */
  function ReturnSteps(host: IPv4Number): seq<ServerStep> {
    [Happens(Disconnected(host)), Subscribes(NodesSubject, NOTHING), Happens(Connected(host, BLANK)), Takes, Selects]
  }

  /** The server before each of these steps and after the last. */
  function ReturnState(host: IPv4Number, n: nat): Server {
    var gone, back := NodeDel(IPv4(host), 0, 0, 0, 0), NodeAdd(IPv4(host));
    var nodes := UNSUBSCRIBED.(nodes := true);
    match n
    case 0 => Connecting(Bare(host))
    case 1 => Server(EmptyDatabase(), UNSUBSCRIBED, [], [gone])
    case 2 => Server(EmptyDatabase(), nodes, [], [gone])
    case 3 => Server(Bare(host), nodes, [], [gone, back])
    case 4 => Server(Bare(host), nodes, [Removal(host, Counts(0, 0, 0, 0))], [back])
    case _ => Server(Bare(host), nodes, [], [back])
  }

  lemma EmptyListing()
    ensures SubscriptionListing(NodesSubject, EmptyDatabase(), NOTHING)
  {
    var none: seq<IPv4Number> := [];
    var nodes := NodesSeen(EmptyDatabase().nodes);
    assert Lists(none, nodes) && Listing(none, nodes) == [];
    assert NOTHING == NOTHING.(nodes := Listing(none, nodes));
  }

  lemma ReturnStep(maps: MapSet, host: IPv4Number, n: nat)
    requires maps.Valid() && n < 5
    ensures var s, step := ReturnState(host, n), ReturnSteps(host)[n];
            && Enabled(s, step) && Next(s, maps, step) == ReturnState(host, n + 1) && ComingEarly(s, step) <= {host}
            && Response(s, step) == match n case 1 => [Ok] case 4 => [Node(Remove(host))] case _ => []
  {
    BareIsSound(maps, host);
    EmptyListing();
    hide Sound, SubscriptionListing, WithNode, WithoutNode, EmptyDatabase, QueriesAll, HostAdds;
    match n
    case 0 => NodesOfBare(host);
    case 1 =>
    case 2 => NodesOfBare(host);
    case 3 => NodesOfBare(host);
    case _ => NodesOfBare(host);
  }

  lemma NodesOfBare(host: IPv4Number)
    ensures Bare(host).nodes == map[host := NodeRow("", "", LwrpMatrix, 0, 0, 0, 0)] && EmptyDatabase().nodes == map[]
  {
  }

  /** The rest of the run, from its step `n` on. */
  lemma {:induction false} ReturnRun(maps: MapSet, host: IPv4Number, n: nat)
    requires maps.Valid() && n <= 5
    ensures var s, steps := ReturnState(host, n), ReturnSteps(host)[n..];
            && IsServerRun(s, maps, steps) && EarlyReturns(s, maps, steps) <= {host}
            && Transcript(s, maps, steps) ==
               (if n <= 1 then [Ok] else []) + (if n <= 4 then [Node(Remove(host))] else [])
    decreases 5 - n
  {
    hide ReturnState, Enabled, Next, ComingEarly, Response;
    if n < 5 {
      ReturnStep(maps, host, n);
      ReturnRun(maps, host, n + 1);
      assert ReturnSteps(host)[n..][0] == ReturnSteps(host)[n]
             && ReturnSteps(host)[n..][1..] == ReturnSteps(host)[n + 1..];
    }
  }

  lemma FromTheStart(host: IPv4Number)
    ensures ReturnState(host, 0) == Connecting(Bare(host)) && ReturnSteps(host)[0..] == ReturnSteps(host)
  {
  }

  // ----- The C++ client -----

  predicate NoNulls(r: DParserClient.Replica) {
    && (forall i :: i in r.nodes ==> r.nodes[i].Some?) && (forall i :: i in r.sources ==> r.sources[i].Some?)
    && (forall i :: i in r.destinations ==> r.destinations[i].Some?)
  }

  /** A run of a handler for a new client, within the wire format, with no early return but of these hosts. */
  ghost predicate FairRun(db: Database, maps: MapSet, steps: seq<ServerStep>, early: set<IPv4Number>)
    requires maps.Loaded()
  {
    && Sound(db, maps) && Deliverability.DatabaseFits(db) && IsServerRun(Connecting(db), maps, steps)
    && (forall i :: 0 <= i < |steps| ==> Deliverability.StepFits(steps[i]))
    && EarlyReturns(Connecting(db), maps, steps) <= early
  }

  function ReplicaAfter(db: Database, maps: MapSet, steps: seq<ServerStep>): DParserClient.Replica
    requires maps.Loaded()
  {
    DParserClient.ReplayedAll(DParserClient.EMPTY_REPLICA, Transcript(Connecting(db), maps, steps))
  }

  /** No replica ever gets a null entry, in runs in which only these hosts come up while a select about them waits. */
  ghost predicate ReplicaIsSafe(maps: MapSet, early: set<IPv4Number>)
    requires maps.Loaded()
  {
    forall db, steps :: FairRun(db, maps, steps, early) ==> NoNulls(ReplicaAfter(db, maps, steps))
  }

  lemma TimelyReplicaIsSafe(db: Database, maps: MapSet, steps: seq<ServerStep>)
    requires maps.Valid() && FairRun(db, maps, steps, {})
    ensures NoNulls(ReplicaAfter(db, maps, steps))
  {
    hide Sound, Deliverability.DatabaseFits, IsServerRun, Deliverability.StepFits, EarlyReturns, Timely;
    hide Follows, HeldThrough;
    hide DParserReplication.KeysFit, DParserReplication.Copies, NoNulls, DParserClient.ReplayedAll, Transcript;
    hide Deliverability.ServerFits;
    DParserReplication.NothingCopied();
    FreshFollows(db, false);
    DParserReplication.ConnectingFits(db, maps);
    DParserReplication.RunCopies(DParserClient.EMPTY_REPLICA, NO_VIEW, Connecting(db), maps, steps, {});
    CopyHasNoNulls(ReplicaAfter(db, maps, steps), HeldThrough(NO_VIEW, Connecting(db), maps, steps, false));
  }

  lemma CopyHasNoNulls(r: DParserClient.Replica, v: View)
    requires DParserReplication.Copies(r, v)
    ensures NoNulls(r)
  {
  }

  lemma BareFits(host: IPv4Number)
    ensures Deliverability.DatabaseFits(Bare(host))
    ensures forall i :: 0 <= i < |ReturnSteps(host)| ==> Deliverability.StepFits(ReturnSteps(host)[i])
  {
  }

  lemma UnknownNodeIsNull(host: IPv4Number)
    ensures !NoNulls(DParserClient.ReplayedAll(DParserClient.EMPTY_REPLICA, [Ok] + [Node(Remove(host))]))
  {
    var ms := [Ok, Node(Remove(host))];
    assert [Ok] + [Node(Remove(host))] == ms && ms[..1] == [Ok] && [Ok][..0] == [];
    assert DParserClient.ReplayedAll(DParserClient.EMPTY_REPLICA, [Ok]) == DParserClient.EMPTY_REPLICA;
    assert host in DParserClient.ReplayedAll(DParserClient.EMPTY_REPLICA, ms).nodes;
  }

  /** The replica is safe exactly if no host at all may come up while a select about it waits. */
  lemma ReplicaNeedsTimelyHosts(maps: MapSet, early: set<IPv4Number>)
    requires maps.Valid()
    ensures ReplicaIsSafe(maps, early) <==> early == {}
  {
    hide FairRun, NoNulls, ReplicaAfter;
    if early == {} {
      forall db, steps | FairRun(db, maps, steps, early)
        ensures NoNulls(ReplicaAfter(db, maps, steps))
      {
        TimelyReplicaIsSafe(db, maps, steps);
      }
    } else {
      var host :| host in early;
      ReturnIsFair(maps, host, early);
    }
  }

  lemma ReturnIsFair(maps: MapSet, host: IPv4Number, early: set<IPv4Number>)
    requires maps.Valid() && host in early
    ensures FairRun(Bare(host), maps, ReturnSteps(host), early)
    ensures !NoNulls(ReplicaAfter(Bare(host), maps, ReturnSteps(host)))
  {
    hide Sound, Deliverability.DatabaseFits, IsServerRun, Deliverability.StepFits, EarlyReturns, NoNulls, Transcript;
    hide DParserClient.ReplayedAll, ReturnSteps, ReturnState, Bare, Connecting;
    BareIsSound(maps, host);
    BareFits(host);
    ReturnRun(maps, host, 0);
    FromTheStart(host);
    UnknownNodeIsNull(host);
  }

  // ----- The Python client -----

  /**
   * No engine ever ends in a lookup error, in runs in which only these hosts come up while a select about them waits.
   */
  ghost predicate EngineIsSafe(maps: MapSet, early: set<IPv4Number>)
    requires maps.Loaded()
  {
    forall db, steps ::
      Sound(db, maps) && Loops.IsLoopRun(Loops.Start(db), maps, steps)
      && Loops.EarlyReturns(Loops.Start(db), maps, steps) <= early ==>
        !Loops.LoopAfter(Loops.Start(db), maps, steps).engine.failed
  }

  /** The server's steps one by one, and then the two messages arrive. */
  function LoopSteps(host: IPv4Number, n: nat): seq<Loops.LoopStep>
    requires n <= 5
    decreases 5 - n
  {
    if n == 5 then [Loops.Arrives, Loops.Arrives] else [Loops.Serves(ReturnSteps(host)[n])] + LoopSteps(host, n + 1)
  }

  function LoopState(host: IPv4Number, n: nat): Loops.Loop {
    Loops.Loop(ReturnState(host, n), if n < 2 then 0 else 1,
               (if n < 2 then [] else [Ok]) + (if n < 5 then [] else [Node(Remove(host))]),
               StateEngineClient.FRESH_ENGINE)
  }

  lemma {:induction false} LoopServed(host: IPv4Number, n: nat)
    requires n <= 5
    ensures Loops.Served(LoopSteps(host, n)) == ReturnSteps(host)[n..]
    decreases 5 - n
  {
    hide ReturnSteps;
    assert |ReturnSteps(host)| == 5 by {
      FiveSteps(host);
    }
    if n < 5 {
      LoopServed(host, n + 1);
    } else {
      assert LoopSteps(host, n)[1..] == [Loops.Arrives] && [Loops.Arrives][1..] == [];
      assert Loops.Served([Loops.Arrives]) == [] && ReturnSteps(host)[5..] == [];
    }
  }

  lemma FiveSteps(host: IPv4Number)
    ensures |ReturnSteps(host)| == 5
  {
  }

  lemma LoopStepTaken(maps: MapSet, host: IPv4Number, n: nat)
    requires maps.Valid() && n < 5
    ensures var l, step := LoopState(host, n), Loops.Serves(ReturnSteps(host)[n]);
            Loops.Enabled(l, step) && Loops.Next(l, maps, step) == LoopState(host, n + 1)
  {
    hide ReturnState, Enabled, Next, ComingEarly, Response;
    ReturnStep(maps, host, n);
  }

  lemma {:induction false} LoopRun(maps: MapSet, host: IPv4Number, n: nat)
    requires maps.Valid() && n <= 5
    ensures Loops.IsLoopRun(LoopState(host, n), maps, LoopSteps(host, n))
    ensures Loops.LoopAfter(LoopState(host, n), maps, LoopSteps(host, n)).engine.failed
    decreases 5 - n
  {
    hide LoopState, Loops.Enabled, Loops.Next, ReturnSteps;
    assert |ReturnSteps(host)| == 5 by {
      FiveSteps(host);
    }
    if n < 5 {
      LoopStepTaken(maps, host, n);
      LoopRun(maps, host, n + 1);
      assert LoopSteps(host, n)[1..] == LoopSteps(host, n + 1);
    } else {
      UnknownNodeEnds(maps, host);
    }
  }

  lemma UnknownNodeEnds(maps: MapSet, host: IPv4Number)
    requires maps.Loaded()
    ensures Loops.IsLoopRun(LoopState(host, 5), maps, LoopSteps(host, 5))
    ensures Loops.LoopAfter(LoopState(host, 5), maps, LoopSteps(host, 5)).engine.failed
  {
    hide ReturnState;
    var l := LoopState(host, 5);
    var m := Loops.Next(l, maps, Loops.Arrives);
    var steps := LoopSteps(host, 5);
    assert l.inFlight[0] == Ok && l.inFlight[1..] == [Node(Remove(host))];
    assert m.inFlight == [Node(Remove(host))] && m.engine == StateEngineClient.OkStep(StateEngineClient.FRESH_ENGINE);
    var end := Loops.Next(m, maps, Loops.Arrives);
    assert end.engine.failed;
    assert steps[1..] == [Loops.Arrives] && steps[1..][1..] == [];
    assert Loops.IsLoopRun(end, maps, []) && Loops.LoopAfter(end, maps, []) == end;
    assert Loops.IsLoopRun(m, maps, [Loops.Arrives]) && Loops.LoopAfter(m, maps, [Loops.Arrives]) == end;
  }

  lemma StartOfLoop(host: IPv4Number)
    ensures LoopState(host, 0) == Loops.Start(Bare(host))
  {
  }

  /** The engine is safe exactly if no host at all may come up while a select about it waits. */
  lemma EngineNeedsTimelyHosts(maps: MapSet, early: set<IPv4Number>)
    requires maps.Valid()
    ensures EngineIsSafe(maps, early) <==> early == {}
  {
    hide Sound, Loops.IsLoopRun, Loops.LoopAfter, EarlyReturns, LoopSteps, LoopState, ReturnSteps, ReturnState;
    hide Bare, Loops.Start;
    hide Loops.Served;
    if early == {} {
      forall db, steps |
          Sound(db, maps) && Loops.IsLoopRun(Loops.Start(db), maps, steps)
          && Loops.EarlyReturns(Loops.Start(db), maps, steps) <= early
        ensures !Loops.LoopAfter(Loops.Start(db), maps, steps).engine.failed
      {
        Loops.EngineNeverFails(db, maps, steps);
      }
    } else {
      var host :| host in early;
      BareIsSound(maps, host);
      ReturnRun(maps, host, 0);
      FromTheStart(host);
      LoopServed(host, 0);
      LoopRun(maps, host, 0);
      StartOfLoop(host);
      ServerOfStart(Bare(host));
      assert Loops.EarlyReturns(Loops.Start(Bare(host)), maps, LoopSteps(host, 0)) <= early;
    }
  }

  lemma ServerOfStart(db: Database)
    ensures Loops.Start(db).server == Connecting(db)
  {
  }

  lemma NothingWritten()
    ensures Written(NOTHING) == []
  {
  }

  // ----- A removal that is read after the return -----

  lemma TableForgets<L, D>(
      on: bool, t: Table<L, D>, nodes: map<IPv4Number, NodeRow>, host: IPv4Number, n: nat, renews: bool)
    requires Lwrp(nodes, host) && Sized(t, host, n)
    ensures var after := RowsSeen(HostRemoved(t, host), map h | h in nodes && h != host :: nodes[h]);
            var ops: seq<Op<Key, Columns<L, D>>> := if on then HostRemoves(host, n) else [];
            && KnownAll(if on then RowsSeen(t, nodes) else map[], ops, renews)
            && TakenAll(if on then RowsSeen(t, nodes) else map[], ops, renews) == if on then after else map[]
  {
    if on {
      var seen := RowsSeen(t, nodes);
      var ops := HostRemoves<Columns<L, D>>(host, n);
      HostRemovesAre<Columns<L, D>>(host, n);
      forall i | 0 <= i < |ops|
        ensures ops[i].key in seen
      {
        assert ops[i].key == Key(host, i);
      }
      TakeRemovals(seen, ops, renews);
      var taken := TakenAll(seen, ops, renews);
      var after := RowsSeen(HostRemoved(t, host), map h | h in nodes && h != host :: nodes[h]);
      forall k
        ensures k in taken <==> k in after
      {
        if k.host == host && k in seen {
          assert ops[k.slot].key == k;
        }
      }
      SameEntries(taken, after);
    }
  }

  lemma NodeForgotten(on: bool, nodes: map<IPv4Number, NodeRow>, host: IPv4Number, renews: bool)
    requires Lwrp(nodes, host)
    ensures var after := NodesSeen(map h | h in nodes && h != host :: nodes[h]);
            var ops: seq<Op<IPv4Number, NodeInfo>> := if on then [Remove(host)] else [];
            && KnownAll(if on then NodesSeen(nodes) else map[], ops, renews)
            && TakenAll(if on then NodesSeen(nodes) else map[], ops, renews) == if on then after else map[]
  {
    if on {
      TakeOne(NodesSeen(nodes), Remove(host), renews);
      assert Applied(NodesSeen(nodes), Remove(host)) == NodesSeen(map h | h in nodes && h != host :: nodes[h]);
    }
  }

  /** Written in time, the removals would be complete. */
  lemma RemovalIsComplete(subs: Subscriptions, db: Database, maps: MapSet, host: IPv4Number, renews: bool)
    requires Sound(db, maps) && Lwrp(db.nodes, host)
    ensures var b := Subscribed(subs, RemovalBatch(host, CountsOf(db, host)));
            && KnownBatch(SeenBy(subs, db), b, renews)
            && HeldAfter(SeenBy(subs, db), b, renews) == SeenBy(subs, WithoutNode(db, host))
  {
    assert ShapedAt(db, host);
    hide Sound, RowsSeen, NodesSeen, HostRemoved, Sized, HostRemoves, KnownAll, TakenAll;
    var n := db.nodes[host];
    NodeForgotten(subs.nodes, db.nodes, host, renews);
    TableForgets(subs.sources, db.sources, db.nodes, host, n.sources, renews);
    TableForgets(subs.destinations, db.destinations, db.nodes, host, n.destinations, renews);
    TableForgets(subs.gpis, db.gpis, db.nodes, host, n.gpis, renews);
    TableForgets(subs.gpos, db.gpos, db.nodes, host, n.gpos, renews);
  }

  /** An LWRP node goes down and comes up again as another before the handler has read either notice. */
  function BackAtOnce(host: IPv4Number, image: MatrixImage): seq<ServerStep> {
    [Happens(Disconnected(host)), Happens(Connected(host, image)), Takes, Selects]
  }

  lemma ReturnHandled(s: Server, maps: MapSet, host: IPv4Number, image: MatrixImage)
    requires maps.Loaded() && s.current == [] && s.pending == [] && host in s.db.nodes && image.matrixType == LwrpMatrix
    ensures var steps := BackAtOnce(host, image);
            && IsServerRun(s, maps, steps)
            && ServerAfter(s, maps, steps) ==
               Server(WithNode(WithoutNode(s.db, host), maps, host, image), s.subs, [], [NodeAdd(IPv4(host))])
            && Transcript(s, maps, steps) == Written(Subscribed(s.subs, RemovalBatch(host, CountsOf(s.db, host))))
  {
    hide WithNode, WithoutNode, Written, Subscribed, RemovalBatch, HostAdds, HostBatch, RowBatch, IsServerRun;
    hide ServerAfter, Transcript;
    var steps, n := BackAtOnce(host, image), CountsOf(s.db, host);
    var gone, back := NodeDel(IPv4(host), n.sources, n.destinations, n.gpis, n.gpos), NodeAdd(IPv4(host));
    var down := WithoutNode(s.db, host);
    var up := WithNode(down, maps, host, image);
    ReturnedNode(s.db, maps, host, image);
    var s1 := Server(down, s.subs, [], [gone]);
    var s2 := Server(up, s.subs, [], [gone, back]);
    var s3 := Server(up, s.subs, [Removal(host, n)], [back]);
    var s4 := Server(up, s.subs, [], [back]);
    assert Next(s, maps, steps[0]) == s1 && Next(s1, maps, steps[1]) == s2;
    assert Next(s2, maps, Takes) == s3 && Next(s3, maps, Selects) == s4;
    assert Enabled(s, steps[0]) && Enabled(s1, steps[1]) && Enabled(s2, Takes) && Enabled(s3, Selects);
    NothingWritten();
    assert Response(s, steps[0]) == Response(s1, steps[1]) == Response(s2, Takes) == [];
    assert Response(s3, Selects) == Written(Subscribed(s.subs, RemovalBatch(host, n)));
    hide Next, Enabled, Response;
    assert [steps[1]] + [Takes, Selects] == [steps[1], Takes, Selects];
    assert [steps[0]] + [steps[1], Takes, Selects] == steps;
    LastTwo(s2, s3, s4, maps);
    RunFrom(s1, s2, maps, steps[1], [Takes, Selects]);
    RunFrom(s, s1, maps, steps[0], [steps[1], Takes, Selects]);
  }

  lemma RunFrom(s: Server, t: Server, maps: MapSet, step: ServerStep, rest: seq<ServerStep>)
    requires maps.Loaded() && Enabled(s, step) && Next(s, maps, step) == t && IsServerRun(t, maps, rest)
    ensures IsServerRun(s, maps, [step] + rest) && ServerAfter(s, maps, [step] + rest) == ServerAfter(t, maps, rest)
    ensures Transcript(s, maps, [step] + rest) == Response(s, step) + Transcript(t, maps, rest)
  {
    hide Enabled, Next, Response;
    assert ([step] + rest)[1..] == rest;
  }

  lemma LastTwo(s: Server, t: Server, u: Server, maps: MapSet)
    requires maps.Loaded() && Enabled(s, Takes) && Next(s, maps, Takes) == t
    requires Enabled(t, Selects) && Next(t, maps, Selects) == u
    requires Response(s, Takes) == []
    ensures IsServerRun(s, maps, [Takes, Selects]) && ServerAfter(s, maps, [Takes, Selects]) == u
    ensures Transcript(s, maps, [Takes, Selects]) == Response(t, Selects)
  {
    hide Enabled, Next, Response;
    assert IsServerRun(u, maps, []) && ServerAfter(u, maps, []) == u && Transcript(u, maps, []) == [];
    RunFrom(t, u, maps, Selects, []);
    assert [Selects] + [] == [Selects];
    RunFrom(s, t, maps, Takes, [Selects]);
    assert [Takes] + [Selects] == [Takes, Selects];
  }

  lemma ReturnedNode(db: Database, maps: MapSet, host: IPv4Number, image: MatrixImage)
    requires maps.Loaded() && image.matrixType == LwrpMatrix
    ensures host !in WithoutNode(db, host).nodes
    ensures Lwrp(WithNode(WithoutNode(db, host), maps, host, image).nodes, host)
  {
    hide HostAdded, HostRemoved;
  }

  /**
   * Then the removals are written after all, and an accurate client of either kind is in step as though nothing had
   * departed: with the notice that is left handled it equals the tables.
   */
  lemma ReturnReplacesHost(s: Server, maps: MapSet, host: IPv4Number, image: MatrixImage, renews: bool)
    requires maps.Valid() && Sound(s.db, maps) && s.current == [] && s.pending == []
    requires Lwrp(s.db.nodes, host) && image.matrixType == LwrpMatrix
    ensures var t := ServerAfter(s, maps, BackAtOnce(host, image));
            var b := Subscribed(s.subs, RemovalBatch(host, CountsOf(s.db, host)));
            && Transcript(s, maps, BackAtOnce(host, image)) == Written(b)
            && KnownBatch(SeenBy(s.subs, s.db), b, renews) && Timely(t)
            && Follows(HeldAfter(SeenBy(s.subs, s.db), b, renews), t, {}, renews)
  {
    hide Sound, WithNode, WithoutNode, KnownBatch, HeldAfter, SeenBy, Seen, RemovalBatch, Subscribed;
    hide InStepWith, Comes, HostQueries;
    ReturnHandled(s, maps, host, image);
    RemovalIsComplete(s.subs, s.db, maps, host, renews);
    var down := WithoutNode(s.db, host);
    var up := WithNode(down, maps, host, image);
    var t := Server(up, s.subs, [], [NodeAdd(IPv4(host))]);
    DisconnectedKeepsSound(s.db, maps, host);
    ReturnedNode(s.db, maps, host, image);
    SeenComes(down, maps, host, image);
    ExactFollows(s.subs, down, renews);
    FollowsComing(SeenBy(s.subs, down), s.subs, Seen(down), Seen(up), [], {}, renews, host);
    WaitingForHost(t, host);
    assert [] + (HostQueries(host) + HostQueries(host)) == Waiting(t);
  }

  lemma WaitingForHost(t: Server, host: IPv4Number)
    requires t.current == [] && t.pending == [NodeAdd(IPv4(host))]
    ensures Waiting(t) == HostQueries(host) + HostQueries(host) && Timely(t)
  {
    assert t.pending[1..] == [] && QueriesAll([]) == [];
  }

  /** A client that equals the tables is in step, with nothing left to ask. */
  lemma ExactFollows(subs: Subscriptions, db: Database, renews: bool)
    ensures InStepWith(SeenBy(subs, db), subs, Seen(db), [], {}, renews)
  {
    hide Seen;
  }
}
