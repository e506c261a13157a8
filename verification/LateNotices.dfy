/** What late notices leave behind even when every host waits for them: departed nodes, and slots before their nodes. */
module LateNotices {
  import opened Addresses
  import opened RoutingTables
  import opened RoutingDatabase
  import opened Replication
  import opened ProtocolD
  import opened ServerRuns
  import opened Following
  import opened Comebacks
  import Text
  import StateEngineClient
  import Loops = StateEngineReplication

  // ----- Joining runs, and catching up -----

  lemma {:induction false} RunsJoin(s: Server, maps: MapSet, a: seq<ServerStep>, b: seq<ServerStep>)
    requires maps.Loaded()
    ensures EarlyReturns(s, maps, a + b) == EarlyReturns(s, maps, a) + EarlyReturns(ServerAfter(s, maps, a), maps, b)
    ensures Departed(s, maps, a + b) == Departed(s, maps, a) + Departed(ServerAfter(s, maps, a), maps, b)
    ensures ListedEarly(s, maps, a + b) == ListedEarly(s, maps, a) + ListedEarly(ServerAfter(s, maps, a), maps, b)
    decreases |a|
  {
    hide Next, ComingEarly, Departing, ListingEarly;
    if a == [] {
      assert a + b == b;
    } else {
      assert (a + b)[0] == a[0] && (a + b)[1..] == a[1..] + b;
      RunsJoin(Next(s, maps, a[0]), maps, a[1..], b);
    }
  }

  lemma {:induction false} LoopRunsJoin(l: Loops.Loop, maps: MapSet, a: seq<Loops.LoopStep>, b: seq<Loops.LoopStep>)
    requires maps.Loaded() && Loops.IsLoopRun(l, maps, a) && Loops.IsLoopRun(Loops.LoopAfter(l, maps, a), maps, b)
    ensures Loops.IsLoopRun(l, maps, a + b)
    ensures Loops.LoopAfter(l, maps, a + b) == Loops.LoopAfter(Loops.LoopAfter(l, maps, a), maps, b)
    decreases |a|
  {
    hide Loops.Enabled, Loops.Next;
    if a == [] {
      assert a + b == b;
    } else {
      assert (a + b)[0] == a[0] && (a + b)[1..] == a[1..] + b;
      LoopRunsJoin(Loops.Next(l, maps, a[0]), maps, a[1..], b);
    }
  }

  lemma {:induction false} ServedJoin(a: seq<Loops.LoopStep>, b: seq<Loops.LoopStep>)
    ensures Loops.Served(a + b) == Loops.Served(a) + Loops.Served(b)
    decreases |a|
  {
    if a == [] {
      assert a + b == b;
    } else {
      assert (a + b)[0] == a[0] && (a + b)[1..] == a[1..] + b;
      ServedJoin(a[1..], b);
    }
  }

  /** Nothing is on its way and nothing is left to ask. */
  predicate Resting(l: Loops.Loop) {
    l.inFlight == [] && Waiting(l.server) == []
  }

  /** A run without early returns. */
  ghost predicate Timed(l: Loops.Loop, maps: MapSet, steps: seq<Loops.LoopStep>)
    requires maps.Loaded()
  {
    Loops.IsLoopRun(l, maps, steps) && Loops.EarlyReturns(l, maps, steps) == {}
  }

  lemma TimedJoin(l: Loops.Loop, maps: MapSet, a: seq<Loops.LoopStep>, b: seq<Loops.LoopStep>)
    requires maps.Loaded() && Timed(l, maps, a) && Timed(Loops.LoopAfter(l, maps, a), maps, b)
    ensures Timed(l, maps, a + b)
    ensures Loops.LoopAfter(l, maps, a + b) == Loops.LoopAfter(Loops.LoopAfter(l, maps, a), maps, b)
    ensures Loops.Departed(l, maps, a + b) ==
            Loops.Departed(l, maps, a) + Loops.Departed(Loops.LoopAfter(l, maps, a), maps, b)
    ensures Loops.ListedEarly(l, maps, a + b) ==
            Loops.ListedEarly(l, maps, a) + Loops.ListedEarly(Loops.LoopAfter(l, maps, a), maps, b)
  {
    hide Loops.IsLoopRun, Loops.LoopAfter, EarlyReturns, Departed, ListedEarly, Loops.Served, ServerAfter;
    LoopRunsJoin(l, maps, a, b);
    ServedJoin(a, b);
    Loops.ServerOfRun(l, maps, a);
    RunsJoin(l.server, maps, Loops.Served(a), Loops.Served(b));
  }

  lemma OneMore(l: Loops.Loop, maps: MapSet, step: Loops.LoopStep, rest: seq<Loops.LoopStep>)
    requires maps.Loaded() && Loops.Enabled(l, step) && (step.Serves? ==> ComingEarly(l.server, step.step) == {})
    requires Timed(Loops.Next(l, maps, step), maps, rest)
    ensures Timed(l, maps, [step] + rest)
    ensures Loops.LoopAfter(l, maps, [step] + rest) == Loops.LoopAfter(Loops.Next(l, maps, step), maps, rest)
    ensures Loops.Departed(l, maps, [step] + rest) ==
            (if step.Serves? then Departing(l.server, step.step) else {})
            + Loops.Departed(Loops.Next(l, maps, step), maps, rest)
    ensures Loops.ListedEarly(l, maps, [step] + rest) ==
            (if step.Serves? then ListingEarly(l.server, step.step) else {})
            + Loops.ListedEarly(Loops.Next(l, maps, step), maps, rest)
  {
    hide Loops.Enabled, Loops.Next, Next, ComingEarly, Departing, ListingEarly;
    var steps := [step] + rest;
    assert steps[0] == step && steps[1..] == rest;
    Loops.ServerOfNext(l, maps, step);
    var served := Loops.Served(rest);
    if step.Serves? {
      assert Loops.Served(steps) == [step.step] + served && ([step.step] + served)[1..] == served;
    } else {
      assert Loops.Served(steps) == served;
      var next := Loops.Next(l, maps, step);
      assert {} + Loops.Departed(next, maps, rest) == Loops.Departed(next, maps, rest);
      assert {} + Loops.ListedEarly(next, maps, rest) == Loops.ListedEarly(next, maps, rest);
    }
  }

  lemma NoMore(l: Loops.Loop, maps: MapSet)
    requires maps.Loaded()
    ensures Timed(l, maps, []) && Loops.LoopAfter(l, maps, []) == l && Loops.Departed(l, maps, []) == {}
    ensures Loops.ListedEarly(l, maps, []) == {}
  {
  }

  ghost predicate NoNodes(nodes: map<IPv4Number, NodeRow>) {
    forall h :: !Lwrp(nodes, h)
  }

  lemma NobodyIsWritten(s: Server)
    requires s.current != [] && NoNodes(s.db.nodes)
    ensures Response(s, Selects) == []
  {
    hide HostBatch, RemovalBatch;
    assert !Lwrp(s.db.nodes, s.current[0].host);
    assert Read(s.db, s.current[0]) == NOTHING;
  }

  /** What the handler and the connection do next by themselves. */
  function NextByItself(l: Loops.Loop): Loops.LoopStep {
    if l.server.current != [] then Loops.Serves(Selects)
    else if l.server.pending != [] then Loops.Serves(Takes)
    else Loops.Arrives
  }

  lemma GoesOn(l: Loops.Loop, maps: MapSet)
    requires maps.Loaded() && (l.inFlight != [] || l.server.current != [] || l.server.pending != [])
    ensures var step := NextByItself(l);
            && Loops.Enabled(l, step) && Loops.Next(l, maps, step).answered == l.answered
            && (step.Serves? ==>
                  && ComingEarly(l.server, step.step) == Departing(l.server, step.step) == {}
                  && ListingEarly(l.server, step.step) == {})
            && (NoNodes(l.server.db.nodes) ==> Loops.Settled(Loops.Next(l, maps, step)) == Loops.Settled(l))
  {
    hide Queries, Read, StateEngineClient.Step, Written, NoNodes;
    var step := NextByItself(l);
    if step.Serves? && NoNodes(l.server.db.nodes) {
      if l.server.current != [] {
        NobodyIsWritten(l.server);
      } else {
        NothingWritten();
      }
      assert l.inFlight + [] == l.inFlight;
      assert Loops.Next(l, maps, step).inFlight == l.inFlight;
    }
  }

  /**
   * From every state, handling and arrivals alone lead to rest, and leave the tables and the subscriptions alone. If
   * the tables have no LWRP node, nothing more is written.
   */
  lemma {:induction false} ComesToRest(l: Loops.Loop, maps: MapSet) returns (steps: seq<Loops.LoopStep>)
    requires maps.Loaded()
    ensures Timed(l, maps, steps) && Loops.Departed(l, maps, steps) == Loops.ListedEarly(l, maps, steps) == {}
    ensures var m := Loops.LoopAfter(l, maps, steps);
            && Resting(m) && m.server == l.server.(current := [], pending := []) && m.answered == l.answered
            && (NoNodes(l.server.db.nodes) ==> m.engine == Loops.Settled(l))
    decreases |l.server.pending|, |l.server.current|, |l.inFlight|
  {
    hide Queries, Read, StateEngineClient.Step, Written, NoNodes, Timed, Loops.LoopAfter, Loops.Departed;
    hide Loops.ListedEarly, ComingEarly, Departing, ListingEarly, Loops.Enabled, StateEngineClient.StepAll;
    if l.server.current == [] && l.server.pending == [] && l.inFlight == [] {
      NoMore(l, maps);
      StateEngineClient.NothingReceived(l.engine);
      steps := [];
    } else {
      var step := NextByItself(l);
      GoesOn(l, maps);
      var rest := ComesToRest(Loops.Next(l, maps, step), maps);
      OneMore(l, maps, step, rest);
      steps := [step] + rest;
    }
  }

  // ----- A node that departs is kept -----

  /** The client subscribes to nodes, and a host comes up. */
  function ArrivalSteps(host: IPv4Number, image: MatrixImage): seq<Loops.LoopStep> {
    [Loops.Serves(Subscribes(NodesSubject, NOTHING)), Loops.Serves(Happens(Connected(host, image)))]
  }

  lemma HostArrives(maps: MapSet, host: IPv4Number, image: MatrixImage)
    requires maps.Valid()
    ensures var l, steps := Loops.Start(EmptyDatabase()), ArrivalSteps(host, image);
            && Timed(l, maps, steps) && Loops.Departed(l, maps, steps) == {}
            && Loops.LoopAfter(l, maps, steps).server.db == WithNode(EmptyDatabase(), maps, host, image)
            && Loops.LoopAfter(l, maps, steps).server.subs.nodes
  {
    hide SubscriptionListing, WithNode, Timed, Loops.LoopAfter, Loops.Departed;
    EmptyListing();
    var l, steps := Loops.Start(EmptyDatabase()), ArrivalSteps(host, image);
    var m := Loops.Next(l, maps, steps[0]);
    var n := Loops.Next(m, maps, steps[1]);
    NoMore(n, maps);
    OneMore(m, maps, steps[1], []);
    OneMore(l, maps, steps[0], [steps[1]] + []);
    assert steps == [steps[0]] + ([steps[1]] + []);
  }

  /** A host that goes down is not missed: nothing waits to be asked. */
  lemma HostLeaves(l: Loops.Loop, maps: MapSet, host: IPv4Number)
    requires maps.Loaded()
    ensures var steps := [Loops.Serves(Happens(Disconnected(host)))];
            Timed(l, maps, steps) && Loops.LoopAfter(l, maps, steps).server.db == WithoutNode(l.server.db, host)
  {
    hide WithoutNode, Timed, Loops.LoopAfter, Loops.Departed;
    var step := Loops.Serves(Happens(Disconnected(host)));
    NoMore(Loops.Next(l, maps, step), maps);
    OneMore(l, maps, step, []);
    assert [step] + [] == [step];
  }

  /** Whatever LWRP node comes up and goes down, with every notice handled in between and after, the client keeps it. */
  lemma DepartedNodeStays(maps: MapSet, host: IPv4Number, image: MatrixImage) returns (steps: seq<Loops.LoopStep>)
    requires maps.Valid() && image.matrixType == LwrpMatrix
    ensures Timed(Loops.Start(EmptyDatabase()), maps, steps)
    ensures var l := Loops.LoopAfter(Loops.Start(EmptyDatabase()), maps, steps);
            Resting(l) && host !in l.server.db.nodes && host in l.engine.dicts.nodes
  {
    hide Sound, Timed, Loops.LoopAfter, WithNode, WithoutNode, Waiting, AllStillThere, Loops.Departed, Portrays;
    hide SeenBy, ArrivalSteps;
    var start := Loops.Start(EmptyDatabase());
    BareIsSound(maps, host);
    HostArrives(maps, host, image);
    var a := ArrivalSteps(host, image);
    var b := ComesToRest(Loops.LoopAfter(start, maps, a), maps);
    TimedJoin(start, maps, a, b);
    var l := Loops.LoopAfter(start, maps, a + b);
    ShownAtRest(maps, a + b, host, image);
    HostLeaves(l, maps, host);
    var c := [Loops.Serves(Happens(Disconnected(host)))];
    var d := ComesToRest(Loops.LoopAfter(l, maps, c), maps);
    TimedJoin(l, maps, c, d);
    KeptAtRest(maps, a + b, c + d, host);
    TimedJoin(start, maps, a + b, c + d);
    steps := a + b + (c + d);
    assert host !in WithoutNode(l.server.db, host).nodes by {
      HostIsGone(l.server.db, host);
    }
  }

  lemma HostIsGone(db: Database, host: IPv4Number)
    ensures host !in WithoutNode(db, host).nodes
  {
  }

  lemma ShownAtRest(maps: MapSet, steps: seq<Loops.LoopStep>, host: IPv4Number, image: MatrixImage)
    requires maps.Valid() && Sound(EmptyDatabase(), maps) && image.matrixType == LwrpMatrix
    requires Timed(Loops.Start(EmptyDatabase()), maps, steps)
    requires var l := Loops.LoopAfter(Loops.Start(EmptyDatabase()), maps, steps);
             Resting(l) && l.server.subs.nodes && l.server.db == WithNode(EmptyDatabase(), maps, host, image)
    ensures host in Loops.LoopAfter(Loops.Start(EmptyDatabase()), maps, steps).engine.dicts.nodes
  {
    hide Sound, Loops.IsLoopRun, Loops.LoopAfter, EarlyReturns, Loops.LeftBehind, Waiting, HostAdded, RowsSeen;
    Loops.EngineShowsTables(EmptyDatabase(), maps, steps);
    var l := Loops.LoopAfter(Loops.Start(EmptyDatabase()), maps, steps);
    assert host in NodesSeen(l.server.db.nodes);
  }

  lemma KeptAtRest(maps: MapSet, steps: seq<Loops.LoopStep>, more: seq<Loops.LoopStep>, host: IPv4Number)
    requires maps.Valid() && Sound(EmptyDatabase(), maps) && Timed(Loops.Start(EmptyDatabase()), maps, steps)
    requires var l := Loops.LoopAfter(Loops.Start(EmptyDatabase()), maps, steps);
             && Timed(l, maps, more) && Resting(l) && Resting(Loops.LoopAfter(l, maps, more))
             && host in l.engine.dicts.nodes
    ensures var l := Loops.LoopAfter(Loops.Start(EmptyDatabase()), maps, steps);
            host in Loops.LoopAfter(l, maps, more).engine.dicts.nodes
  {
    hide Sound, Loops.IsLoopRun, Loops.LoopAfter, EarlyReturns, Waiting;
    Loops.EngineForgetsNothing(EmptyDatabase(), maps, steps, more);
    var l := Loops.LoopAfter(Loops.Start(EmptyDatabase()), maps, steps);
    StateEngineClient.NothingReceived(l.engine);
    StateEngineClient.NothingReceived(Loops.LoopAfter(l, maps, more).engine);
  }

  // ----- A slot may come before its node -----

  /** An LWRP node with one source. */
  const LONE := MatrixImage("", "", LwrpMatrix, [SourceImage(Null, "", false, 0, 0)], [], [], [])

  /** The listing of the sources of a host with one, whose node is not listed. */
  function LoneListing(db: Database, host: IPv4Number): Batch
    requires Key(host, 0) in Seen(db).sources
  {
    NOTHING.(sources := [Add(Key(host, 0), Seen(db).sources[Key(host, 0)])])
  }

  lemma LoneRow(maps: MapSet, host: IPv4Number)
    requires maps.Valid()
    ensures var db := WithNode(EmptyDatabase(), maps, host, LONE);
            && (forall k :: k in Seen(db).sources <==> k == Key(host, 0))
            && SubscriptionListing(SourcesSubject, db, LoneListing(db, host))
  {
    hide Sound, RowsSeen;
    var db := WithNode(EmptyDatabase(), maps, host, LONE);
    EmptyIsSound(maps);
    ConnectedKeepsSound(EmptyDatabase(), maps, host, LONE);
    NodesOfLone(maps, host);
    hide WithNode;
    OnlyRow(db, maps, host);
    var order := [Key(host, 0)];
    assert Lists(order, Seen(db).sources);
    assert LoneListing(db, host) == NOTHING.(sources := Listing(order, Seen(db).sources));
  }

  lemma EmptyIsSound(maps: MapSet)
    ensures Sound(EmptyDatabase(), maps)
  {
  }

  lemma NodesOfLone(maps: MapSet, host: IPv4Number)
    requires maps.Loaded()
    ensures WithNode(EmptyDatabase(), maps, host, LONE).nodes == map[host := LONE.Node()]
  {
    hide HostAdded;
  }

  lemma OnlyRow(db: Database, maps: MapSet, host: IPv4Number)
    requires Sound(db, maps) && db.nodes == map[host := LONE.Node()]
    ensures forall k :: k in Seen(db).sources <==> k == Key(host, 0)
  {
    forall k: Key
      ensures k in Seen(db).sources <==> k == Key(host, 0)
    {
      assert ShapedAt(db, k.host) && k == Key(k.host, k.slot);
    }
  }

  /** The client with its answer about nodes, of which there are none. */
  function ToldOfNodes(): Loops.Loop {
    Loops.Loop(Server(EmptyDatabase(), UNSUBSCRIBED.(nodes := true), [], []), 1, [],
               StateEngineClient.OkStep(StateEngineClient.FRESH_ENGINE))
  }

  lemma NodesAnswered(maps: MapSet)
    requires maps.Loaded()
    ensures var start, ask := Loops.Start(EmptyDatabase()), Loops.Serves(Subscribes(NodesSubject, NOTHING));
            && Loops.Enabled(start, ask)
            && ComingEarly(start.server, ask.step) == ListingEarly(start.server, ask.step) == {}
            && Loops.Enabled(Loops.Next(start, maps, ask), Loops.Arrives)
            && Loops.Next(Loops.Next(start, maps, ask), maps, Loops.Arrives) == ToldOfNodes()
  {
    hide EmptyDatabase, SubscriptionListing;
    EmptyListing();
    var start := Loops.Start(EmptyDatabase());
    var asked := Loops.Next(start, maps, Loops.Serves(Subscribes(NodesSubject, NOTHING)));
    assert asked.inFlight == [Ok];
  }

  lemma LoneWritten(db: Database, host: IPv4Number)
    requires Key(host, 0) in Seen(db).sources
    ensures |LoneListing(db, host).sources| == 1
    ensures Written(LoneListing(db, host)) + [Ok] == [Source(LoneListing(db, host).sources[0])] + [Ok]
    ensures LoneListing(db, host).sources[0].Add? && LoneListing(db, host).sources[0].key == Key(host, 0)
    ensures SlotHosts(LoneListing(db, host)) == {host}
  {
    hide Seen;
    var b := LoneListing(db, host);
    assert b.sources[0].key.host in HostsNamed(b.sources);
  }

  /** The source is taken and then the acknowledgement. */
  lemma SourceTaken(op: Op<Key, SourceColumns>)
    requires op.Add?
    ensures var d := StateEngineClient.StepAll(ToldOfNodes().engine, [Source(op)] + [Ok]).dicts;
            op.key in d.sources && d.nodes == map[]
  {
    var e := ToldOfNodes().engine;
    StateEngineClient.StepAppend(e, [Source(op)], [Ok]);
    StateEngineClient.StepOne(e, Source(op));
    StateEngineClient.StepOne(StateEngineClient.Step(e, Source(op)), Ok);
    hide StateEngineClient.StepAll;
  }

  lemma SourcesAreNext()
    ensures Loops.Asked(ToldOfNodes(), Text.Some(SourcesSubject))
  {
  }

  lemma LoneGone(maps: MapSet, host: IPv4Number)
    requires maps.Loaded()
    ensures NoNodes(WithoutNode(WithNode(EmptyDatabase(), maps, host, LONE), host).nodes)
  {
    NodesOfLone(maps, host);
    hide WithNode, HostRemoved;
  }

  /** A host comes up, the client asks for sources, and the host goes down before its notice is handled. */
  lemma SourcesFirst(maps: MapSet, host: IPv4Number) returns (steps: seq<Loops.LoopStep>)
    requires maps.Valid()
    ensures Timed(ToldOfNodes(), maps, steps) && Loops.ListedEarly(ToldOfNodes(), maps, steps) <= {host}
    ensures var l := Loops.LoopAfter(ToldOfNodes(), maps, steps);
            var d := Loops.Settled(l).dicts;
            NoNodes(l.server.db.nodes) && Key(host, 0) in d.sources && host !in d.nodes
  {
    hide WithNode, WithoutNode, Seen, SubscriptionListing, EmptyDatabase, Timed, Loops.LoopAfter, Loops.Departed;
    hide LoneListing, Written, NoNodes, Loops.ListedEarly, StateEngineClient.StepAll, SlotHosts,
         StateEngineClient.OkStep;
    LoneRow(maps, host);
    NodesOfBare(host);
    NothingWritten();
    LoneGone(maps, host);
    SourcesAreNext();
    var db := WithNode(EmptyDatabase(), maps, host, LONE);
    var b := LoneListing(db, host);
    LoneWritten(db, host);
    SourceTaken(b.sources[0]);
    var up, down := Loops.Serves(Happens(Connected(host, LONE))), Loops.Serves(Happens(Disconnected(host)));
    var ask := Loops.Serves(Subscribes(SourcesSubject, b));
    var l2 := Loops.Next(ToldOfNodes(), maps, up);
    var l3 := Loops.Next(l2, maps, ask);
    var l4 := Loops.Next(l3, maps, down);
    assert l2.server.db == db && l2.inFlight == [];
    assert Response(l2.server, ask.step) == Written(b) + [Ok];
    assert l3.inFlight == [Source(b.sources[0])] + [Ok] == l4.inFlight;
    NoMore(l4, maps);
    OneMore(l3, maps, down, []);
    OneMore(l2, maps, ask, [down] + []);
    OneMore(ToldOfNodes(), maps, up, [ask] + ([down] + []));
    steps := [up] + ([ask] + ([down] + []));
  }

  /**
   * The client has its answer about nodes; a host comes up; before its notice is handled, the client asks for
   * sources and is told of one whose node it does not have; then the host goes down. Once everything is handled and
   * has arrived, the source is there without its node, and nothing is left that could bring it.
   */
  lemma SlotWithoutNode(maps: MapSet, host: IPv4Number) returns (steps: seq<Loops.LoopStep>)
    requires maps.Valid()
    ensures Timed(Loops.Start(EmptyDatabase()), maps, steps)
    ensures Loops.ListedEarly(Loops.Start(EmptyDatabase()), maps, steps) <= {host}
    ensures var l := Loops.LoopAfter(Loops.Start(EmptyDatabase()), maps, steps);
            Resting(l) && Key(host, 0) in l.engine.dicts.sources && host !in l.engine.dicts.nodes
  {
    hide Timed, Loops.LoopAfter, Loops.Departed, Loops.Next, Loops.Enabled, ToldOfNodes, Loops.Start, EmptyDatabase;
    hide NoNodes, Loops.ListedEarly, Resting, Loops.Settled, ListingEarly, ComingEarly;
    NodesAnswered(maps);
    var rest := SourcesFirst(maps, host);
    var more := ComesToRest(Loops.LoopAfter(ToldOfNodes(), maps, rest), maps);
    TimedJoin(ToldOfNodes(), maps, rest, more);
    var start, ask := Loops.Start(EmptyDatabase()), Loops.Serves(Subscribes(NodesSubject, NOTHING));
    OneMore(Loops.Next(start, maps, ask), maps, Loops.Arrives, rest + more);
    OneMore(start, maps, ask, [Loops.Arrives] + (rest + more));
    steps := [ask] + ([Loops.Arrives] + (rest + more));
  }
}
