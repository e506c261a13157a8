/**
 * The Python client and the server as one system: matrix events at any time, notices handled and requests answered
 * in between, messages arriving in order but with any delay.
 */
module StateEngineReplication {
  import opened Addresses
  import opened Text
  import opened Lines
  import opened RoutingTables
  import opened RoutingDatabase
  import opened Replication
  import opened ProtocolD
  import opened ProtocolDText
  import opened Deliverability
  import opened StateEngineClient
  import opened Following
  import opened Recollection
  import opened TableByTable
  import ServerRuns

  // ----- Taking the messages of one table -----

  /** The engine goes on, with other dictionaries and perhaps more callbacks. */
  predicate Goes(e: Engine, f: Engine, d: View) {
    !f.failed && f == e.(dicts := d, callbacks := f.callbacks)
  }

  lemma {:induction false} NodesGo(e: Engine, ops: seq<Op<IPv4Number, NodeInfo>>)
    requires !e.failed && KnownAll(e.dicts.nodes, ops, true) && forall i :: 0 <= i < |ops| ==> !ops[i].Change?
    ensures Goes(e, StepAll(e, Nodes(ops)), e.dicts.(nodes := TakenAll(e.dicts.nodes, ops, true)))
    decreases |ops|
  {
    hide Applied;
    if ops != [] {
      assert Nodes(ops)[1..] == Nodes(ops[1..]);
      NodesGo(Step(e, Node(ops[0])), ops[1..]);
    }
  }

  lemma {:induction false} SourcesGo(e: Engine, ops: seq<Op<Key, SourceColumns>>)
    requires !e.failed && KnownAll(e.dicts.sources, ops, true)
    ensures Goes(e, StepAll(e, Sources(ops)), e.dicts.(sources := TakenAll(e.dicts.sources, ops, true)))
    decreases |ops|
  {
    hide Applied;
    if ops != [] {
      assert Sources(ops)[1..] == Sources(ops[1..]);
      SourcesGo(Step(e, Source(ops[0])), ops[1..]);
    }
  }

  lemma {:induction false} DestinationsGo(e: Engine, ops: seq<Op<Key, DestinationColumns>>)
    requires !e.failed && KnownAll(e.dicts.destinations, ops, true)
    ensures Goes(e, StepAll(e, Destinations(ops)), e.dicts.(destinations := TakenAll(e.dicts.destinations, ops, true)))
    decreases |ops|
  {
    hide Applied;
    if ops != [] {
      assert Destinations(ops)[1..] == Destinations(ops[1..]);
      DestinationsGo(Step(e, Destination(ops[0])), ops[1..]);
    }
  }

  lemma {:induction false} GpisGo(e: Engine, ops: seq<Op<Key, GpiColumns>>)
    requires !e.failed && KnownAll(e.dicts.gpis, ops, true)
    ensures Goes(e, StepAll(e, GpiPorts(ops)), e.dicts.(gpis := TakenAll(e.dicts.gpis, ops, true)))
    decreases |ops|
  {
    hide Applied;
    if ops != [] {
      assert GpiPorts(ops)[1..] == GpiPorts(ops[1..]);
      GpisGo(Step(e, GpiPort(ops[0])), ops[1..]);
    }
  }

  lemma {:induction false} GposGo(e: Engine, ops: seq<Op<Key, GpoColumns>>)
    requires !e.failed && KnownAll(e.dicts.gpos, ops, true)
    ensures Goes(e, StepAll(e, GpoPorts(ops)), e.dicts.(gpos := TakenAll(e.dicts.gpos, ops, true)))
    decreases |ops|
  {
    hide Applied;
    if ops != [] {
      assert GpoPorts(ops)[1..] == GpoPorts(ops[1..]);
      GposGo(Step(e, GpoPort(ops[0])), ops[1..]);
    }
  }

  lemma InTurn(e: Engine, a: seq<Message>, b: seq<Message>, d: View, f: View)
    requires Goes(e, StepAll(e, a), d) && Goes(StepAll(e, a), StepAll(StepAll(e, a), b), f)
    ensures Goes(e, StepAll(e, a + b), f)
  {
    hide StepAll;
    StepAppend(e, a, b);
  }

  /** Records that change and remove only what the engine knows are taken without a lookup error. */
  lemma WrittenGoes(e: Engine, b: Batch)
    requires !e.failed && KnownBatch(e.dicts, b, true) && forall i :: 0 <= i < |b.nodes| ==> !b.nodes[i].Change?
    ensures Goes(e, StepAll(e, Written(b)), HeldAfter(e.dicts, b, true))
  {
    var w := HeldAfter(e.dicts, b, true);
    hide StepAll, KnownAll, TakenAll, Nodes, Sources, Destinations, GpiPorts, GpoPorts;
    var m1 := GpoPorts(b.gpos);
    var m2 := m1 + GpiPorts(b.gpis);
    var m3 := m2 + Destinations(b.destinations);
    var m4 := m3 + Sources(b.sources);
    var d1 := e.dicts.(gpos := w.gpos);
    var d2 := d1.(gpis := w.gpis);
    var d3 := d2.(destinations := w.destinations);
    GposGo(e, b.gpos);
    GpisGo(StepAll(e, m1), b.gpis);
    InTurn(e, m1, GpiPorts(b.gpis), d1, d2);
    DestinationsGo(StepAll(e, m2), b.destinations);
    InTurn(e, m2, Destinations(b.destinations), d2, d3);
    SourcesGo(StepAll(e, m3), b.sources);
    InTurn(e, m3, Sources(b.sources), d3, d3.(sources := w.sources));
    NodesGo(StepAll(e, m4), b.nodes);
    InTurn(e, m4, Nodes(b.nodes), d3.(sources := w.sources), w);
  }

  // ----- The client and the server together -----

  function SubjectAsked(request: string): Option<Subject> {
    if request == "SubscribeNodes" then Some(NodesSubject)
    else if request == "SubscribeSources" then Some(SourcesSubject)
    else if request == "SubscribeDestinations" then Some(DestinationsSubject)
    else if request == "SubscribeGpis" then Some(GpisSubject)
    else if request == "SubscribeGpos" then Some(GposSubject)
    else None
  }

  /** The server, how many requests it has answered, what is on its way, and the client. */
  datatype Loop = Loop(server: ServerRuns.Server, answered: nat, inFlight: seq<Message>, engine: Engine)

  datatype LoopStep = Serves(step: ServerRuns.ServerStep) | Arrives

  function Start(db: Database): Loop {
    Loop(ServerRuns.Connecting(db), 0, [], FRESH_ENGINE)
  }

  /** The next request, once the engine has sent it. */
  predicate Asked(l: Loop, subject: Option<Subject>) {
    l.answered < |l.engine.requests| && SubjectAsked(l.engine.requests[l.answered]) == subject
  }

  ghost predicate Enabled(l: Loop, step: LoopStep) {
    match step
    case Arrives => l.inFlight != []
    case Serves(s) =>
      ServerRuns.Enabled(l.server, s) &&
      match s
      case Subscribes(subject, _) => Asked(l, Some(subject))
      case SubscribesElsewhere => Asked(l, None)
      case Pings => false
      case _ => true
  }

  predicate IsAnswer(s: ServerRuns.ServerStep) {
    s.Subscribes? || s.SubscribesElsewhere?
  }

  function Next(l: Loop, maps: MapSet, step: LoopStep): Loop
    requires maps.Loaded()
  {
    match step
    case Serves(s) =>
      l.(server := ServerRuns.Next(l.server, maps, s), answered := l.answered + if IsAnswer(s) then 1 else 0,
         inFlight := l.inFlight + ServerRuns.Response(l.server, s))
    case Arrives =>
      if l.inFlight == [] then l else l.(engine := Step(l.engine, l.inFlight[0]), inFlight := l.inFlight[1..])
  }

  ghost predicate IsLoopRun(l: Loop, maps: MapSet, steps: seq<LoopStep>)
    requires maps.Loaded()
    decreases |steps|
  {
    steps == [] || (Enabled(l, steps[0]) && IsLoopRun(Next(l, maps, steps[0]), maps, steps[1..]))
  }

  function LoopAfter(l: Loop, maps: MapSet, steps: seq<LoopStep>): Loop
    requires maps.Loaded()
    decreases |steps|
  {
    if steps == [] then l else LoopAfter(Next(l, maps, steps[0]), maps, steps[1..])
  }

  /** The server's part of a run. */
  function Served(steps: seq<LoopStep>): seq<ServerRuns.ServerStep>
    decreases |steps|
  {
    if steps == [] then [] else (if steps[0].Serves? then [steps[0].step] else []) + Served(steps[1..])
  }

  function Departed(l: Loop, maps: MapSet, steps: seq<LoopStep>): set<IPv4Number>
    requires maps.Loaded()
  {
    ServerRuns.Departed(l.server, maps, Served(steps))
  }

  /** The same table by table, once it is subscribed. */
  function LeftBehind(l: Loop, maps: MapSet, steps: seq<LoopStep>): Leavers
    requires maps.Loaded()
  {
    Left(l.server, maps, Served(steps))
  }

  function EarlyReturns(l: Loop, maps: MapSet, steps: seq<LoopStep>): set<IPv4Number>
    requires maps.Loaded()
  {
    ServerRuns.EarlyReturns(l.server, maps, Served(steps))
  }

  function ListedEarly(l: Loop, maps: MapSet, steps: seq<LoopStep>): set<IPv4Number>
    requires maps.Loaded()
  {
    ServerRuns.ListedEarly(l.server, maps, Served(steps))
  }

  /** The engine once everything on its way has arrived. */
  function Settled(l: Loop): Engine {
    StepAll(l.engine, l.inFlight)
  }

  // ----- What holds in every run -----

  lemma NextIsOrderly(l: Loop, maps: MapSet, step: LoopStep)
    requires maps.Loaded() && Orderly(l.engine)
    ensures Orderly(Next(l, maps, step).engine)
  {
    hide Orderly, Step;
    if step.Arrives? && l.inFlight != [] {
      StepStaysOrderly(l.engine, l.inFlight[0]);
    }
  }

  lemma {:induction false} RunsStayOrderly(l: Loop, maps: MapSet, steps: seq<LoopStep>)
    requires maps.Loaded() && Orderly(l.engine)
    ensures Orderly(LoopAfter(l, maps, steps).engine)
    decreases |steps|
  {
    hide Orderly, Next;
    if steps != [] {
      NextIsOrderly(l, maps, steps[0]);
      RunsStayOrderly(Next(l, maps, steps[0]), maps, steps[1..]);
    }
  }

  /**
   * In every reachable state, whatever the server does: the acknowledged subscriptions are a prefix of the fixed
   * order and exactly the next one has been requested, nothing has been called before ready, and ready has been
   * called first and once.
   */
  lemma EngineIsAlwaysOrderly(db: Database, maps: MapSet, steps: seq<LoopStep>)
    requires maps.Loaded() && IsLoopRun(Start(db), maps, steps)
    ensures Orderly(LoopAfter(Start(db), maps, steps).engine)
  {
    hide IsLoopRun, LoopAfter, Orderly;
    assert Orderly(FRESH_ENGINE) by {
      FreshIsOrderly();
    }
    RunsStayOrderly(Start(db), maps, steps);
  }

  lemma FreshIsOrderly()
    ensures Orderly(FRESH_ENGINE)
  {
  }

  // ----- What holds as long as no host comes up early -----

  function SubsUpTo(n: nat): Subscriptions {
    Subscriptions(0 < n, 1 < n, 2 < n, 3 < n, 4 < n)
  }

  lemma RequestInOrder(n: nat)
    requires n < 8
    ensures match SubjectAsked(RequestText(n))
            case Some(subject) => WithSubject(SubsUpTo(n), subject) == SubsUpTo(n + 1)
            case None => SubsUpTo(n) == SubsUpTo(n + 1)
  {
  }

  /** Once all has arrived, the engine runs, has the acknowledgements of all answers, and is in step with the server. */
  ghost predicate Settles(e: Engine, s: ServerRuns.Server, n: nat, gone: set<IPv4Number>) {
    Orderly(e) && !e.failed && Acknowledged(e.flags) == n && Follows(e.dicts, s, gone, true)
  }

  ghost predicate Consistent(l: Loop, maps: MapSet, gone: set<IPv4Number>) {
    && Sound(l.server.db, maps) && ServerRuns.Timely(l.server)
    && l.answered <= 8 && l.server.subs == SubsUpTo(l.answered)
    && Orderly(l.engine) && Settles(Settled(l), l.server, l.answered, gone)
  }

  lemma StartIsConsistent(db: Database, maps: MapSet)
    requires Sound(db, maps)
    ensures Consistent(Start(db), maps, {})
  {
    FreshFollows(db, true);
    FreshIsOrderly();
    hide Sound, Follows, ServerRuns.Timely, Orderly;
  }

  lemma NextRequest(l: Loop, subject: Option<Subject>)
    requires Orderly(l.engine) && Asked(l, subject)
    ensures l.answered < 8 && subject == SubjectAsked(RequestText(l.answered))
  {
    hide RequestText, SubjectAsked;
  }

  /** The acknowledgement that closes an answer, if there is one. */
  lemma ClosingSettles(e: Engine, s: ServerRuns.Server, n: nat, gone: set<IPv4Number>, step: ServerRuns.ServerStep)
    requires Settles(e, s, n, gone) && !step.Pings? && (IsAnswer(step) ==> n < 8)
    ensures Settles(StepAll(e, ServerRuns.Closing(step)), s, n + if IsAnswer(step) then 1 else 0, gone)
    ensures StepAll(e, ServerRuns.Closing(step)).dicts == e.dicts
  {
    hide Follows, Orderly, Acknowledged, OkStep;
    if IsAnswer(step) {
      OkStaysOrderly(e);
      assert StepAll(e, [Ok]) == OkStep(e) by {
        StepOne(e, Ok);
      }
    }
  }

  lemma RecordsSettle(
      e: Engine, s: ServerRuns.Server, t: ServerRuns.Server, n: nat, gone: set<IPv4Number>, more: set<IPv4Number>,
      b: Batch)
    requires Settles(e, s, n, gone) && KnownBatch(e.dicts, b, true) && OnlyGrows(b)
    requires Follows(HeldAfter(e.dicts, b, true), t, more, true)
    ensures Settles(StepAll(e, Written(b)), t, n, more) && StepAll(e, Written(b)).dicts == HeldAfter(e.dicts, b, true)
    ensures AllStillThere(e.dicts, StepAll(e, Written(b)).dicts)
  {
    hide Follows, Orderly, Acknowledged, KnownBatch, HeldAfter, Written, StepAll;
    AlwaysOrderly(e, Written(b));
    WrittenGoes(e, b);
    GrownHoldsAll(e.dicts, b, true);
  }

  lemma ServingSettles(
      e: Engine, s: ServerRuns.Server, maps: MapSet, n: nat, gone: set<IPv4Number>, step: ServerRuns.ServerStep)
    requires maps.Valid() && Sound(s.db, maps) && ServerRuns.Timely(s) && Settles(e, s, n, gone)
    requires ServerRuns.Enabled(s, step) && !step.Pings? && (IsAnswer(step) ==> n < 8)
    requires ServerRuns.ComingEarly(s, step) == {}
    ensures Settles(StepAll(e, ServerRuns.Response(s, step)), ServerRuns.Next(s, maps, step),
                    n + if IsAnswer(step) then 1 else 0, gone + ServerRuns.Departing(s, step))
    ensures var d := StepAll(e, ServerRuns.Response(s, step)).dicts;
            AllStillThere(e.dicts, d) && d == HeldAfter(e.dicts, ServerRuns.Records(s, step), true)
  {
    hide Sound, ServerRuns.Timely, Follows, Orderly, ServerRuns.Enabled, ServerRuns.Next, ServerRuns.Records;
    hide ServerRuns.ComingEarly, ServerRuns.Departing, HeldAfter, KnownBatch, OnlyGrows, Written, StepAll;
    StepStaysTimely(s, maps, step);
    StepFollows(e.dicts, s, maps, step, gone, true);
    var t := ServerRuns.Next(s, maps, step);
    var b := ServerRuns.Records(s, step);
    var more := gone + ServerRuns.Departing(s, step);
    RecordsSettle(e, s, t, n, gone, more, b);
    ClosingSettles(StepAll(e, Written(b)), t, n, more, step);
    StepAppend(e, Written(b), ServerRuns.Closing(step));
  }

  lemma ServesKeepsConsistent(l: Loop, maps: MapSet, gone: set<IPv4Number>, step: ServerRuns.ServerStep)
    requires maps.Valid() && Consistent(l, maps, gone) && Enabled(l, Serves(step))
    requires ServerRuns.ComingEarly(l.server, step) == {}
    ensures Consistent(Next(l, maps, Serves(step)), maps, gone + ServerRuns.Departing(l.server, step))
    ensures var d := Settled(Next(l, maps, Serves(step))).dicts;
            && AllStillThere(Settled(l).dicts, d)
            && d == HeldAfter(Settled(l).dicts, ServerRuns.Records(l.server, step), true)
  {
    hide Sound, ServerRuns.Timely, Orderly, Enabled, ServerRuns.Enabled, ServerRuns.Next, Settles;
    hide ServerRuns.ComingEarly, ServerRuns.Departing, StepAll, SubsUpTo, ServerRuns.Response;
    AnsweredInOrder(l, maps, step);
    ServerRuns.StepKeepsSound(l.server, maps, step);
    StepStaysTimely(l.server, maps, step);
    ServingSettles(Settled(l), l.server, maps, l.answered, gone, step);
    StepAppend(l.engine, l.inFlight, ServerRuns.Response(l.server, step));
  }

  lemma AnsweredInOrder(l: Loop, maps: MapSet, step: ServerRuns.ServerStep)
    requires maps.Loaded() && l.answered <= 8 && l.server.subs == SubsUpTo(l.answered) && Orderly(l.engine)
    requires Enabled(l, Serves(step))
    ensures var n := l.answered + if IsAnswer(step) then 1 else 0;
            n <= 8 && ServerRuns.Next(l.server, maps, step).subs == SubsUpTo(n)
    ensures ServerRuns.Enabled(l.server, step) && !step.Pings?
  {
    hide Orderly, RequestText, SubjectAsked, Handled, SubsUpTo;
    match step
    case Subscribes(subject, _) =>
      NextRequest(l, Some(subject));
      RequestInOrder(l.answered);
    case SubscribesElsewhere =>
      NextRequest(l, None);
      RequestInOrder(l.answered);
    case _ =>
  }

  lemma ArrivalKeepsConsistent(l: Loop, maps: MapSet, gone: set<IPv4Number>)
    requires maps.Loaded() && Consistent(l, maps, gone) && l.inFlight != []
    ensures Consistent(Next(l, maps, Arrives), maps, gone) && Settled(Next(l, maps, Arrives)) == Settled(l)
  {
    hide Sound, Step, Orderly, ServerRuns.Timely, Settles;
    StepStaysOrderly(l.engine, l.inFlight[0]);
  }

  lemma {:induction false} RunsStayConsistent(l: Loop, maps: MapSet, steps: seq<LoopStep>, gone: set<IPv4Number>)
    requires maps.Valid() && Consistent(l, maps, gone) && IsLoopRun(l, maps, steps)
    requires EarlyReturns(l, maps, steps) == {}
    ensures Consistent(LoopAfter(l, maps, steps), maps, gone + Departed(l, maps, steps))
    ensures AllStillThere(Settled(l).dicts, Settled(LoopAfter(l, maps, steps)).dicts)
    ensures Settled(LoopAfter(l, maps, steps)).dicts ==
            HeldThrough(Settled(l).dicts, l.server, maps, Served(steps), true)
    decreases |steps|
  {
    hide Consistent, Settled, Enabled, ServerRuns.Departing, ServerRuns.ComingEarly, ServerRuns.Records, HeldAfter;
    if steps == [] {
      assert gone + {} == gone;
    } else {
      var next := Next(l, maps, steps[0]);
      match steps[0] {
        case Serves(step) =>
          var departing := ServerRuns.Departing(l.server, step);
          assert Served(steps) == [step] + Served(steps[1..]) && Served(steps)[1..] == Served(steps[1..]);
          ServesKeepsConsistent(l, maps, gone, step);
          RunsStayConsistent(next, maps, steps[1..], gone + departing);
          var later := Departed(next, maps, steps[1..]);
          assert gone + departing + later == gone + (departing + later);
        case Arrives =>
          assert l.inFlight != [] by {
            EnabledArrival(l);
          }
          assert Served(steps) == Served(steps[1..]);
          ArrivalKeepsConsistent(l, maps, gone);
          ArrivalLeavesServer(l, maps);
          RunsStayConsistent(next, maps, steps[1..], gone);
      }
    }
  }

  lemma EnabledArrival(l: Loop)
    ensures Enabled(l, Arrives) ==> l.inFlight != []
  {
  }

  lemma ArrivalLeavesServer(l: Loop, maps: MapSet)
    requires maps.Loaded()
    ensures Next(l, maps, Arrives).server == l.server
  {
  }

  // ----- The promises -----

  /** No lookup ever fails as long as no host comes up while a select about it waits. */
  lemma EngineNeverFails(db: Database, maps: MapSet, steps: seq<LoopStep>)
    requires maps.Valid() && Sound(db, maps) && IsLoopRun(Start(db), maps, steps)
    requires EarlyReturns(Start(db), maps, steps) == {}
    ensures !LoopAfter(Start(db), maps, steps).engine.failed
  {
    hide Sound, IsLoopRun, LoopAfter, EarlyReturns, Departed, Follows, ServerRuns.Timely, Orderly, StepAll;
    StartIsConsistent(db, maps);
    RunsStayConsistent(Start(db), maps, steps, {});
    var l := LoopAfter(Start(db), maps, steps);
    RanThroughout(l.engine, l.inFlight, 0);
    assert l.inFlight[..0] == [] && StepAll(l.engine, []) == l.engine by {
      NothingReceived(l.engine);
    }
  }

  /** With nothing left to ask, the engine, once all has arrived, shows the tables, except what is left behind. */
  lemma SettledShowsTables(db: Database, maps: MapSet, steps: seq<LoopStep>)
    requires maps.Valid() && Sound(db, maps) && IsLoopRun(Start(db), maps, steps)
    requires EarlyReturns(Start(db), maps, steps) == {}
    ensures var l, gone := LoopAfter(Start(db), maps, steps), LeftBehind(Start(db), maps, steps);
            ServerRuns.Waiting(l.server) == [] ==>
              && Portrays(Settled(l).dicts, SeenBy(l.server.subs, l.server.db), gone, true)
              && (gone == NOBODY ==> Settled(l).dicts == SeenBy(l.server.subs, l.server.db))
  {
    hide Sound, IsLoopRun, LoopAfter, Departed, Consistent, Portrays, SeenBy, Left, Served, HeldThrough;
    hide ServerRuns.EarlyReturns, ServerRuns.IsServerRun, ServerRuns.ServerAfter, ServerRuns.Waiting;
    StartIsConsistent(db, maps);
    RunsStayConsistent(Start(db), maps, steps, {});
    ServedRuns(Start(db), maps, steps);
    ServerOfRun(Start(db), maps, steps);
    NothingReceived(FRESH_ENGINE);
    var l := LoopAfter(Start(db), maps, steps);
    if ServerRuns.Waiting(l.server) == [] {
      RestShowsTables(db, maps, Served(steps), true);
    }
  }

  /**
   * When nothing is on its way and nothing is left to ask, every row of the tables subscribed is in its dictionary
   * as it is, and whatever else is there belongs to nodes that departed after the table was subscribed; if none did,
   * the dictionaries equal the tables.
   */
  lemma EngineShowsTables(db: Database, maps: MapSet, steps: seq<LoopStep>)
    requires maps.Valid() && Sound(db, maps) && IsLoopRun(Start(db), maps, steps)
    requires EarlyReturns(Start(db), maps, steps) == {}
    ensures var l, gone := LoopAfter(Start(db), maps, steps), LeftBehind(Start(db), maps, steps);
            l.inFlight == [] && ServerRuns.Waiting(l.server) == [] ==>
              && Portrays(l.engine.dicts, SeenBy(l.server.subs, l.server.db), gone, true)
              && (gone == NOBODY ==> l.engine.dicts == SeenBy(l.server.subs, l.server.db))
  {
    hide Sound, IsLoopRun, LoopAfter, EarlyReturns, LeftBehind, Portrays, SeenBy, ServerRuns.Waiting;
    SettledShowsTables(db, maps, steps);
    NothingReceived(LoopAfter(Start(db), maps, steps).engine);
  }

  /** Once all has arrived, whatever the dictionaries hold is a row that the tables showed at some point of the run. */
  lemma EngineRecallsRows(db: Database, maps: MapSet, steps: seq<LoopStep>)
    requires maps.Valid() && Sound(db, maps) && IsLoopRun(Start(db), maps, steps)
    requires EarlyReturns(Start(db), maps, steps) == {}
    ensures RecallsRows(Settled(LoopAfter(Start(db), maps, steps)).dicts,
                        Shown(ServerRuns.Connecting(db), maps, Served(steps)))
  {
    hide Sound, LoopAfter, EarlyReturns, Departed, Consistent, IsLoopRun, RecallsRows, Shown, HeldThrough;
    hide ServerRuns.IsServerRun, Served;
    StartIsConsistent(db, maps);
    RunsStayConsistent(Start(db), maps, steps, {});
    ServedRuns(Start(db), maps, steps);
    EntriesWereRows(db, maps, Served(steps), true);
    NothingReceived(FRESH_ENGINE);
  }

  lemma ServerOfNext(l: Loop, maps: MapSet, step: LoopStep)
    requires maps.Loaded()
    ensures Next(l, maps, step).server == if step.Serves? then ServerRuns.Next(l.server, maps, step.step) else l.server
  {
  }

  lemma {:induction false} ServerOfRun(l: Loop, maps: MapSet, steps: seq<LoopStep>)
    requires maps.Loaded()
    ensures LoopAfter(l, maps, steps).server == ServerRuns.ServerAfter(l.server, maps, Served(steps))
    decreases |steps|
  {
    hide Next, ServerRuns.Next;
    if steps != [] {
      var rest := Served(steps[1..]);
      ServerOfNext(l, maps, steps[0]);
      ServerOfRun(Next(l, maps, steps[0]), maps, steps[1..]);
      if steps[0].Serves? {
        assert ([steps[0].step] + rest)[1..] == rest;
      } else {
        assert [] + rest == rest;
      }
    }
  }

  /** The server's part of a run is a run of the server. */
  lemma {:induction false} ServedRuns(l: Loop, maps: MapSet, steps: seq<LoopStep>)
    requires maps.Loaded() && IsLoopRun(l, maps, steps)
    ensures ServerRuns.IsServerRun(l.server, maps, Served(steps))
    decreases |steps|
  {
    hide ServerRuns.Enabled, ServerRuns.Next, ServerRuns.Response, Step;
    if steps != [] {
      ServedRuns(Next(l, maps, steps[0]), maps, steps[1..]);
      if steps[0].Serves? {
        assert Served(steps) == [steps[0].step] + Served(steps[1..]) && Served(steps)[1..] == Served(steps[1..]);
      } else {
        assert Served(steps) == Served(steps[1..]);
      }
    }
  }

  /** Nothing is ever forgotten: no entry of a dictionary goes, whatever goes down. */
  lemma EngineForgetsNothing(db: Database, maps: MapSet, steps: seq<LoopStep>, more: seq<LoopStep>)
    requires maps.Valid() && Sound(db, maps) && IsLoopRun(Start(db), maps, steps)
    requires EarlyReturns(Start(db), maps, steps) == {}
    requires var l := LoopAfter(Start(db), maps, steps);
             IsLoopRun(l, maps, more) && EarlyReturns(l, maps, more) == {}
    ensures var l := LoopAfter(Start(db), maps, steps);
            AllStillThere(Settled(l).dicts, Settled(LoopAfter(l, maps, more)).dicts)
  {
    hide Sound, IsLoopRun, LoopAfter, EarlyReturns, Departed, Consistent, Settled, AllStillThere;
    StartIsConsistent(db, maps);
    RunsStayConsistent(Start(db), maps, steps, {});
    RunsStayConsistent(LoopAfter(Start(db), maps, steps), maps, more, {} + Departed(Start(db), maps, steps));
  }

  ghost predicate HasNode(v: View, s: ServerRuns.Server, gone: set<IPv4Number>, host: IPv4Number) {
    host in v.nodes || AllOf(NodesSubject, host) in ServerRuns.Waiting(s) || host in gone
  }

  lemma {:induction false} DueWaits(waiting: seq<Query>, host: IPv4Number)
    requires Due(Asks(waiting, NodeAsk), host, host)
    ensures AllOf(NodesSubject, host) in waiting
    decreases |waiting|
  {
    var first, rest := NodeAsk(waiting[0]), Asks(waiting[1..], NodeAsk);
    if first != [Whole(host)] {
      assert (first + rest)[|first|..] == rest;
      DueWaits(waiting[1..], host);
    }
  }

  lemma ShownHasNode(v: View, s: ServerRuns.Server, gone: set<IPv4Number>, host: IPv4Number)
    requires Follows(v, s, gone, true) && s.subs.nodes && host in NodesSeen(s.db.nodes)
    ensures HasNode(v, s, gone, host)
  {
    if host !in v.nodes {
      DueWaits(ServerRuns.Waiting(s), host);
    }
    hide ServerRuns.Waiting, Due, Awaited;
  }

  /** Every slot of a host that has not departed is housed: its node is there, or will be asked for. */
  lemma SlotIsHoused<V>(
      v: View, s: ServerRuns.Server, gone: set<IPv4Number>, held: map<Key, V>, shown: map<Key, V>, on: bool,
      ask: Query -> seq<Ask<Key>>, k: Key)
    requires Follows(v, s, gone, true) && s.subs.nodes && k in held
    requires Tracks(on, held, shown, ServerRuns.Waiting(s), ask, gone, HostOfKey, true)
    requires forall j :: j in shown ==> Lwrp(s.db.nodes, j.host)
    ensures HasNode(v, s, gone, k.host)
  {
    hide Follows, ServerRuns.Waiting, Due, Awaited, HasNode;
    if k in shown {
      ShownHasNode(v, s, gone, k.host);
    } else {
      DepartedHasNode(v, s, gone, k.host);
    }
  }

  lemma DepartedHasNode(v: View, s: ServerRuns.Server, gone: set<IPv4Number>, host: IPv4Number)
    requires host in gone
    ensures HasNode(v, s, gone, host)
  {
  }

  /**
   * Once all has arrived, an entry whose host has no node entry belongs to a node that will be asked for or that
   * departed.
   */
  lemma SlotsAwaitTheirNodes(db: Database, maps: MapSet, steps: seq<LoopStep>, k: Key)
    requires maps.Valid() && Sound(db, maps) && IsLoopRun(Start(db), maps, steps)
    requires EarlyReturns(Start(db), maps, steps) == {}
    ensures var l := LoopAfter(Start(db), maps, steps);
            var v := Settled(l).dicts;
            k in v.sources || k in v.destinations || k in v.gpis || k in v.gpos ==>
              HasNode(v, l.server, Departed(Start(db), maps, steps), k.host)
  {
    hide Sound, IsLoopRun, LoopAfter, EarlyReturns, Departed, ServerRuns.Timely, Orderly, Settled, Tracks, HasNode;
    StartIsConsistent(db, maps);
    RunsStayConsistent(Start(db), maps, steps, {});
    var l, gone := LoopAfter(Start(db), maps, steps), Departed(Start(db), maps, steps);
    assert {} + gone == gone;
    var v, s, seen := Settled(l).dicts, l.server, Seen(l.server.db);
    TracksNothing(v, s, gone);
    if k in v.sources {
      SlotIsHoused(v, s, gone, v.sources, seen.sources, s.subs.sources, SourceAsk, k);
    }
    if k in v.destinations {
      SlotIsHoused(v, s, gone, v.destinations, seen.destinations, s.subs.destinations, DestinationAsk, k);
    }
    if k in v.gpis {
      SlotIsHoused(v, s, gone, v.gpis, seen.gpis, s.subs.gpis, GpiAsk, k);
    }
    if k in v.gpos {
      SlotIsHoused(v, s, gone, v.gpos, seen.gpos, s.subs.gpos, GpoAsk, k);
    }
  }

  /** Without a subscription there is nothing. */
  lemma TracksNothing(v: View, s: ServerRuns.Server, gone: set<IPv4Number>)
    requires Follows(v, s, gone, true)
    ensures (!s.subs.sources ==> v.sources == map[]) && (!s.subs.destinations ==> v.destinations == map[])
    ensures (!s.subs.gpis ==> v.gpis == map[]) && (!s.subs.gpos ==> v.gpos == map[])
  {
    hide InStep;
  }

  // ----- Ready -----

  lemma {:induction false} LoadedStays(e: Engine, ms: seq<Message>)
    requires e.loaded
    ensures StepAll(e, ms).loaded
    decreases |ms|
  {
    if ms != [] {
      StepStaysLoaded(e, ms[0]);
      hide Step;
      LoadedStays(Step(e, ms[0]), ms[1..]);
    }
  }

  lemma StepStaysLoaded(e: Engine, m: Message)
    requires e.loaded
    ensures Step(e, m).loaded
  {
  }

  /** An engine that is not ready after a stream was not ready on the way. */
  lemma NotReadyBefore(e: Engine, ms: seq<Message>, n: nat)
    requires n <= |ms| && !StepAll(e, ms).loaded
    ensures !StepAll(e, ms[..n]).loaded
  {
    hide StepAll;
    assert ms[..n] + ms[n..] == ms;
    StepAppend(e, ms[..n], ms[n..]);
    if StepAll(e, ms[..n]).loaded {
      LoadedStays(StepAll(e, ms[..n]), ms[n..]);
    }
  }

  lemma EighthIsReady(e: Engine)
    requires Orderly(e) && !e.failed && Acknowledged(e.flags) == 7
    ensures !e.loaded && OkStep(e).loaded && OkStep(e).callbacks == [Ready] && OkStep(e).dicts == e.dicts
  {
  }

  lemma AllSubscribed(db: Database)
    ensures SubsUpTo(8) == SubsUpTo(7) && SeenBy(SubsUpTo(8), db) == Seen(db)
  {
  }

  /**
   * When the server answers the last request, the engine becomes ready with exactly the last of the messages then on
   * their way, no earlier, and ready is then the only callback made. All five dictionaries are in step with the
   * tables: with nothing left to ask they show every row as it was when the server answered, and they equal the
   * tables if no node has departed since the first of them was subscribed.
   */
  lemma ReadyShowsAllTables(db: Database, maps: MapSet, steps: seq<LoopStep>)
    requires maps.Valid() && Sound(db, maps) && IsLoopRun(Start(db), maps, steps)
    requires EarlyReturns(Start(db), maps, steps) == {}
    requires var l := LoopAfter(Start(db), maps, steps);
             l.answered == 7 && Enabled(l, Serves(ServerRuns.SubscribesElsewhere))
    ensures var l, gone := LoopAfter(Start(db), maps, steps), LeftBehind(Start(db), maps, steps);
            var m := Next(l, maps, Serves(ServerRuns.SubscribesElsewhere));
            && (forall n :: 0 <= n < |m.inFlight| ==> !StepAll(m.engine, m.inFlight[..n]).loaded)
            && Settled(m).loaded && Settled(m).callbacks == [Ready]
            && Follows(Settled(m).dicts, l.server, Departed(Start(db), maps, steps), true)
            && (ServerRuns.Waiting(l.server) == [] ==>
                  && Portrays(Settled(m).dicts, Seen(l.server.db), gone, true)
                  && (gone == NOBODY ==> Settled(m).dicts == Seen(l.server.db)))
  {
    hide IsLoopRun, LoopAfter, Sound, ServerRuns.Timely, Departed, EarlyReturns, Orderly, Follows, Enabled, LeftBehind;
    hide Portrays, Seen, Settled, SubsUpTo, SeenBy, StepAll, ServerRuns.Waiting;
    StartIsConsistent(db, maps);
    RunsStayConsistent(Start(db), maps, steps, {});
    assert {} + Departed(Start(db), maps, steps) == Departed(Start(db), maps, steps);
    ReadyShows(LoopAfter(Start(db), maps, steps), maps, Departed(Start(db), maps, steps));
    SettledShowsTables(db, maps, steps);
    AllSubscribed(LoopAfter(Start(db), maps, steps).server.db);
  }

  lemma ReadyShows(l: Loop, maps: MapSet, gone: set<IPv4Number>)
    requires maps.Loaded() && Consistent(l, maps, gone) && l.answered == 7
    ensures var m := Next(l, maps, Serves(ServerRuns.SubscribesElsewhere));
            && (forall n :: 0 <= n < |m.inFlight| ==> !StepAll(m.engine, m.inFlight[..n]).loaded)
            && Settled(m).loaded && Settled(m).callbacks == [Ready]
            && Settled(m).dicts == Settled(l).dicts && Follows(Settled(m).dicts, l.server, gone, true)
  {
    hide Sound, ServerRuns.Timely, Orderly, Follows, StepAll, OkStep, SubsUpTo;
    hide ServerRuns.Waiting;
    var m := Next(l, maps, Serves(ServerRuns.SubscribesElsewhere));
    assert ServerRuns.Response(l.server, ServerRuns.SubscribesElsewhere) == [Ok];
    assert m.inFlight == l.inFlight + [Ok];
    StepAppend(l.engine, l.inFlight, [Ok]);
    assert StepAll(Settled(l), [Ok]) == OkStep(Settled(l)) by {
      StepOne(Settled(l), Ok);
    }
    EighthIsReady(Settled(l));
    forall n | 0 <= n < |m.inFlight|
      ensures !StepAll(m.engine, m.inFlight[..n]).loaded
    {
      assert m.inFlight[..n] == l.inFlight[..n];
      NotReadyBefore(l.engine, l.inFlight, n);
    }
  }

  // ----- Through the actual text -----

  predicate LoopStepFits(step: LoopStep) {
    step.Serves? ==> StepFits(step.step)
  }

  ghost predicate LoopFits(l: Loop, maps: MapSet) {
    ServerFits(l.server, maps) && AllSendable(l.inFlight)
  }

  lemma {:induction false} RunsKeepFits(l: Loop, maps: MapSet, steps: seq<LoopStep>)
    requires maps.Valid() && IsLoopRun(l, maps, steps) && LoopFits(l, maps)
    requires forall i :: 0 <= i < |steps| ==> LoopStepFits(steps[i])
    ensures LoopFits(LoopAfter(l, maps, steps), maps)
    decreases |steps|
  {
    hide ServerFits, StepFits, ServerRuns.Enabled, ServerRuns.Next, ServerRuns.Response, MessageSendable, Step, Asked;
    if steps != [] {
      if steps[0].Serves? {
        StepKeepsFit(l.server, maps, steps[0].step);
        OutputIsSendable(l.server, maps, steps[0].step);
      }
      RunsKeepFits(Next(l, maps, steps[0]), maps, steps[1..]);
    }
  }

  /** Receiving the text of what is on its way, cut into reads in any manner, is receiving what is on its way. */
  lemma TextBringsTables(db: Database, maps: MapSet, steps: seq<LoopStep>, chunks: seq<string>)
    requires maps.Valid() && Sound(db, maps) && DatabaseFits(db) && IsLoopRun(Start(db), maps, steps)
    requires forall i :: 0 <= i < |steps| ==> LoopStepFits(steps[i])
    requires Concat(chunks) == Utf8(Sent(Printed(LoopAfter(Start(db), maps, steps).inFlight)))
    ensures var l, gone := LoopAfter(Start(db), maps, steps), LeftBehind(Start(db), maps, steps);
            var (rest, lines) := FedInReads("", chunks);
            && rest == "" && StepAll(l.engine, Understood(lines)) == Settled(l)
            && (EarlyReturns(Start(db), maps, steps) == {} && ServerRuns.Waiting(l.server) == [] ==>
                  Portrays(StepAll(l.engine, Understood(lines)).dicts, SeenBy(l.server.subs, l.server.db), gone, true))
  {
    hide Sound, DatabaseFits, IsLoopRun, LoopAfter, SeenBy, StepAll, LoopStepFits, LeftBehind, EarlyReturns, Portrays;
    hide Concat, Utf8, Sent, Printed, FedInReads, Understood, MessageSendable, ServerRuns.Waiting;
    assert ServerRuns.Waiting(Start(db).server) == [] by {
      NothingWaits(db);
    }
    RunsKeepFits(Start(db), maps, steps);
    StreamArrives(LoopAfter(Start(db), maps, steps).inFlight, chunks);
    if EarlyReturns(Start(db), maps, steps) == {} {
      SettledShowsTables(db, maps, steps);
    }
  }

  lemma NothingWaits(db: Database)
    ensures ServerRuns.Waiting(Start(db).server) == []
  {
  }
}
