/**
 * Slots and their nodes in the Python client, which subscribes to nodes first. In runs without early returns every
 * slot has its node exactly if no subscription lists a slot while the select for its node still waits.
 */
module Housing {
  import opened Addresses
  import opened RoutingTables
  import opened RoutingDatabase
  import opened Replication
  import opened ProtocolD
  import opened ServerRuns
  import opened Following
  import opened Recollection
  import opened LateNotices
  import StateEngineClient
  import Loops = StateEngineReplication

  /** Every slot held is of a node held, except slots of these hosts. */
  ghost predicate Housed(v: View, late: set<IPv4Number>) {
    forall k :: k in v.sources || k in v.destinations || k in v.gpis || k in v.gpos ==> k.host in v.nodes.Keys + late
  }

  // ----- Nodes are asked for before their slots -----

  /** A select for all slots of a host as one that may not come before the host's node. */
  function Housing(q: Query): seq<Ask<IPv4Number>> {
    if q.AllOf? then [if q.subject == NodesSubject then Whole(q.host) else Single(q.host)] else []
  }

  /** What is missing of the nodes will be asked for before any slots of it are. */
  ghost predicate NodesComeFirst(v: View, nodes: map<IPv4Number, NodeRow>, waiting: seq<Query>) {
    forall h :: h in NodesSeen(nodes) && h !in v.nodes ==> Due(Asks(waiting, Housing), h, h)
  }

  predicate SlotsAfterNodes(subs: Subscriptions) {
    subs.sources || subs.destinations || subs.gpis || subs.gpos ==> subs.nodes
  }

  ghost predicate InOrder(v: View, s: Server, late: set<IPv4Number>) {
    Housed(v, late) && (s.subs.nodes ==> NodesComeFirst(v, s.db.nodes, Waiting(s)))
  }

  lemma HousingIsLocal(host: IPv4Number)
    ensures Local(Housing, HostItself)
    ensures Asks(HostQueries(host), Housing) != [] && Asks(HostQueries(host), Housing)[0] == Whole(host)
  {
  }

  lemma ShownAfter(db: Database, maps: MapSet, e: Event)
    requires maps.Loaded()
    ensures forall h :: h in NodesSeen(Handled(db, maps, e).nodes) && !(e.Connected? && h == e.host) ==>
              h in NodesSeen(db.nodes)
  {
    hide HostAdded, HostRemoved, LinkChanged, DataChanged;
  }

  lemma EventKeepsOrder(v: View, db: Database, maps: MapSet, waiting: seq<Query>, e: Event)
    requires maps.Loaded() && NodesComeFirst(v, db.nodes, waiting) && (e.Connected? ==> Quiet(waiting, e.host))
    ensures NodesComeFirst(v, Handled(db, maps, e).nodes, waiting + EventQueries(db, e))
  {
    hide Handled, HostQueries, NodesSeen, Due, Asks, Quiet, Local;
    var after, more := Handled(db, maps, e).nodes, EventQueries(db, e);
    ShownAfter(db, maps, e);
    AsksAppend(waiting, more, Housing);
    forall h | h in NodesSeen(after) && h !in v.nodes
      ensures Due(Asks(waiting + more, Housing), h, h)
    {
      if e.Connected? && h == e.host {
        HousingIsLocal(h);
        AsksAppend(HostQueries(h), HostQueries(h), Housing);
        QuietAsks(waiting, h, Housing, HostItself);
        DueAtEnd(Asks(waiting, Housing), Asks(more, Housing), h, h);
      } else {
        DueStays(Asks(waiting, Housing), Asks(more, Housing), h, h);
      }
    }
  }

  // ----- Records keep slots housed -----

  lemma {:induction false} OldOrNamed<K, V>(m: map<K, V>, ops: seq<Op<K, V>>, renews: bool)
    ensures forall k :: k in TakenAll(m, ops, renews) ==> k in m || NamesKey(ops, k)
    decreases |ops|
  {
    if ops != [] {
      OldOrNamed(Taken(m, ops[0], renews), ops[1..], renews);
      forall k | NamesKey(ops[1..], k) || ops[0].key == k
        ensures NamesKey(ops, k)
      {
        if NamesKey(ops[1..], k) {
          var i :| 0 <= i < |ops[1..]| && ops[1..][i].key == k;
          assert ops[i + 1].key == k;
        }
      }
      hide NamesKey;
    }
  }

  /** The records name only slots that are known or whose node is. */
  ghost predicate NamesHoused<V>(held: map<Key, V>, ops: seq<Op<Key, V>>, homes: set<IPv4Number>) {
    forall i :: 0 <= i < |ops| ==> ops[i].key in held || ops[i].key.host in homes
  }

  lemma TableStaysHoused<V>(
      held: map<Key, V>, ops: seq<Op<Key, V>>, homes: set<IPv4Number>, after: set<IPv4Number>)
    requires (forall k :: k in held ==> k.host in homes) && NamesHoused(held, ops, homes) && homes <= after
    ensures forall k :: k in TakenAll(held, ops, true) ==> k.host in after
  {
    OldOrNamed(held, ops, true);
    hide TakenAll;
  }

  ghost predicate BatchHoused(v: View, b: Batch, late: set<IPv4Number>) {
    var homes := v.nodes.Keys + late;
    && NamesHoused(v.sources, b.sources, homes) && NamesHoused(v.destinations, b.destinations, homes)
    && NamesHoused(v.gpis, b.gpis, homes) && NamesHoused(v.gpos, b.gpos, homes)
  }

  lemma BatchKeepsHoused(v: View, b: Batch, late: set<IPv4Number>)
    requires Housed(v, late) && OnlyGrows(b) && BatchHoused(v, b, late)
    ensures Housed(HeldAfter(v, b, true), late) && v.nodes.Keys <= HeldAfter(v, b, true).nodes.Keys
  {
    hide TakenAll, NamesHoused;
    GrownHoldsAll(v, b, true);
    var homes, after := v.nodes.Keys + late, HeldAfter(v, b, true).nodes.Keys + late;
    TableStaysHoused(v.sources, b.sources, homes, after);
    TableStaysHoused(v.destinations, b.destinations, homes, after);
    TableStaysHoused(v.gpis, b.gpis, homes, after);
    TableStaysHoused(v.gpos, b.gpos, homes, after);
  }

  lemma MoreLate(v: View, late: set<IPv4Number>, more: set<IPv4Number>)
    requires Housed(v, late)
    ensures Housed(v, late + more)
  {
  }

  // ----- Every step of the server -----

  /** The answer to a select names known slots, or slots of a host that is at home. */
  lemma AnswerIsHoused<V>(
      on: bool, held: map<Key, V>, asked: seq<Ask<Key>>, ops: seq<Op<Key, V>>, shown: map<Key, V>,
      homes: set<IPv4Number>)
    requires Answered(asked, ops, shown, HostOfKey) && (on ==> KnownAll(held, ops, true))
    requires forall k :: on && k in shown && asked == [Whole(k.host)] ==> k.host in homes
    ensures NamesHoused(held, if on then ops else [], homes)
  {
    if on && asked != [] {
      if asked[0].Whole? {
        assert asked == [Whole(asked[0].host)];
      } else if asked[0].key in shown {
        TakeOne(held, Change(asked[0].key, shown[asked[0].key]), true);
      }
    }
  }

  lemma HeadIsHome(v: View, nodes: map<IPv4Number, NodeRow>, waiting: seq<Query>, h: IPv4Number)
    requires NodesComeFirst(v, nodes, waiting) && h in NodesSeen(nodes)
    requires waiting != [] && waiting[0].AllOf? && waiting[0].subject != NodesSubject && waiting[0].host == h
    ensures h in v.nodes
  {
    assert Asks(waiting, Housing)[0] == Single(h);
  }

  lemma SlotsShowNodes(db: Database)
    ensures var seen := Seen(db);
            forall k :: k in seen.sources || k in seen.destinations || k in seen.gpis || k in seen.gpos ==>
              k.host in NodesSeen(db.nodes)
  {
  }

  lemma SelectIsHoused(
      v: View, subs: Subscriptions, db: Database, maps: MapSet, waiting: seq<Query>, late: set<IPv4Number>)
    requires Sound(db, maps) && waiting != [] && (waiting[0].Removal? ==> waiting[0].host !in db.nodes)
    requires SlotsAfterNodes(subs) && (subs.nodes ==> NodesComeFirst(v, db.nodes, waiting))
    requires KnownBatch(v, Subscribed(subs, Read(db, waiting[0])), true)
    ensures BatchHoused(v, Subscribed(subs, Read(db, waiting[0])), late)
  {
    hide Sound, Read, Answered, KnownAll, NamesHoused, NodesComeFirst, NodesSeen, Seen;
    var q, b, seen := waiting[0], Read(db, waiting[0]), Seen(db);
    ReadAnswers(db, maps, q);
    SlotsShowNodes(db);
    forall h | h in NodesSeen(db.nodes) && subs.nodes && q.AllOf? && q.subject != NodesSubject && q.host == h
      ensures h in v.nodes
    {
      HeadIsHome(v, db.nodes, waiting, h);
    }
    var homes := v.nodes.Keys + late;
    AnswerIsHoused(subs.sources, v.sources, SourceAsk(q), b.sources, seen.sources, homes);
    AnswerIsHoused(subs.destinations, v.destinations, DestinationAsk(q), b.destinations, seen.destinations, homes);
    AnswerIsHoused(subs.gpis, v.gpis, GpiAsk(q), b.gpis, seen.gpis, homes);
    AnswerIsHoused(subs.gpos, v.gpos, GpoAsk(q), b.gpos, seen.gpos, homes);
  }

  /** What is still missing after a select will still be asked for before its slots. */
  lemma SelectKeepsOrder(v: View, subs: Subscriptions, db: Database, waiting: seq<Query>)
    requires waiting != [] && subs.nodes && NodesComeFirst(v, db.nodes, waiting)
    requires OnlyGrows(Subscribed(subs, Read(db, waiting[0])))
    ensures NodesComeFirst(HeldAfter(v, Subscribed(subs, Read(db, waiting[0])), true), db.nodes, waiting[1..])
  {
    var q, b := waiting[0], Subscribed(subs, Read(db, waiting[0]));
    var w := HeldAfter(v, b, true);
    GrownHoldsAll(v, b, true);
    if q.AllOf? && q.subject == NodesSubject {
      NodeIsTaken(v, subs, db, q);
    }
    hide HeldAfter, Read, NodesSeen, OnlyGrows, HostBatch;
    forall h | h in NodesSeen(db.nodes) && h !in w.nodes
      ensures Due(Asks(waiting[1..], Housing), h, h)
    {
      assert Due(Asks(waiting, Housing), h, h);
      if q.AllOf? {
        assert Asks(waiting, Housing)[0] == Housing(q)[0] && Asks(waiting, Housing)[1..] == Asks(waiting[1..], Housing);
      } else {
        assert Asks(waiting, Housing) == Asks(waiting[1..], Housing);
      }
    }
  }

  lemma NodeIsTaken(v: View, subs: Subscriptions, db: Database, q: Query)
    requires subs.nodes && q.AllOf? && q.subject == NodesSubject
    ensures q.host in NodesSeen(db.nodes) ==> q.host in HeldAfter(v, Subscribed(subs, Read(db, q)), true).nodes
  {
    if q.host in NodesSeen(db.nodes) {
      var op := Add(q.host, InfoOf(db.nodes[q.host]));
      TakeOne(v.nodes, op, true);
      assert Subscribed(subs, Read(db, q)).nodes == [op];
    }
  }

  // ----- Subscribing -----

  lemma {:induction false} DueIsWaited(waiting: seq<Query>, host: IPv4Number)
    requires Due(Asks(waiting, Housing), host, host)
    ensures AllOf(NodesSubject, host) in waiting
    decreases |waiting|
  {
    var first, rest := Housing(waiting[0]), Asks(waiting[1..], Housing);
    if first != [Whole(host)] {
      assert (first + rest)[|first|..] == rest;
      DueIsWaited(waiting[1..], host);
    }
  }

  lemma ListedIsShown(subject: Subject, db: Database, b: Batch)
    requires SubscriptionListing(subject, db, b)
    ensures forall h :: h in SlotHosts(b) ==> h in NodesSeen(db.nodes)
  {
    ListingRead(subject, db, b);
    ListingGrows(subject, db, b);
    SlotsShowNodes(db);
    hide Seen, NodesSeen, SubscriptionListing;
  }

  lemma HostsAreHoused(v: View, b: Batch, late: set<IPv4Number>)
    requires SlotHosts(b) <= v.nodes.Keys + late
    ensures BatchHoused(v, b, late)
  {
  }

  /** A listing is housed except for slots whose node the handler has yet to ask for. */
  lemma ListingIsHoused(v: View, s: Server, subject: Subject, b: Batch, late: set<IPv4Number>)
    requires SubscriptionListing(subject, s.db, b) && NodesComeFirst(v, s.db.nodes, Waiting(s))
    ensures BatchHoused(v, b, late + ListingEarly(s, Subscribes(subject, b)))
  {
    hide SlotHosts, BatchHoused, NodesSeen, Waiting, Due, Asks, SubscriptionListing;
    ListedIsShown(subject, s.db, b);
    forall h | h in SlotHosts(b) && h !in v.nodes
      ensures h in ListingEarly(s, Subscribes(subject, b))
    {
      DueIsWaited(Waiting(s), h);
    }
    HostsAreHoused(v, b, late + ListingEarly(s, Subscribes(subject, b)));
  }

  lemma NodesListed(v: View, db: Database, waiting: seq<Query>, b: Batch, late: set<IPv4Number>)
    requires SubscriptionListing(NodesSubject, db, b) && v.nodes == map[]
    ensures BatchHoused(v, b, late) && NodesComeFirst(HeldAfter(v, b, true), db.nodes, waiting)
  {
    SubscriptionFills(NodesSubject, db, b, true);
    hide SubscriptionListing, NodesSeen, Due, KnownAll;
  }

  lemma OrderStays(v: View, w: View, nodes: map<IPv4Number, NodeRow>, waiting: seq<Query>)
    requires NodesComeFirst(v, nodes, waiting) && v.nodes.Keys <= w.nodes.Keys
    ensures NodesComeFirst(w, nodes, waiting)
  {
    hide NodesSeen, Due, Asks;
  }

  lemma NothingKnown(v: View, s: Server, gone: set<IPv4Number>)
    requires Follows(v, s, gone, true) && !s.subs.nodes
    ensures v.nodes == map[]
  {
    hide InStep;
  }

  lemma SubscribingKeepsOrder(
      v: View, s: Server, gone: set<IPv4Number>, late: set<IPv4Number>, subject: Subject, b: Batch)
    requires Follows(v, s, gone, true) && InOrder(v, s, late) && SubscriptionListing(subject, s.db, b)
    requires SlotsAfterNodes(WithSubject(s.subs, subject)) && !Subscribing(s.subs, subject)
    ensures Housed(HeldAfter(v, b, true), late + ListingEarly(s, Subscribes(subject, b)))
    ensures NodesComeFirst(HeldAfter(v, b, true), s.db.nodes, Waiting(s))
  {
    hide Follows, Housed, NodesComeFirst, HeldAfter, SubscriptionListing, BatchHoused, OnlyGrows, ListingEarly, Waiting;
    var more := late + ListingEarly(s, Subscribes(subject, b));
    ListingGrows(subject, s.db, b);
    MoreLate(v, late, ListingEarly(s, Subscribes(subject, b)));
    if subject == NodesSubject {
      NothingKnown(v, s, gone);
      NodesListed(v, s.db, Waiting(s), b, more);
      BatchKeepsHoused(v, b, more);
    } else {
      ListingIsHoused(v, s, subject, b, late);
      BatchKeepsHoused(v, b, more);
      OrderStays(v, HeldAfter(v, b, true), s.db.nodes, Waiting(s));
    }
  }

  lemma StepKeepsOrder(
      v: View, s: Server, maps: MapSet, step: ServerStep, gone: set<IPv4Number>, late: set<IPv4Number>)
    requires maps.Valid() && Sound(s.db, maps) && Timely(s) && Follows(v, s, gone, true) && Enabled(s, step)
    requires ComingEarly(s, step) == {} && InOrder(v, s, late)
    requires SlotsAfterNodes(s.subs) && SlotsAfterNodes(Next(s, maps, step).subs)
    ensures InOrder(HeldAfter(v, Records(s, step), true), Next(s, maps, step), late + ListingEarly(s, step))
  {
    hide Sound, Follows, Housed, NodesComeFirst, HeldAfter, Handled, Waiting, KnownBatch, Quiet, EventQueries, Notices;
    hide QueriesAll, NoneThere, SubscriptionListing, BatchHoused, OnlyGrows, Read, Subscribed;
    hide WithSubject, Subscribing, SlotHosts;
    WaitingAfter(s, maps, step);
    NothingTaken(v, true);
    StepFollows(v, s, maps, step, gone, true);
    StepStaysTimely(s, maps, step);
    assert late + {} == late;
    match step
    case Happens(e) =>
      NoticesAsk(s.db, e);
      if s.subs.nodes {
        EventKeepsOrder(v, s.db, maps, Waiting(s), e);
      }
    case Selects =>
      var t := Next(s, maps, step);
      assert Waiting(s)[0] == s.current[0] && Waiting(s)[1..] == Waiting(t);
      RestStaysTimely(s.current[0], Waiting(t), s.db.nodes);
      SelectIsHoused(v, s.subs, s.db, maps, Waiting(s), late);
      BatchKeepsHoused(v, Records(s, step), late);
      if s.subs.nodes {
        SelectKeepsOrder(v, s.subs, s.db, Waiting(s));
      }
    case Subscribes(subject, b) => SubscribingKeepsOrder(v, s, gone, late, subject, b);
    case _ =>
  }

  // ----- The engine -----

  lemma SubscribedInOrder(l: Loops.Loop, maps: MapSet, gone: set<IPv4Number>)
    requires Loops.Consistent(l, maps, gone)
    ensures SlotsAfterNodes(l.server.subs) && Sound(l.server.db, maps) && Timely(l.server)
    ensures Follows(Loops.Settled(l).dicts, l.server, gone, true)
  {
    hide Sound, Timely, Follows, Loops.Settled, StateEngineClient.Orderly;
  }

  lemma ServingKeepsOrder(
      l: Loops.Loop, maps: MapSet, gone: set<IPv4Number>, late: set<IPv4Number>, step: ServerStep)
    requires maps.Valid() && Loops.Consistent(l, maps, gone) && Loops.Enabled(l, Loops.Serves(step))
    requires ComingEarly(l.server, step) == {} && InOrder(Loops.Settled(l).dicts, l.server, late)
    ensures var m := Loops.Next(l, maps, Loops.Serves(step));
            && Loops.Consistent(m, maps, gone + Departing(l.server, step))
            && InOrder(Loops.Settled(m).dicts, m.server, late + ListingEarly(l.server, step))
  {
    hide Loops.Consistent, InOrder, Enabled, ComingEarly, ListingEarly, Departing, Records, Next, HeldAfter, Sound,
         Timely;
    hide Loops.Settled, Follows, SlotsAfterNodes;
    Loops.ServesKeepsConsistent(l, maps, gone, step);
    var m := Loops.Next(l, maps, Loops.Serves(step));
    SubscribedInOrder(l, maps, gone);
    SubscribedInOrder(m, maps, gone + Departing(l.server, step));
    StepKeepsOrder(Loops.Settled(l).dicts, l.server, maps, step, gone, late);
  }

  /** Without early returns only slots that are listed early are ever without their node, whatever is on its way. */
  lemma {:induction false} RunsStayHoused(
      l: Loops.Loop, maps: MapSet, steps: seq<Loops.LoopStep>, gone: set<IPv4Number>, late: set<IPv4Number>)
    requires maps.Valid() && Loops.Consistent(l, maps, gone) && Loops.IsLoopRun(l, maps, steps)
    requires Loops.EarlyReturns(l, maps, steps) == {} && InOrder(Loops.Settled(l).dicts, l.server, late)
    ensures Housed(Loops.Settled(Loops.LoopAfter(l, maps, steps)).dicts, late + Loops.ListedEarly(l, maps, steps))
    decreases |steps|
  {
    hide Loops.Consistent, Loops.Settled, Loops.Enabled, ComingEarly, ListingEarly, Departing, NodesComeFirst, Waiting;
    hide Housed, Next;
    if steps == [] {
      assert late + {} == late;
    } else {
      var next := Loops.Next(l, maps, steps[0]);
      match steps[0] {
        case Serves(step) =>
          assert Loops.Served(steps) == [step] + Loops.Served(steps[1..]);
          assert Loops.Served(steps)[1..] == Loops.Served(steps[1..]);
          var listed := ListingEarly(l.server, step);
          ServingKeepsOrder(l, maps, gone, late, step);
          RunsStayHoused(next, maps, steps[1..], gone + Departing(l.server, step), late + listed);
          assert late + listed + Loops.ListedEarly(next, maps, steps[1..])
              == late + (listed + Loops.ListedEarly(next, maps, steps[1..]));
        case Arrives =>
          assert l.inFlight != [] by {
            Loops.EnabledArrival(l);
          }
          assert Loops.Served(steps) == Loops.Served(steps[1..]);
          Loops.ArrivalKeepsConsistent(l, maps, gone);
          Loops.ArrivalLeavesServer(l, maps);
          RunsStayHoused(next, maps, steps[1..], gone, late);
      }
    }
  }

  lemma StartIsInOrder(db: Database)
    ensures InOrder(Loops.Settled(Loops.Start(db)).dicts, Loops.Start(db).server, {})
  {
    StateEngineClient.NothingReceived(StateEngineClient.FRESH_ENGINE);
  }

  // ----- The promise and its limit -----

  /** Once all has arrived, a slot without its node is of a host whose slots were listed early. */
  lemma LateSlotsWereListed(db: Database, maps: MapSet, steps: seq<Loops.LoopStep>)
    requires maps.Valid() && Sound(db, maps) && Timed(Loops.Start(db), maps, steps)
    ensures Housed(Loops.Settled(Loops.LoopAfter(Loops.Start(db), maps, steps)).dicts,
                   Loops.ListedEarly(Loops.Start(db), maps, steps))
  {
    hide Sound, Loops.Consistent, InOrder, Loops.IsLoopRun, Loops.LoopAfter, Loops.Settled, Housed, ListedEarly;
    hide EarlyReturns;
    Loops.StartIsConsistent(db, maps);
    StartIsInOrder(db);
    RunsStayHoused(Loops.Start(db), maps, steps, {}, {});
    assert {} + Loops.ListedEarly(Loops.Start(db), maps, steps) == Loops.ListedEarly(Loops.Start(db), maps, steps);
  }

  /** A run of the client and the server without early returns and with no host listed early but of these. */
  ghost predicate CarefulRun(db: Database, maps: MapSet, steps: seq<Loops.LoopStep>, early: set<IPv4Number>)
    requires maps.Loaded()
  {
    && Sound(db, maps) && Timed(Loops.Start(db), maps, steps)
    && Loops.ListedEarly(Loops.Start(db), maps, steps) <= early
  }

  function EngineAfter(db: Database, maps: MapSet, steps: seq<Loops.LoopStep>): StateEngineClient.Engine
    requires maps.Loaded()
  {
    Loops.Settled(Loops.LoopAfter(Loops.Start(db), maps, steps))
  }

  /** After every such run, all having arrived, the slots of the engine have their nodes. */
  ghost predicate SlotsAreHoused(maps: MapSet, early: set<IPv4Number>)
    requires maps.Loaded()
  {
    forall db, steps :: CarefulRun(db, maps, steps, early) ==> Housed(EngineAfter(db, maps, steps).dicts, {})
  }

  /** The same of the runs that end at rest only. */
  ghost predicate RestingSlotsAreHoused(maps: MapSet, early: set<IPv4Number>)
    requires maps.Loaded()
  {
    forall db, steps ::
      CarefulRun(db, maps, steps, early) && Resting(Loops.LoopAfter(Loops.Start(db), maps, steps)) ==>
        Housed(EngineAfter(db, maps, steps).dicts, {})
  }

  lemma OrphanIsCareful(maps: MapSet, host: IPv4Number, early: set<IPv4Number>) returns (steps: seq<Loops.LoopStep>)
    requires maps.Valid() && host in early
    ensures CarefulRun(EmptyDatabase(), maps, steps, early)
    ensures Resting(Loops.LoopAfter(Loops.Start(EmptyDatabase()), maps, steps))
    ensures !Housed(EngineAfter(EmptyDatabase(), maps, steps).dicts, {})
  {
    hide Sound, Timed, Loops.LoopAfter, Loops.ListedEarly, EmptyDatabase, Waiting;
    EmptyIsSound(maps);
    steps := SlotWithoutNode(maps, host);
    var l := Loops.LoopAfter(Loops.Start(EmptyDatabase()), maps, steps);
    StateEngineClient.NothingReceived(l.engine);
    assert Key(host, 0).host == host;
  }

  /**
   * The engine's slots always have their nodes exactly if no host at all may be listed while the select for its node
   * waits; and exactly then they have them whenever the system has come to rest.
   */
  lemma SlotsNeedTimelyListings(maps: MapSet, early: set<IPv4Number>)
    requires maps.Valid()
    ensures SlotsAreHoused(maps, early) <==> early == {}
    ensures RestingSlotsAreHoused(maps, early) <==> early == {}
  {
    hide Sound, Timed, Loops.LoopAfter, Loops.ListedEarly, Housed, Resting, Loops.Settled;
    if early == {} {
      forall db, steps | CarefulRun(db, maps, steps, early)
        ensures Housed(EngineAfter(db, maps, steps).dicts, {})
      {
        assert Loops.ListedEarly(Loops.Start(db), maps, steps) == {};
        LateSlotsWereListed(db, maps, steps);
      }
    } else {
      var host :| host in early;
      var steps := OrphanIsCareful(maps, host, early);
    }
  }
}
