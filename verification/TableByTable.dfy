/**
 * The clients' tables one by one. A host that departs leaves something behind only in the tables subscribed by then:
 * whoever departed before a table was subscribed, or came back before that, is of no account to it.
 */
module TableByTable {
  import opened Addresses
  import opened RoutingTables
  import opened RoutingDatabase
  import opened Replication
  import opened ProtocolD
  import opened ServerRuns
  import opened Following

  // ----- A handler with one subscription at most -----

  /** The handler as though its client had asked for this table at most. */
  function Narrowed(s: Server, subject: Subject): Server {
    s.(subs := if Subscribing(s.subs, subject) then WithSubject(UNSUBSCRIBED, subject) else UNSUBSCRIBED)
  }

  function Part(v: View, subject: Subject): View {
    match subject
    case NodesSubject => NO_VIEW.(nodes := v.nodes)
    case SourcesSubject => NO_VIEW.(sources := v.sources)
    case DestinationsSubject => NO_VIEW.(destinations := v.destinations)
    case GpisSubject => NO_VIEW.(gpis := v.gpis)
    case GposSubject => NO_VIEW.(gpos := v.gpos)
  }

  lemma NarrowedFollows(v: View, s: Server, subject: Subject, gone: set<IPv4Number>, renews: bool)
    requires Follows(v, s, gone, renews)
    ensures Follows(Part(v, subject), Narrowed(s, subject), gone, renews)
  {
    hide InStep, Asks, Seen, QueriesAll;
  }

  lemma NarrowedStep(s: Server, maps: MapSet, step: ServerStep, subject: Subject)
    requires maps.Loaded() && Enabled(s, step)
    ensures var n := Narrowed(s, subject);
            && n.db == s.db && Enabled(n, step) && ComingEarly(n, step) == ComingEarly(s, step)
            && (Timely(s) ==> Timely(n))
            && Narrowed(Next(n, maps, step), subject) == Narrowed(Next(s, maps, step), subject)
  {
    hide Handled, SubscriptionListing, Possible, QueriesAll, NoneThere, Quiet;
  }

  lemma NarrowedRecords(v: View, s: Server, step: ServerStep, subject: Subject, renews: bool)
    ensures Part(HeldAfter(Part(v, subject), Records(Narrowed(s, subject), step), renews), subject) ==
            Part(HeldAfter(v, Records(s, step), renews), subject)
  {
    hide Read, TakenAll;
  }

  lemma PartFollows(
      v: View, s: Server, maps: MapSet, step: ServerStep, subject: Subject, gone: set<IPv4Number>, renews: bool)
    requires maps.Valid() && Sound(s.db, maps) && Timely(s) && Enabled(s, step) && ComingEarly(s, step) == {}
    requires Follows(Part(v, subject), Narrowed(s, subject), gone, renews)
    ensures Follows(Part(HeldAfter(v, Records(s, step), renews), subject), Narrowed(Next(s, maps, step), subject),
                    gone + Departing(Narrowed(s, subject), step), renews)
  {
    hide Sound, Timely, Enabled, ComingEarly, Follows, HeldAfter, Records, Next, Departing, Narrowed, Part;
    var w, n := Part(v, subject), Narrowed(s, subject);
    NarrowedStep(s, maps, step, subject);
    StepFollows(w, n, maps, step, gone, renews);
    NarrowedFollows(HeldAfter(w, Records(n, step), renews), Next(n, maps, step), subject, gone + Departing(n, step),
                    renews);
    NarrowedRecords(v, s, step, subject, renews);
  }

  // ----- Whole runs -----

  /** The LWRP nodes that go down in a run after this table was subscribed. */
  function DepartedFrom(s: Server, maps: MapSet, steps: seq<ServerStep>, subject: Subject): set<IPv4Number>
    requires maps.Loaded()
    decreases |steps|
  {
    if steps == [] then {}
    else Departing(Narrowed(s, subject), steps[0]) + DepartedFrom(Next(s, maps, steps[0]), maps, steps[1..], subject)
  }

  lemma {:induction false} RunPartFollows(
      v: View, s: Server, maps: MapSet, steps: seq<ServerStep>, subject: Subject, gone: set<IPv4Number>, renews: bool)
    requires maps.Valid() && Sound(s.db, maps) && Timely(s)
    requires Follows(Part(v, subject), Narrowed(s, subject), gone, renews)
    requires IsServerRun(s, maps, steps) && EarlyReturns(s, maps, steps) == {}
    ensures Follows(Part(HeldThrough(v, s, maps, steps, renews), subject),
                    Narrowed(ServerAfter(s, maps, steps), subject),
                    gone + DepartedFrom(s, maps, steps, subject), renews)
    decreases |steps|
  {
    hide Sound, Timely, Enabled, ComingEarly, Follows, HeldAfter, Records, Next, Departing, Narrowed, Part;
    if steps == [] {
      assert gone + {} == gone;
    } else {
      var next, more := Next(s, maps, steps[0]), Departing(Narrowed(s, subject), steps[0]);
      StepKeepsSound(s, maps, steps[0]);
      StepStaysTimely(s, maps, steps[0]);
      PartFollows(v, s, maps, steps[0], subject, gone, renews);
      RunPartFollows(HeldAfter(v, Records(s, steps[0]), renews), next, maps, steps[1..], subject, gone + more, renews);
      var later := DepartedFrom(next, maps, steps[1..], subject);
      assert gone + more + later == gone + (more + later);
    }
  }

  /** The hosts that a run leaves behind, table by table. */
  function Left(s: Server, maps: MapSet, steps: seq<ServerStep>): Leavers
    requires maps.Loaded()
  {
    Leavers(DepartedFrom(s, maps, steps, NodesSubject), DepartedFrom(s, maps, steps, SourcesSubject),
            DepartedFrom(s, maps, steps, DestinationsSubject), DepartedFrom(s, maps, steps, GpisSubject),
            DepartedFrom(s, maps, steps, GposSubject))
  }

  /** What the part of a table says of the whole. */
  ghost predicate PartPortrays(v: View, seen: View, subject: Subject, gone: set<IPv4Number>, renews: bool) {
    && Portrays(Part(v, subject), Part(seen, subject), Everywhere(gone), renews)
    && (gone == {} ==> Part(v, subject) == Part(seen, subject))
  }

  lemma PartRests(db: Database, maps: MapSet, steps: seq<ServerStep>, subject: Subject, renews: bool)
    requires maps.Valid() && Sound(db, maps) && IsServerRun(Connecting(db), maps, steps)
    requires EarlyReturns(Connecting(db), maps, steps) == {} && Waiting(ServerAfter(Connecting(db), maps, steps)) == []
    ensures var s, t := Connecting(db), ServerAfter(Connecting(db), maps, steps);
            PartPortrays(HeldThrough(NO_VIEW, s, maps, steps, renews), SeenBy(t.subs, t.db), subject,
                         DepartedFrom(s, maps, steps, subject), renews)
  {
    hide Sound, Timely, Follows, IsServerRun, EarlyReturns, ServerAfter, HeldThrough, DepartedFrom, Waiting, Seen;
    hide Portrays;
    var s, t := Connecting(db), ServerAfter(Connecting(db), maps, steps);
    var v, gone := HeldThrough(NO_VIEW, s, maps, steps, renews), DepartedFrom(s, maps, steps, subject);
    FreshFollows(db, renews);
    assert Part(NO_VIEW, subject) == NO_VIEW && Narrowed(s, subject) == s;
    RunPartFollows(NO_VIEW, s, maps, steps, subject, {}, renews);
    assert {} + gone == gone;
    NarrowedWaits(t, subject);
    RestIsAccurate(Part(v, subject), Narrowed(t, subject), gone, renews);
    assert SeenBy(Narrowed(t, subject).subs, t.db) == Part(SeenBy(t.subs, t.db), subject);
  }

  lemma NarrowedWaits(s: Server, subject: Subject)
    ensures Waiting(Narrowed(s, subject)) == Waiting(s)
  {
  }

  lemma PartsMakeWhole(v: View, seen: View, gone: Leavers, renews: bool)
    requires PartPortrays(v, seen, NodesSubject, gone.nodes, renews)
    requires PartPortrays(v, seen, SourcesSubject, gone.sources, renews)
    requires PartPortrays(v, seen, DestinationsSubject, gone.destinations, renews)
    requires PartPortrays(v, seen, GpisSubject, gone.gpis, renews)
    requires PartPortrays(v, seen, GposSubject, gone.gpos, renews)
    ensures Portrays(v, seen, gone, renews) && (gone == NOBODY ==> v == seen)
  {
    hide Accurate;
  }

  /**
   * A fresh client of either kind after any run without early returns, with nothing left to ask: each table it has
   * subscribed to is accurate, up to the hosts that departed since it did. If none did, it equals the table.
   */
  lemma RestShowsTables(db: Database, maps: MapSet, steps: seq<ServerStep>, renews: bool)
    requires maps.Valid() && Sound(db, maps) && IsServerRun(Connecting(db), maps, steps)
    requires EarlyReturns(Connecting(db), maps, steps) == {} && Waiting(ServerAfter(Connecting(db), maps, steps)) == []
    ensures var s, t := Connecting(db), ServerAfter(Connecting(db), maps, steps);
            var v, seen := HeldThrough(NO_VIEW, s, maps, steps, renews), SeenBy(t.subs, t.db);
            Portrays(v, seen, Left(s, maps, steps), renews) && (Left(s, maps, steps) == NOBODY ==> v == seen)
  {
    hide Sound, IsServerRun, EarlyReturns, ServerAfter, HeldThrough, DepartedFrom, Waiting, SeenBy, PartPortrays,
         Portrays;
    var s, t := Connecting(db), ServerAfter(Connecting(db), maps, steps);
    PartRests(db, maps, steps, NodesSubject, renews);
    PartRests(db, maps, steps, SourcesSubject, renews);
    PartRests(db, maps, steps, DestinationsSubject, renews);
    PartRests(db, maps, steps, GpisSubject, renews);
    PartRests(db, maps, steps, GposSubject, renews);
    PartsMakeWhole(HeldThrough(NO_VIEW, s, maps, steps, renews), SeenBy(t.subs, t.db), Left(s, maps, steps), renews);
  }
}
