/**
 * Runs of the core and one Protocol D handler: events, notices handled one by one at any later time, commands in
 * between, and everything the handler writes.
 */
module ServerRuns {
  import opened Addresses
  import opened RoutingTables
  import opened RoutingDatabase
  import opened Ipc
  import opened Replication
  import opened ProtocolD

  /**
   * The tables, and of the handler: its subscriptions, the selects left of the notice at hand, and the notices it
   * has not read.
   */
  datatype Server = Server(db: Database, subs: Subscriptions, current: seq<Query>, pending: seq<Notice>)

  datatype ServerStep =
    | Happens(event: Event)
    | Takes
    | Selects
    | Subscribes(subject: Subject, listing: Batch)
    | SubscribesElsewhere
    | Pings

  function Connecting(db: Database): Server {
    Server(db, UNSUBSCRIBED, [], [])
  }

  /** The core does not wait for the handler; the handler finishes a notice before it turns to anything else. */
  ghost predicate Enabled(s: Server, step: ServerStep) {
    match step
    case Happens(e) => Possible(s.db, e)
    case Takes => s.current == [] && s.pending != []
    case Selects => s.current != []
    case Subscribes(subject, b) =>
      s.current == [] && !Subscribing(s.subs, subject) && SubscriptionListing(subject, s.db, b)
    case SubscribesElsewhere => s.current == []
    case Pings => s.current == []
  }

  /** The tables are locked while an event is worked in, so that its notices are read after it. */
  function Next(s: Server, maps: MapSet, step: ServerStep): Server
    requires maps.Loaded()
  {
    match step
    case Happens(e) => s.(db := Handled(s.db, maps, e), pending := s.pending + Notices(s.db, e))
    case Takes => if s.pending == [] then s else s.(current := Queries(s.pending[0]), pending := s.pending[1..])
    case Selects => if s.current == [] then s else s.(current := s.current[1..])
    case Subscribes(subject, _) => s.(subs := WithSubject(s.subs, subject))
    case SubscribesElsewhere => s
    case Pings => s
  }

  /** The records a step writes. */
  function Records(s: Server, step: ServerStep): Batch {
    match step
    case Selects => if s.current == [] then NOTHING else Subscribed(s.subs, Read(s.db, s.current[0]))
    case Subscribes(_, b) => b
    case _ => NOTHING
  }

  function Closing(step: ServerStep): seq<Message> {
    match step
    case Subscribes(_, _) => [Ok]
    case SubscribesElsewhere => [Ok]
    case Pings => [Pong]
    case _ => []
  }

  function Response(s: Server, step: ServerStep): seq<Message> {
    Written(Records(s, step)) + Closing(step)
  }

  ghost predicate IsServerRun(s: Server, maps: MapSet, steps: seq<ServerStep>)
    requires maps.Loaded()
    decreases |steps|
  {
    steps == [] || (Enabled(s, steps[0]) && IsServerRun(Next(s, maps, steps[0]), maps, steps[1..]))
  }

  function ServerAfter(s: Server, maps: MapSet, steps: seq<ServerStep>): Server
    requires maps.Loaded()
    decreases |steps|
  {
    if steps == [] then s else ServerAfter(Next(s, maps, steps[0]), maps, steps[1..])
  }

  /** Everything written in a run. */
  function Transcript(s: Server, maps: MapSet, steps: seq<ServerStep>): seq<Message>
    requires maps.Loaded()
    decreases |steps|
  {
    if steps == [] then [] else Response(s, steps[0]) + Transcript(Next(s, maps, steps[0]), maps, steps[1..])
  }

  // ----- What is still to be asked -----

  function Waiting(s: Server): seq<Query> {
    s.current + QueriesAll(s.pending)
  }

  predicate Quiet(waiting: seq<Query>, host: IPv4Number) {
    forall i :: 0 <= i < |waiting| ==> waiting[i].host != host
  }

  /** The LWRP node that goes down with a step once the client has subscribed to anything. */
  function Departing(s: Server, step: ServerStep): set<IPv4Number> {
    if step.Happens? && step.event.Disconnected? && Lwrp(s.db.nodes, step.event.host) && s.subs != UNSUBSCRIBED
    then {step.event.host}
    else {}
  }

  /** The host that comes up although a select about it still waits. */
  function ComingEarly(s: Server, step: ServerStep): set<IPv4Number> {
    if step.Happens? && step.event.Connected? && !Quiet(Waiting(s), step.event.host) then {step.event.host} else {}
  }

  /** The hosts of the slots among some records. */
  function SlotHosts(b: Batch): set<IPv4Number> {
    HostsNamed(b.sources) + HostsNamed(b.destinations) + HostsNamed(b.gpis) + HostsNamed(b.gpos)
  }

  function HostsNamed<V>(ops: seq<Op<Key, V>>): set<IPv4Number> {
    set i | 0 <= i < |ops| :: ops[i].key.host
  }

  /** The hosts whose slots a subscription lists although the select for their node still waits. */
  function ListingEarly(s: Server, step: ServerStep): set<IPv4Number> {
    if step.Subscribes? then set h | h in SlotHosts(step.listing) && AllOf(NodesSubject, h) in Waiting(s) else {}
  }

  function Departed(s: Server, maps: MapSet, steps: seq<ServerStep>): set<IPv4Number>
    requires maps.Loaded()
    decreases |steps|
  {
    if steps == [] then {} else Departing(s, steps[0]) + Departed(Next(s, maps, steps[0]), maps, steps[1..])
  }

  function EarlyReturns(s: Server, maps: MapSet, steps: seq<ServerStep>): set<IPv4Number>
    requires maps.Loaded()
    decreases |steps|
  {
    if steps == [] then {} else ComingEarly(s, steps[0]) + EarlyReturns(Next(s, maps, steps[0]), maps, steps[1..])
  }

  function ListedEarly(s: Server, maps: MapSet, steps: seq<ServerStep>): set<IPv4Number>
    requires maps.Loaded()
    decreases |steps|
  {
    if steps == [] then {} else ListingEarly(s, steps[0]) + ListedEarly(Next(s, maps, steps[0]), maps, steps[1..])
  }

  // ----- What every step keeps -----

  lemma StepKeepsSound(s: Server, maps: MapSet, step: ServerStep)
    requires maps.Valid() && Sound(s.db, maps) && Enabled(s, step)
    ensures Sound(Next(s, maps, step).db, maps)
  {
    hide Sound;
    if step.Happens? {
      HandledKeepsSound(s.db, maps, step.event);
    }
  }

  /** What waits after a step. */
  lemma WaitingAfter(s: Server, maps: MapSet, step: ServerStep)
    requires maps.Loaded() && Enabled(s, step)
    ensures var t := Next(s, maps, step);
            match step
            case Happens(e) => Waiting(t) == Waiting(s) + QueriesAll(Notices(s.db, e))
            case Selects => Waiting(s) == [s.current[0]] + Waiting(t)
            case _ => Waiting(t) == Waiting(s)
  {
    hide Handled, Notices, Queries, Possible, SubscriptionListing, WithSubject, Subscribing;
    match step
    case Happens(e) => QueriesAppend(s.pending, Notices(s.db, e));
    case _ =>
  }

  /** No removal waits for a host that is there. */
  ghost predicate NoneThere(waiting: seq<Query>, nodes: map<IPv4Number, NodeRow>) {
    forall i :: 0 <= i < |waiting| && waiting[i].Removal? ==> waiting[i].host !in nodes
  }

  ghost predicate Timely(s: Server) {
    NoneThere(Waiting(s), s.db.nodes)
  }

  /** The selects an event leads to in the end. */
  function EventQueries(db: Database, e: Event): seq<Query> {
    match e
    case Connected(h, _) => HostQueries(h) + HostQueries(h)
    case Disconnected(h) => if h in db.nodes then [Removal(h, CountsOf(db, h))] else []
    case SourceChanged(h, slot, _, _) => [RowOf(SourcesSubject, h, slot)]
    case DestinationChanged(h, slot, _, _) => [RowOf(DestinationsSubject, h, slot)]
    case GpiChanged(h, slot, _) => [RowOf(GpisSubject, h, slot)]
    case GpoChanged(h, slot, _, _, _) => [RowOf(GposSubject, h, slot)]
  }

  lemma {:induction false} QuietNotices(quiet: seq<Notice>, n: Notice)
    requires forall i :: 0 <= i < |quiet| ==> Queries(quiet[i]) == []
    ensures QueriesAll(quiet + [n]) == Queries(n)
  {
    hide Queries;
    if quiet == [] {
      assert quiet + [n] == [n] && [n][1..] == [];
    } else {
      assert (quiet + [n])[1..] == quiet[1..] + [n];
      QuietNotices(quiet[1..], n);
    }
  }

  /** Whatever crosspoint and code notices go before it, an event makes the handler ask once for what it concerns. */
  lemma NoticesAsk(db: Database, e: Event)
    ensures QueriesAll(Notices(db, e)) == EventQueries(db, e)
  {
    var ns := Notices(db, e);
    if ns == [] {
      assert QueriesAll([]) == [];
    } else {
      var quiet, last := ns[..|ns| - 1], ns[|ns| - 1];
      assert ns == quiet + [last];
      NoticesBeforeLast(db, e);
      QuietNotices(quiet, last);
      hide QueriesAll, Lower;
    }
  }

  lemma NoticesBeforeLast(db: Database, e: Event)
    ensures forall i :: 0 <= i < |Notices(db, e)| - 1 ==> Queries(Notices(db, e)[i]) == []
    ensures if Notices(db, e) == [] then EventQueries(db, e) == []
            else Queries(Notices(db, e)[|Notices(db, e)| - 1]) == EventQueries(db, e)
  {
    hide Lower;
  }
}
