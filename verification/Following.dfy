/**
 * Being in step with the server: what a client holds, once everything written has reached it, differs from the
 * tables only by what the handler has yet to ask for, and by hosts that departed.
 */
module Following {
  import opened Addresses
  import opened RoutingTables
  import opened RoutingDatabase
  import opened Replication
  import opened ProtocolD
  import opened ServerRuns

  // ----- The waiting selects, table by table -----

  function NodeAsk(q: Query): seq<Ask<IPv4Number>> {
    if q.AllOf? && q.subject == NodesSubject then [Whole(q.host)] else []
  }

  function SlotAsk(q: Query, subject: Subject): seq<Ask<Key>> {
    match q
    case AllOf(s, h) => if s == subject then [Whole(h)] else []
    case RowOf(s, h, n) => if s == subject then [Single(Key(h, n))] else []
    case Removal(_, _) => []
  }

  function SourceAsk(q: Query): seq<Ask<Key>> {
    SlotAsk(q, SourcesSubject)
  }

  function DestinationAsk(q: Query): seq<Ask<Key>> {
    SlotAsk(q, DestinationsSubject)
  }

  function GpiAsk(q: Query): seq<Ask<Key>> {
    SlotAsk(q, GpisSubject)
  }

  function GpoAsk(q: Query): seq<Ask<Key>> {
    SlotAsk(q, GposSubject)
  }

  function Asks<K>(waiting: seq<Query>, ask: Query -> seq<Ask<K>>): seq<Ask<K>>
    decreases |waiting|
  {
    if waiting == [] then [] else ask(waiting[0]) + Asks(waiting[1..], ask)
  }

  lemma {:induction false} AsksAppend<K>(a: seq<Query>, b: seq<Query>, ask: Query -> seq<Ask<K>>)
    ensures Asks(a + b, ask) == Asks(a, ask) + Asks(b, ask)
    decreases |a|
  {
    if a == [] {
      assert a + b == b;
    } else {
      assert (a + b)[1..] == a[1..] + b;
      AsksAppend(a[1..], b, ask);
    }
  }

  /** A select about one row concerns that row's host. */
  ghost predicate Local<K(!new)>(ask: Query -> seq<Ask<K>>, home: K -> IPv4Number) {
    forall q, k :: Single(k) in ask(q) ==> home(k) == q.host
  }

  lemma {:induction false} QuietAsks<K(!new)>(
      waiting: seq<Query>, host: IPv4Number, ask: Query -> seq<Ask<K>>, home: K -> IPv4Number)
    requires Quiet(waiting, host) && Local(ask, home)
    ensures forall k :: Single(k) in Asks(waiting, ask) ==> home(k) != host
    decreases |waiting|
  {
    if waiting != [] {
      QuietAsks(waiting[1..], host, ask, home);
      assert waiting[0].host != host;
    }
  }

  // ----- One table -----

  ghost predicate Tracks<K(!new), V>(
    on: bool, held: map<K, V>, shown: map<K, V>, waiting: seq<Query>, ask: Query -> seq<Ask<K>>,
    gone: set<IPv4Number>, home: K -> IPv4Number, renews: bool)
  {
    if on then InStep(held, shown, Asks(waiting, ask), gone, home, renews) else held == map[]
  }

  /** All rows of a host, if any, appear. */
  ghost predicate Comes<K(!new), V>(shown: map<K, V>, after: map<K, V>, host: IPv4Number, home: K -> IPv4Number) {
    && (forall k :: k in shown <==> k in after && home(k) != host)
    && (forall k :: k in shown ==> shown[k] == after[k])
  }

  lemma TracksComing<K(!new), V>(
      on: bool, held: map<K, V>, shown: map<K, V>, after: map<K, V>, waiting: seq<Query>, more: seq<Query>,
      ask: Query -> seq<Ask<K>>, gone: set<IPv4Number>, home: K -> IPv4Number, renews: bool, host: IPv4Number)
    requires Tracks(on, held, shown, waiting, ask, gone, home, renews) && Comes(shown, after, host, home)
    requires Quiet(waiting, host) && Local(ask, home) && Asks(more, ask) == [Whole(host), Whole(host)]
    ensures Tracks(on, held, after, waiting + more, ask, gone, home, renews)
  {
    hide InStep, Quiet, Local, Asks;
    if on {
      AsksAppend(waiting, more, ask);
      QuietAsks(waiting, host, ask, home);
      HostComes(held, shown, after, Asks(waiting, ask), Asks(more, ask), host, gone, home, renews);
    }
  }

  lemma TracksGoing<K(!new), V>(
      on: bool, held: map<K, V>, shown: map<K, V>, after: map<K, V>, waiting: seq<Query>, more: seq<Query>,
      ask: Query -> seq<Ask<K>>, gone: set<IPv4Number>, home: K -> IPv4Number, renews: bool, host: IPv4Number,
      seen: bool)
    requires Tracks(on, held, shown, waiting, ask, gone, home, renews) && Comes(after, shown, host, home)
    requires Asks(more, ask) == [] && (!seen ==> shown == after || !on)
    ensures Tracks(on, held, after, waiting + more, ask, gone + (if seen then {host} else {}), home, renews)
  {
    hide InStep, Asks;
    if on {
      AsksAppend(waiting, more, ask);
      assert Asks(waiting, ask) + [] == Asks(waiting, ask);
      if seen {
        HostGoes(held, shown, after, Asks(waiting, ask), host, gone, home, renews);
      } else {
        assert gone + {} == gone;
      }
    }
  }

  /** At most the row `k` becomes another, and then it will be asked for. */
  lemma TracksChange<K(!new), V>(
      on: bool, held: map<K, V>, shown: map<K, V>, after: map<K, V>, waiting: seq<Query>, more: seq<Query>,
      ask: Query -> seq<Ask<K>>, gone: set<IPv4Number>, home: K -> IPv4Number, renews: bool, k: K)
    requires Tracks(on, held, shown, waiting, ask, gone, home, renews)
    requires shown.Keys == after.Keys && forall j :: j in shown && j != k ==> shown[j] == after[j]
    requires Asks(more, ask) == [Single(k)] || shown == after
    ensures Tracks(on, held, after, waiting + more, ask, gone, home, renews)
  {
    hide InStep, Asks;
    if on {
      AsksAppend(waiting, more, ask);
      if shown == after {
        MoreAsked(held, shown, Asks(waiting, ask), Asks(more, ask), gone, home, renews);
      } else {
        RowChanges(held, shown, after, Asks(waiting, ask), k, gone, home, renews);
      }
    }
  }

  /** What the answer to one select means for a table. */
  ghost predicate Answered<K(!new), V>(
    asked: seq<Ask<K>>, ops: seq<Op<K, V>>, shown: map<K, V>, home: K -> IPv4Number)
  {
    if asked == [] then ops == []
    else
      |asked| == 1 &&
      if asked[0].Whole? then AnswersWhole(ops, shown, asked[0].host, home)
      else ops == SingleAnswer(shown, asked[0].key)
  }

  /** The next select is answered, if it is about this table. */
  lemma TracksSelect<K(!new), V>(
      on: bool, held: map<K, V>, shown: map<K, V>, waiting: seq<Query>, ask: Query -> seq<Ask<K>>, ops: seq<Op<K, V>>,
      gone: set<IPv4Number>, home: K -> IPv4Number, renews: bool)
    requires waiting != [] && Tracks(on, held, shown, waiting, ask, gone, home, renews)
    requires Answered(ask(waiting[0]), ops, shown, home)
    ensures var taken := if on then ops else [];
            && KnownAll(held, taken, renews)
            && Tracks(on, TakenAll(held, taken, renews), shown, waiting[1..], ask, gone, home, renews)
  {
    hide InStep, AnswersWhole;
    if on {
      var asks := Asks(waiting, ask);
      if ask(waiting[0]) == [] {
        assert asks == Asks(waiting[1..], ask);
      } else {
        assert asks[0] == ask(waiting[0])[0] && asks[1..] == Asks(waiting[1..], ask);
        hide KnownAll, TakenAll;
        if asks[0].Whole? {
          WholeAsked(held, shown, asks, ops, gone, home, renews);
        } else {
          SingleAsked(held, shown, asks, gone, home, renews);
        }
      }
    }
  }

  /** The listing of a table subscribed now, or nothing. */
  ghost predicate Begins<K, V>(now: bool, on: bool, ops: seq<Op<K, V>>, shown: map<K, V>, renews: bool) {
    if now then !on && Fills(ops, shown, renews) else ops == []
  }

  lemma TracksSubscribing<K(!new), V>(
      on: bool, held: map<K, V>, shown: map<K, V>, waiting: seq<Query>, ask: Query -> seq<Ask<K>>, ops: seq<Op<K, V>>,
      gone: set<IPv4Number>, home: K -> IPv4Number, renews: bool, now: bool)
    requires Tracks(on, held, shown, waiting, ask, gone, home, renews)
    requires Begins(now, on, ops, shown, renews)
    ensures KnownAll(held, ops, renews)
    ensures Tracks(on || now, TakenAll(held, ops, renews), shown, waiting, ask, gone, home, renews)
  {
    hide Due, Awaited;
  }

  // ----- All tables -----

  /** Of the tables subscribed so far, what is held tracks what is seen; nothing is held of the others. */
  ghost predicate InStepWith(
    v: View, subs: Subscriptions, seen: View, waiting: seq<Query>, gone: set<IPv4Number>, renews: bool)
  {
    && Tracks(subs.nodes, v.nodes, seen.nodes, waiting, NodeAsk, gone, HostItself, renews)
    && Tracks(subs.sources, v.sources, seen.sources, waiting, SourceAsk, gone, HostOfKey, renews)
    && Tracks(subs.destinations, v.destinations, seen.destinations, waiting, DestinationAsk, gone, HostOfKey, renews)
    && Tracks(subs.gpis, v.gpis, seen.gpis, waiting, GpiAsk, gone, HostOfKey, renews)
    && Tracks(subs.gpos, v.gpos, seen.gpos, waiting, GpoAsk, gone, HostOfKey, renews)
  }

  ghost predicate Follows(v: View, s: Server, gone: set<IPv4Number>, renews: bool) {
    InStepWith(v, s.subs, Seen(s.db), Waiting(s), gone, renews)
  }

  lemma AsksAreLocal()
    ensures Local(NodeAsk, HostItself) && Local(SourceAsk, HostOfKey) && Local(DestinationAsk, HostOfKey)
    ensures Local(GpiAsk, HostOfKey) && Local(GpoAsk, HostOfKey)
  {
  }

  lemma HostAsks(host: IPv4Number)
    ensures var qs := HostQueries(host) + HostQueries(host);
            && Asks(qs, NodeAsk) == [Whole(host), Whole(host)]
            && Asks(qs, SourceAsk) == [Whole(host), Whole(host)]
            && Asks(qs, DestinationAsk) == [Whole(host), Whole(host)]
            && Asks(qs, GpiAsk) == [Whole(host), Whole(host)] && Asks(qs, GpoAsk) == [Whole(host), Whole(host)]
  {
    hide Asks;
    AsksTwice(host, NodeAsk, 0);
    AsksTwice(host, SourceAsk, 1);
    AsksTwice(host, DestinationAsk, 2);
    AsksTwice(host, GpiAsk, 3);
    AsksTwice(host, GpoAsk, 4);
  }

  lemma {:induction false} OnlyOneAsks<K>(qs: seq<Query>, ask: Query -> seq<Ask<K>>, n: int, a: Ask<K>)
    requires forall i :: 0 <= i < |qs| ==> ask(qs[i]) == if i == n then [a] else []
    ensures Asks(qs, ask) == if 0 <= n < |qs| then [a] else []
    decreases |qs|
  {
    if qs != [] {
      OnlyOneAsks(qs[1..], ask, n - 1, a);
    }
  }

  lemma AsksTwice<K>(host: IPv4Number, ask: Query -> seq<Ask<K>>, n: int)
    requires 0 <= n < 5
    requires forall i :: 0 <= i < 5 ==> ask(HostQueries(host)[i]) == if i == n then [Whole(host)] else []
    ensures Asks(HostQueries(host) + HostQueries(host), ask) == [Whole(host), Whole(host)]
  {
    AsksAppend(HostQueries(host), HostQueries(host), ask);
    OnlyOneAsks(HostQueries(host), ask, n, Whole(host));
    hide Asks;
  }

  // ----- Every step of the server -----

  lemma SeenComes(db: Database, maps: MapSet, host: IPv4Number, image: MatrixImage)
    requires maps.Valid() && Sound(db, maps) && host !in db.nodes
    ensures var v, w := Seen(db), Seen(WithNode(db, maps, host, image));
            && Comes(v.nodes, w.nodes, host, HostItself) && Comes(v.sources, w.sources, host, HostOfKey)
            && Comes(v.destinations, w.destinations, host, HostOfKey)
            && Comes(v.gpis, w.gpis, host, HostOfKey) && Comes(v.gpos, w.gpos, host, HostOfKey)
  {
    hide Sound, SameElsewhere, RowsSeen, WithNode;
    var after := WithNode(db, maps, host, image);
    OthersStay(db, maps, host, image);
    RowsCome(db.sources, after.sources, db.nodes, after.nodes, host);
    RowsCome(db.destinations, after.destinations, db.nodes, after.nodes, host);
    RowsCome(db.gpis, after.gpis, db.nodes, after.nodes, host);
    RowsCome(db.gpos, after.gpos, db.nodes, after.nodes, host);
  }

  lemma OthersStay(db: Database, maps: MapSet, host: IPv4Number, image: MatrixImage)
    requires maps.Valid() && Sound(db, maps) && host !in db.nodes
    ensures var after := WithNode(db, maps, host, image);
            && after.nodes == db.nodes[host := image.Node()]
            && SameElsewhere(db.sources, after.sources, host)
            && SameElsewhere(db.destinations, after.destinations, host)
            && SameElsewhere(db.gpis, after.gpis, host) && SameElsewhere(db.gpos, after.gpos, host)
  {
    hide Agrees, HostAdded, Sized, Holds, SameElsewhere;
    assert ShapedAt(db, host);
    TableConnected(db.sources, maps, SOURCES, host, image.SourceSlots());
    TableConnected(db.destinations, maps, DESTINATIONS, host, image.DestinationSlots());
    TableConnected(db.gpis, maps, GPIS, host, image.GpiSlots());
    TableConnected(db.gpos, maps, GPOS, host, image.GpoSlots());
  }

  lemma RowsCome<L, D>(
      t: Table<L, D>, u: Table<L, D>, nodes: map<IPv4Number, NodeRow>, after: map<IPv4Number, NodeRow>,
      host: IPv4Number)
    requires SameElsewhere(t, u, host) && host !in nodes && host in after && after == nodes[host := after[host]]
    ensures Comes(RowsSeen(t, nodes), RowsSeen(u, after), host, HostOfKey)
  {
  }

  lemma SeenGoes(db: Database, host: IPv4Number)
    ensures var v, w := Seen(db), Seen(WithoutNode(db, host));
            && Comes(w.nodes, v.nodes, host, HostItself) && Comes(w.sources, v.sources, host, HostOfKey)
            && Comes(w.destinations, v.destinations, host, HostOfKey)
            && Comes(w.gpis, v.gpis, host, HostOfKey) && Comes(w.gpos, v.gpos, host, HostOfKey)
            && (!Lwrp(db.nodes, host) ==> v == w)
  {
    var after := map h | h in db.nodes && h != host :: db.nodes[h];
    RowsGo(db.sources, db.nodes, after, host);
    RowsGo(db.destinations, db.nodes, after, host);
    RowsGo(db.gpis, db.nodes, after, host);
    RowsGo(db.gpos, db.nodes, after, host);
    NodesLoseHost(db.nodes, host);
    hide RowsSeen, HostRemoved;
  }

  lemma RowsGo<L, D>(t: Table<L, D>, nodes: map<IPv4Number, NodeRow>, after: map<IPv4Number, NodeRow>, host: IPv4Number)
    requires after == map h | h in nodes && h != host :: nodes[h]
    ensures Comes(RowsSeen(HostRemoved(t, host), after), RowsSeen(t, nodes), host, HostOfKey)
    ensures !Lwrp(nodes, host) ==> RowsSeen(HostRemoved(t, host), after) == RowsSeen(t, nodes)
  {
    if !Lwrp(nodes, host) {
      assert RowsSeen(HostRemoved(t, host), after) == RowsSeen(t, nodes);
    }
  }

  lemma FollowsComing(
      v: View, subs: Subscriptions, seen: View, after: View, waiting: seq<Query>, gone: set<IPv4Number>, renews: bool,
      host: IPv4Number)
    requires InStepWith(v, subs, seen, waiting, gone, renews) && Quiet(waiting, host)
    requires Comes(seen.nodes, after.nodes, host, HostItself) && Comes(seen.sources, after.sources, host, HostOfKey)
    requires Comes(seen.destinations, after.destinations, host, HostOfKey)
    requires Comes(seen.gpis, after.gpis, host, HostOfKey) && Comes(seen.gpos, after.gpos, host, HostOfKey)
    ensures InStepWith(v, subs, after, waiting + (HostQueries(host) + HostQueries(host)), gone, renews)
  {
    hide Tracks, Comes, Local, Asks, HostQueries, Quiet;
    var more := HostQueries(host) + HostQueries(host);
    AsksAreLocal();
    HostAsks(host);
    TracksComing(subs.nodes, v.nodes, seen.nodes, after.nodes, waiting, more, NodeAsk, gone, HostItself, renews, host);
    TracksComing(subs.sources, v.sources, seen.sources, after.sources, waiting, more, SourceAsk, gone, HostOfKey,
                 renews, host);
    TracksComing(subs.destinations, v.destinations, seen.destinations, after.destinations, waiting, more,
                 DestinationAsk, gone, HostOfKey, renews, host);
    TracksComing(subs.gpis, v.gpis, seen.gpis, after.gpis, waiting, more, GpiAsk, gone, HostOfKey, renews, host);
    TracksComing(subs.gpos, v.gpos, seen.gpos, after.gpos, waiting, more, GpoAsk, gone, HostOfKey, renews, host);
  }

  ghost predicate AsksNothing(more: seq<Query>) {
    Asks(more, NodeAsk) == [] && Asks(more, SourceAsk) == Asks(more, DestinationAsk) == []
    && Asks(more, GpiAsk) == Asks(more, GpoAsk) == []
  }

  lemma FollowsGoing(
      v: View, subs: Subscriptions, seen: View, after: View, waiting: seq<Query>, more: seq<Query>,
      gone: set<IPv4Number>, renews: bool, host: IPv4Number, shown: bool)
    requires InStepWith(v, subs, seen, waiting, gone, renews) && AsksNothing(more)
    requires !shown ==> seen == after || subs == UNSUBSCRIBED
    requires Comes(after.nodes, seen.nodes, host, HostItself) && Comes(after.sources, seen.sources, host, HostOfKey)
    requires Comes(after.destinations, seen.destinations, host, HostOfKey)
    requires Comes(after.gpis, seen.gpis, host, HostOfKey) && Comes(after.gpos, seen.gpos, host, HostOfKey)
    ensures InStepWith(v, subs, after, waiting + more, gone + (if shown then {host} else {}), renews)
  {
    hide Tracks, Comes, Asks;
    TracksGoing(subs.nodes, v.nodes, seen.nodes, after.nodes, waiting, more, NodeAsk, gone, HostItself, renews, host,
                shown);
    TracksGoing(subs.sources, v.sources, seen.sources, after.sources, waiting, more,
                SourceAsk, gone, HostOfKey, renews, host, shown);
    TracksGoing(subs.destinations, v.destinations, seen.destinations, after.destinations, waiting, more,
                DestinationAsk, gone, HostOfKey, renews, host, shown);
    TracksGoing(subs.gpis, v.gpis, seen.gpis, after.gpis, waiting, more, GpiAsk, gone, HostOfKey, renews, host, shown);
    TracksGoing(subs.gpos, v.gpos, seen.gpos, after.gpos, waiting, more, GpoAsk, gone, HostOfKey, renews, host, shown);
  }

  /** At most the row `k` differs, and only in the table of the subject. */
  ghost predicate ChangesRow(v: View, w: View, subject: Subject, k: Key) {
    && v.nodes == w.nodes
    && RowDiffers(v.sources, w.sources, k) && (subject != SourcesSubject ==> v.sources == w.sources)
    && RowDiffers(v.destinations, w.destinations, k)
    && (subject != DestinationsSubject ==> v.destinations == w.destinations)
    && RowDiffers(v.gpis, w.gpis, k) && (subject != GpisSubject ==> v.gpis == w.gpis)
    && RowDiffers(v.gpos, w.gpos, k) && (subject != GposSubject ==> v.gpos == w.gpos)
  }

  ghost predicate RowDiffers<V>(m: map<Key, V>, n: map<Key, V>, k: Key) {
    m.Keys == n.Keys && forall j :: j in m && j != k ==> m[j] == n[j]
  }

  lemma FollowsChange(
      v: View, subs: Subscriptions, seen: View, after: View, waiting: seq<Query>, gone: set<IPv4Number>, renews: bool,
      subject: Subject, k: Key)
    requires InStepWith(v, subs, seen, waiting, gone, renews) && ChangesRow(seen, after, subject, k)
    ensures InStepWith(v, subs, after, waiting + [RowOf(subject, k.host, k.slot)], gone, renews)
  {
    hide Tracks, Asks;
    var more := [RowOf(subject, k.host, k.slot)];
    RowAsks(subject, k);
    TracksChange(subs.nodes, v.nodes, seen.nodes, after.nodes, waiting, more, NodeAsk, gone, HostItself, renews,
                 k.host);
    TracksChange(subs.sources, v.sources, seen.sources, after.sources, waiting, more, SourceAsk, gone, HostOfKey,
                 renews, k);
    TracksChange(subs.destinations, v.destinations, seen.destinations, after.destinations, waiting, more,
                 DestinationAsk, gone, HostOfKey, renews, k);
    TracksChange(subs.gpis, v.gpis, seen.gpis, after.gpis, waiting, more, GpiAsk, gone, HostOfKey, renews, k);
    TracksChange(subs.gpos, v.gpos, seen.gpos, after.gpos, waiting, more, GpoAsk, gone, HostOfKey, renews, k);
  }

  lemma RowAsks(subject: Subject, k: Key)
    ensures var more := [RowOf(subject, k.host, k.slot)];
            && (subject == SourcesSubject ==> Asks(more, SourceAsk) == [Single(k)])
            && (subject == DestinationsSubject ==> Asks(more, DestinationAsk) == [Single(k)])
            && (subject == GpisSubject ==> Asks(more, GpiAsk) == [Single(k)])
            && (subject == GposSubject ==> Asks(more, GpoAsk) == [Single(k)])
  {
    var more := [RowOf(subject, k.host, k.slot)];
    AsksFrom(more, SourceAsk);
    AsksFrom(more, DestinationAsk);
    AsksFrom(more, GpiAsk);
    AsksFrom(more, GpoAsk);
    hide Asks;
  }

  lemma AsksFrom<K>(qs: seq<Query>, ask: Query -> seq<Ask<K>>)
    requires |qs| == 1
    ensures Asks(qs, ask) == ask(qs[0])
  {
    assert Asks(qs[1..], ask) == [];
  }

  function SubjectOf(e: Event): Subject {
    match e
    case SourceChanged(_, _, _, _) => SourcesSubject
    case DestinationChanged(_, _, _, _) => DestinationsSubject
    case GpiChanged(_, _, _) => GpisSubject
    case GpoChanged(_, _, _, _, _) => GposSubject
    case _ => NodesSubject
  }

  lemma RowsDiffer<L, D>(t: Table<L, D>, u: Table<L, D>, nodes: map<IPv4Number, NodeRow>, key: Key)
    requires t.rows.Keys == u.rows.Keys && forall k :: k in t.rows && k != key ==> t.rows[k] == u.rows[k]
    ensures RowDiffers(RowsSeen(t, nodes), RowsSeen(u, nodes), key)
  {
    assert RowsSeen(t, nodes).Keys == RowsSeen(u, nodes).Keys;
  }

  lemma ChangedTable<L, D>(t: Table<L, D>, key: Key, link: L, data: D)
    ensures var u := LinkChanged(DataChanged(t, key, data), key, link);
            t.rows.Keys == u.rows.Keys && forall k :: k in t.rows && k != key ==> t.rows[k] == u.rows[k]
    ensures var u := DataChanged(t, key, data);
            t.rows.Keys == u.rows.Keys && forall k :: k in t.rows && k != key ==> t.rows[k] == u.rows[k]
  {
  }

  lemma SameDiffers(db: Database, key: Key)
    ensures var v := Seen(db);
            && RowDiffers(v.sources, v.sources, key) && RowDiffers(v.destinations, v.destinations, key)
            && RowDiffers(v.gpis, v.gpis, key) && RowDiffers(v.gpos, v.gpos, key)
  {
    hide Seen;
  }

  lemma SeenChanges(db: Database, maps: MapSet, e: Event)
    requires maps.Loaded() && !e.Connected? && !e.Disconnected?
    ensures ChangesRow(Seen(db), Seen(Handled(db, maps, e)), SubjectOf(e), Key(e.host, e.slot))
  {
    hide Lower, LinkChanged, DataChanged, RowsSeen, NodesSeen, RowDiffers;
    var after, key := Handled(db, maps, e), Key(e.host, e.slot);
    SameDiffers(db, key);
    match e {
      case SourceChanged(_, _, hostName, s) =>
        ChangedTable(db.sources, key, Normalized(s.stream), SourceRow(hostName, s));
        RowsDiffer(db.sources, after.sources, db.nodes, key);
      case DestinationChanged(_, _, hostName, d) =>
        ChangedTable(db.destinations, key, Normalized(d.stream), DestinationRow(hostName, d));
        RowsDiffer(db.destinations, after.destinations, db.nodes, key);
      case GpiChanged(_, _, code) =>
        if key in db.gpis.rows {
          ChangedTable(db.gpis, key, (), db.gpis.rows[key].data.(code := Lower(code)));
        }
        RowsDiffer(db.gpis, after.gpis, db.nodes, key);
      case GpoChanged(_, _, code, name, link) =>
        var data := if key in db.gpos.rows then db.gpos.rows[key].data.(code := Lower(code), name := name)
                    else GpoData("", Lower(code), name);
        ChangedTable(db.gpos, key, link, data);
        RowsDiffer(db.gpos, after.gpos, db.nodes, key);
    }
  }

  lemma RemovalAsksNothing(db: Database, host: IPv4Number)
    ensures AsksNothing(EventQueries(db, Disconnected(host)))
  {
    var more := EventQueries(db, Disconnected(host));
    if more != [] {
      AsksFrom(more, NodeAsk);
      AsksFrom(more, SourceAsk);
      AsksFrom(more, DestinationAsk);
      AsksFrom(more, GpiAsk);
      AsksFrom(more, GpoAsk);
      hide Asks;
    }
  }

  /** The tables after an event, with the selects it leads to. */
  lemma EventFollows(v: View, s: Server, maps: MapSet, e: Event, gone: set<IPv4Number>, renews: bool)
    requires maps.Valid() && Sound(s.db, maps) && Follows(v, s, gone, renews) && Possible(s.db, e)
    requires e.Connected? ==> Quiet(Waiting(s), e.host)
    ensures InStepWith(v, s.subs, Seen(Handled(s.db, maps, e)), Waiting(s) + EventQueries(s.db, e),
                       gone + Departing(s, Happens(e)), renews)
  {
    hide Sound, InStepWith, Seen, Waiting, Comes, ChangesRow, Quiet, HostQueries, AsksNothing;
    hide WithNode, WithoutNode, WithSource, WithDestination, WithGpi, WithGpo;
    var seen, after := Seen(s.db), Seen(Handled(s.db, maps, e));
    if e.Connected? {
      SeenComes(s.db, maps, e.host, e.image);
      FollowsComing(v, s.subs, seen, after, Waiting(s), gone, renews, e.host);
      assert gone + {} == gone;
    } else if e.Disconnected? {
      SeenGoes(s.db, e.host);
      RemovalAsksNothing(s.db, e.host);
      FollowsGoing(v, s.subs, seen, after, Waiting(s), EventQueries(s.db, e), gone, renews, e.host,
                   Lwrp(s.db.nodes, e.host) && s.subs != UNSUBSCRIBED);
    } else {
      SeenChanges(s.db, maps, e);
      hide Handled;
      FollowsChange(v, s.subs, seen, after, Waiting(s), gone, renews, SubjectOf(e), Key(e.host, e.slot));
      assert gone + {} == gone;
    }
  }

  // ----- Selects -----

  ghost predicate AnsweredAll(q: Query, b: Batch, seen: View) {
    && Answered(NodeAsk(q), b.nodes, seen.nodes, HostItself)
    && Answered(SourceAsk(q), b.sources, seen.sources, HostOfKey)
    && Answered(DestinationAsk(q), b.destinations, seen.destinations, HostOfKey)
    && Answered(GpiAsk(q), b.gpis, seen.gpis, HostOfKey) && Answered(GpoAsk(q), b.gpos, seen.gpos, HostOfKey)
  }

  /** The next select is not a removal, or its host is not there. */
  lemma ReadAnswers(db: Database, maps: MapSet, q: Query)
    requires Sound(db, maps) && (q.Removal? ==> q.host !in db.nodes)
    ensures AnsweredAll(q, Read(db, q), Seen(db))
  {
    assert ShapedAt(db, q.host);
    hide Seen, HostBatch, RowBatch, AnsweredAll, IndexAgreement, Shaped, StreamsNormal, ShapedAt;
    match q
    case AllOf(subject, host) =>
      if Lwrp(db.nodes, host) {
        HostAnswers(db, subject, host);
      } else {
        NobodySeen(db, host);
        NothingAnswers(db, subject, host);
      }
    case RowOf(subject, h, slot) => RowAnswers(db, subject, Key(h, slot));
    case Removal(h, n) => RemovalAsks(db, h, n);
  }

  lemma RowAnswers(db: Database, subject: Subject, key: Key)
    ensures AnsweredAll(RowOf(subject, key.host, key.slot), RowBatch(db, subject, key), Seen(db))
  {
    hide RowsSeen, NodesSeen, RowChange, SingleAnswer;
    match subject
    case NodesSubject =>
    case SourcesSubject => RowIsAnswered(db.sources, db.nodes, key);
    case DestinationsSubject => RowIsAnswered(db.destinations, db.nodes, key);
    case GpisSubject => RowIsAnswered(db.gpis, db.nodes, key);
    case GposSubject => RowIsAnswered(db.gpos, db.nodes, key);
  }

  lemma RemovalAsks(db: Database, host: IPv4Number, n: Counts)
    ensures AnsweredAll(Removal(host, n), NOTHING, Seen(db))
  {
    hide Seen;
  }

  lemma HostAnswers(db: Database, subject: Subject, host: IPv4Number)
    requires Lwrp(db.nodes, host) && ShapedAt(db, host)
    ensures AnsweredAll(AllOf(subject, host), HostBatch(db, subject, host), Seen(db))
  {
    hide Sized, AnswersWhole, RowsSeen, NodesSeen, HostAdds;
    var n := db.nodes[host];
    match subject
    case NodesSubject => NodeIsAnswered(db.nodes, host);
    case SourcesSubject => HostIsAnswered(db.sources, db.nodes, host, n.sources);
    case DestinationsSubject => HostIsAnswered(db.destinations, db.nodes, host, n.destinations);
    case GpisSubject => HostIsAnswered(db.gpis, db.nodes, host, n.gpis);
    case GposSubject => HostIsAnswered(db.gpos, db.nodes, host, n.gpos);
  }

  lemma NothingAnswers(db: Database, subject: Subject, host: IPv4Number)
    requires var seen := Seen(db);
             && AnswersWhole([], seen.nodes, host, HostItself) && AnswersWhole([], seen.sources, host, HostOfKey)
             && AnswersWhole([], seen.destinations, host, HostOfKey)
             && AnswersWhole([], seen.gpis, host, HostOfKey) && AnswersWhole([], seen.gpos, host, HostOfKey)
    ensures AnsweredAll(AllOf(subject, host), NOTHING, Seen(db))
  {
    hide AnswersWhole, Seen;
  }

  lemma NobodySeen(db: Database, host: IPv4Number)
    requires !Lwrp(db.nodes, host)
    ensures var seen := Seen(db);
            && AnswersWhole([], seen.nodes, host, HostItself) && AnswersWhole([], seen.sources, host, HostOfKey)
            && AnswersWhole([], seen.destinations, host, HostOfKey)
            && AnswersWhole([], seen.gpis, host, HostOfKey) && AnswersWhole([], seen.gpos, host, HostOfKey)
  {
    var seen := Seen(db);
    assert forall k :: k in seen.sources || k in seen.destinations || k in seen.gpis || k in seen.gpos ==>
             HostOfKey(k) != host;
    assert forall h :: h in seen.nodes ==> HostItself(h) != host;
    hide Seen, AnswersWhole;
    NobodyIsAnswered(seen.nodes, host, HostItself);
    NobodyIsAnswered(seen.sources, host, HostOfKey);
    NobodyIsAnswered(seen.destinations, host, HostOfKey);
    NobodyIsAnswered(seen.gpis, host, HostOfKey);
    NobodyIsAnswered(seen.gpos, host, HostOfKey);
  }

  lemma SelectFollows(
      v: View, subs: Subscriptions, db: Database, maps: MapSet, waiting: seq<Query>, gone: set<IPv4Number>,
      renews: bool)
    requires Sound(db, maps) && waiting != [] && (waiting[0].Removal? ==> waiting[0].host !in db.nodes)
    requires InStepWith(v, subs, Seen(db), waiting, gone, renews)
    ensures var b := Subscribed(subs, Read(db, waiting[0]));
            KnownBatch(v, b, renews) && InStepWith(HeldAfter(v, b, renews), subs, Seen(db), waiting[1..], gone, renews)
  {
    hide Sound, Read, Seen, Tracks, Answered, KnownAll, TakenAll;
    ReadAnswers(db, maps, waiting[0]);
    var b, seen := Read(db, waiting[0]), Seen(db);
    TracksSelect(subs.nodes, v.nodes, seen.nodes, waiting, NodeAsk, b.nodes, gone, HostItself, renews);
    TracksSelect(subs.sources, v.sources, seen.sources, waiting, SourceAsk, b.sources, gone, HostOfKey, renews);
    TracksSelect(subs.destinations, v.destinations, seen.destinations, waiting, DestinationAsk, b.destinations,
                 gone, HostOfKey, renews);
    TracksSelect(subs.gpis, v.gpis, seen.gpis, waiting, GpiAsk, b.gpis, gone, HostOfKey, renews);
    TracksSelect(subs.gpos, v.gpos, seen.gpos, waiting, GpoAsk, b.gpos, gone, HostOfKey, renews);
  }

  lemma SubjectAdded(subs: Subscriptions, subject: Subject)
    ensures WithSubject(subs, subject) ==
            Subscriptions(subs.nodes || subject == NodesSubject, subs.sources || subject == SourcesSubject,
                          subs.destinations || subject == DestinationsSubject,
                          subs.gpis || subject == GpisSubject, subs.gpos || subject == GposSubject)
  {
  }

  lemma SubscriptionBegins(subs: Subscriptions, subject: Subject, db: Database, b: Batch, renews: bool)
    requires !Subscribing(subs, subject) && SubscriptionListing(subject, db, b)
    ensures var seen := Seen(db);
            && Begins(subject == NodesSubject, subs.nodes, b.nodes, seen.nodes, renews)
            && Begins(subject == SourcesSubject, subs.sources, b.sources, seen.sources, renews)
            && Begins(subject == DestinationsSubject, subs.destinations, b.destinations, seen.destinations, renews)
            && Begins(subject == GpisSubject, subs.gpis, b.gpis, seen.gpis, renews)
            && Begins(subject == GposSubject, subs.gpos, b.gpos, seen.gpos, renews)
  {
    hide Seen, Fills, SubscriptionListing;
    SubscriptionFills(subject, db, b, renews);
  }

  lemma SubscriptionFollows(
      v: View, subs: Subscriptions, db: Database, waiting: seq<Query>, gone: set<IPv4Number>, renews: bool,
      subject: Subject, b: Batch)
    requires InStepWith(v, subs, Seen(db), waiting, gone, renews)
    requires !Subscribing(subs, subject) && SubscriptionListing(subject, db, b)
    ensures KnownBatch(v, b, renews)
    ensures InStepWith(HeldAfter(v, b, renews), WithSubject(subs, subject), Seen(db), waiting, gone, renews)
  {
    hide Begins, WithSubject, Subscribing, Seen, Tracks, KnownAll, TakenAll, SubscriptionListing;
    SubscriptionBegins(subs, subject, db, b, renews);
    SubjectAdded(subs, subject);
    var seen := Seen(db);
    TracksSubscribing(subs.nodes, v.nodes, seen.nodes, waiting, NodeAsk, b.nodes, gone, HostItself, renews,
                      subject == NodesSubject);
    TracksSubscribing(subs.sources, v.sources, seen.sources, waiting, SourceAsk, b.sources, gone, HostOfKey, renews,
                      subject == SourcesSubject);
    TracksSubscribing(subs.destinations, v.destinations, seen.destinations, waiting, DestinationAsk, b.destinations,
                      gone, HostOfKey, renews, subject == DestinationsSubject);
    TracksSubscribing(subs.gpis, v.gpis, seen.gpis, waiting, GpiAsk, b.gpis, gone, HostOfKey, renews,
                      subject == GpisSubject);
    TracksSubscribing(subs.gpos, v.gpos, seen.gpos, waiting, GpoAsk, b.gpos, gone, HostOfKey, renews,
                      subject == GposSubject);
  }

  lemma NothingTaken(v: View, renews: bool)
    ensures KnownBatch(v, NOTHING, renews) && HeldAfter(v, NOTHING, renews) == v
  {
  }

  /**
   * Every step of the server keeps a client in step, provided that no host comes up while a select about it waits;
   * and nothing unknown to the client is changed or removed.
   */
  lemma StepFollows(v: View, s: Server, maps: MapSet, step: ServerStep, gone: set<IPv4Number>, renews: bool)
    requires maps.Valid() && Sound(s.db, maps) && Timely(s) && Follows(v, s, gone, renews)
    requires Enabled(s, step) && ComingEarly(s, step) == {}
    ensures KnownBatch(v, Records(s, step), renews)
    ensures Follows(HeldAfter(v, Records(s, step), renews), Next(s, maps, step), gone + Departing(s, step), renews)
  {
    hide Sound, InStepWith, Seen, Handled, Waiting, KnownBatch, Quiet, HeldAfter, EventQueries, Notices, QueriesAll;
    hide NoneThere, SubscriptionListing, WithSubject, Subscribing, Subscribed, Read, Lwrp;
    WaitingAfter(s, maps, step);
    NothingTaken(v, renews);
    assert gone + {} == gone;
    match step
    case Happens(e) =>
      NoticesAsk(s.db, e);
      EventFollows(v, s, maps, e, gone, renews);
    case Selects =>
      var t := Next(s, maps, step);
      assert Waiting(s)[0] == s.current[0] && Waiting(s)[1..] == Waiting(t);
      RestStaysTimely(s.current[0], Waiting(t), s.db.nodes);
      SelectFollows(v, s.subs, s.db, maps, Waiting(s), gone, renews);
    case Subscribes(subject, b) => SubscriptionFollows(v, s.subs, s.db, Waiting(s), gone, renews, subject, b);
    case _ =>
  }

  lemma EventRemovals(db: Database, e: Event)
    ensures forall i :: 0 <= i < |EventQueries(db, e)| && EventQueries(db, e)[i].Removal? ==>
              EventQueries(db, e)[i].host == e.host && e.Disconnected?
  {
  }

  lemma EventStaysTimely(waiting: seq<Query>, db: Database, maps: MapSet, e: Event)
    requires maps.Loaded() && NoneThere(waiting, db.nodes) && (e.Connected? ==> Quiet(waiting, e.host))
    ensures NoneThere(waiting + EventQueries(db, e), Handled(db, maps, e).nodes)
  {
    hide Handled, EventQueries;
    NodesAfter(db, maps, e);
    EventRemovals(db, e);
    var nodes, more := Handled(db, maps, e).nodes, EventQueries(db, e);
    forall i | 0 <= i < |waiting + more| && (waiting + more)[i].Removal?
      ensures (waiting + more)[i].host !in nodes
    {
      if i < |waiting| {
        assert waiting[i].host !in db.nodes;
      } else {
        assert (waiting + more)[i] == more[i - |waiting|];
      }
    }
  }

  lemma RestStaysTimely(q: Query, waiting: seq<Query>, nodes: map<IPv4Number, NodeRow>)
    requires NoneThere([q] + waiting, nodes)
    ensures NoneThere(waiting, nodes) && (q.Removal? ==> q.host !in nodes)
  {
    assert forall i :: 0 <= i < |waiting| ==> waiting[i] == ([q] + waiting)[i + 1];
    assert ([q] + waiting)[0] == q;
  }

  /** While no host comes up early, removals stay late: none is written, and nodes are only added. */
  lemma StepStaysTimely(s: Server, maps: MapSet, step: ServerStep)
    requires maps.Loaded() && Timely(s) && Enabled(s, step) && ComingEarly(s, step) == {}
    ensures Timely(Next(s, maps, step)) && OnlyGrows(Records(s, step))
  {
    assert OnlyGrows(NOTHING);
    hide OnlyGrows, NoneThere, Waiting, Handled, Notices, QueriesAll, EventQueries, Read, Subscribed;
    hide SubscriptionListing, Quiet;
    WaitingAfter(s, maps, step);
    match step
    case Happens(e) =>
      NoticesAsk(s.db, e);
      EventStaysTimely(Waiting(s), s.db, maps, e);
    case Selects =>
      RestStaysTimely(s.current[0], Waiting(Next(s, maps, step)), s.db.nodes);
      ReadGrows(s.subs, s.db, s.current[0]);
    case Subscribes(subject, b) => ListingGrows(subject, s.db, b);
    case _ =>
  }

  lemma NodesAfter(db: Database, maps: MapSet, e: Event)
    requires maps.Loaded()
    ensures Handled(db, maps, e).nodes.Keys ==
            if e.Connected? then db.nodes.Keys + {e.host}
            else if e.Disconnected? then db.nodes.Keys - {e.host}
            else db.nodes.Keys
  {
    hide HostAdded, HostRemoved, LinkChanged, DataChanged;
  }

  lemma ReadGrows(subs: Subscriptions, db: Database, q: Query)
    requires q.Removal? ==> q.host !in db.nodes
    ensures OnlyGrows(Subscribed(subs, Read(db, q)))
  {
    if q.AllOf? && Lwrp(db.nodes, q.host) {
      var n := db.nodes[q.host];
      HostAddsGrow(db.sources, q.host, n.sources);
      HostAddsGrow(db.destinations, q.host, n.destinations);
      HostAddsGrow(db.gpis, q.host, n.gpis);
      HostAddsGrow(db.gpos, q.host, n.gpos);
      hide HostAdds;
    }
  }

  lemma {:induction false} HostAddsGrow<L, D>(t: Table<L, D>, host: IPv4Number, n: nat)
    ensures NoRemovals(HostAdds(t, host, n))
  {
    if n > 0 {
      HostAddsGrow(t, host, n - 1);
    }
  }

  lemma ListingGrows(subject: Subject, db: Database, b: Batch)
    requires SubscriptionListing(subject, db, b)
    ensures OnlyGrows(b)
  {
    hide NodesSeen, RowsSeen;
  }

  // ----- Whole runs -----

  /** What a client holds that takes all that is written in a run. */
  function HeldThrough(v: View, s: Server, maps: MapSet, steps: seq<ServerStep>, renews: bool): View
    requires maps.Loaded()
    decreases |steps|
  {
    if steps == [] then v
    else HeldThrough(HeldAfter(v, Records(s, steps[0]), renews), Next(s, maps, steps[0]), maps, steps[1..], renews)
  }

  lemma {:induction false} RunFollows(
      v: View, s: Server, maps: MapSet, steps: seq<ServerStep>, gone: set<IPv4Number>, renews: bool)
    requires maps.Valid() && Sound(s.db, maps) && Timely(s) && Follows(v, s, gone, renews)
    requires IsServerRun(s, maps, steps) && EarlyReturns(s, maps, steps) == {}
    ensures Follows(HeldThrough(v, s, maps, steps, renews), ServerAfter(s, maps, steps),
                    gone + Departed(s, maps, steps), renews)
    decreases |steps|
  {
    hide Sound, Timely, Follows, Enabled, Records, Next, ComingEarly, Departing, HeldAfter;
    if steps == [] {
      assert gone + {} == gone;
    } else {
      StepKeepsSound(s, maps, steps[0]);
      StepStaysTimely(s, maps, steps[0]);
      StepFollows(v, s, maps, steps[0], gone, renews);
      var next, more := Next(s, maps, steps[0]), Departing(s, steps[0]);
      RunFollows(HeldAfter(v, Records(s, steps[0]), renews), next, maps, steps[1..], gone + more, renews);
      assert gone + more + Departed(next, maps, steps[1..]) == gone + (more + Departed(next, maps, steps[1..]));
    }
  }

  ghost predicate AllStillThere(v: View, w: View) {
    && v.nodes.Keys <= w.nodes.Keys && v.sources.Keys <= w.sources.Keys && v.destinations.Keys <= w.destinations.Keys
    && v.gpis.Keys <= w.gpis.Keys && v.gpos.Keys <= w.gpos.Keys
  }

  lemma GrownHoldsAll(v: View, b: Batch, renews: bool)
    requires OnlyGrows(b)
    ensures AllStillThere(v, HeldAfter(v, b, renews))
  {
    TakeGrows(v.nodes, b.nodes, renews);
    TakeGrows(v.sources, b.sources, renews);
    TakeGrows(v.destinations, b.destinations, renews);
    TakeGrows(v.gpis, b.gpis, renews);
    TakeGrows(v.gpos, b.gpos, renews);
    hide TakenAll;
  }

  /** As long as no host comes up early, a client never loses an entry, whatever goes down. */
  lemma {:induction false} NothingIsForgotten(v: View, s: Server, maps: MapSet, steps: seq<ServerStep>, renews: bool)
    requires maps.Valid() && Timely(s) && IsServerRun(s, maps, steps) && EarlyReturns(s, maps, steps) == {}
    ensures AllStillThere(v, HeldThrough(v, s, maps, steps, renews))
    decreases |steps|
  {
    hide Timely, Enabled, Records, Next, ComingEarly, HeldAfter, OnlyGrows;
    if steps != [] {
      StepStaysTimely(s, maps, steps[0]);
      GrownHoldsAll(v, Records(s, steps[0]), renews);
      NothingIsForgotten(HeldAfter(v, Records(s, steps[0]), renews), Next(s, maps, steps[0]), maps, steps[1..], renews);
    }
  }

  /** The hosts that have left entries behind, table by table. */
  datatype Leavers = Leavers(
    nodes: set<IPv4Number>, sources: set<IPv4Number>, destinations: set<IPv4Number>, gpis: set<IPv4Number>,
    gpos: set<IPv4Number>)

  const NOBODY := Everywhere({})

  function Everywhere(gone: set<IPv4Number>): Leavers {
    Leavers(gone, gone, gone, gone, gone)
  }

  /** What is held of the tables subscribed is accurate, up to hosts that departed. */
  ghost predicate Portrays(v: View, seen: View, gone: Leavers, renews: bool) {
    && Accurate(v.nodes, seen.nodes, gone.nodes, HostItself, renews)
    && Accurate(v.sources, seen.sources, gone.sources, HostOfKey, renews)
    && Accurate(v.destinations, seen.destinations, gone.destinations, HostOfKey, renews)
    && Accurate(v.gpis, seen.gpis, gone.gpis, HostOfKey, renews)
    && Accurate(v.gpos, seen.gpos, gone.gpos, HostOfKey, renews)
  }

  lemma TracksAtRest<K(!new), V>(
      on: bool, held: map<K, V>, shown: map<K, V>, ask: Query -> seq<Ask<K>>, gone: set<IPv4Number>,
      home: K -> IPv4Number, renews: bool)
    requires Tracks(on, held, shown, [], ask, gone, home, renews)
    ensures Accurate(held, if on then shown else map[], gone, home, renews)
    ensures gone == {} ==> held == if on then shown else map[]
  {
    var seen := if on then shown else map[];
    AtRest(held, seen, gone, home, renews);
    if !on {
      AtRest(held, seen, {}, home, renews);
    }
    hide InStep;
  }

  /** With nothing left to ask, a client in step is accurate; if nobody departed, it equals the tables. */
  lemma RestIsAccurate(v: View, s: Server, gone: set<IPv4Number>, renews: bool)
    requires Follows(v, s, gone, renews) && Waiting(s) == []
    ensures Portrays(v, SeenBy(s.subs, s.db), Everywhere(gone), renews)
    ensures gone == {} ==> v == SeenBy(s.subs, s.db)
  {
    var seen := Seen(s.db);
    hide Waiting, Seen, Tracks, Accurate;
    TracksAtRest(s.subs.nodes, v.nodes, seen.nodes, NodeAsk, gone, HostItself, renews);
    TracksAtRest(s.subs.sources, v.sources, seen.sources, SourceAsk, gone, HostOfKey, renews);
    TracksAtRest(s.subs.destinations, v.destinations, seen.destinations, DestinationAsk, gone, HostOfKey, renews);
    TracksAtRest(s.subs.gpis, v.gpis, seen.gpis, GpiAsk, gone, HostOfKey, renews);
    TracksAtRest(s.subs.gpos, v.gpos, seen.gpos, GpoAsk, gone, HostOfKey, renews);
  }

  lemma FreshFollows(db: Database, renews: bool)
    ensures Follows(NO_VIEW, Connecting(db), {}, renews) && Timely(Connecting(db))
  {
    hide InStep;
  }

  predicate Handles(step: ServerStep) {
    step.Takes? || step.Selects?
  }

  /** The handler can always catch up by itself. */
  lemma {:induction false} CatchesUp(s: Server, maps: MapSet) returns (steps: seq<ServerStep>)
    requires maps.Loaded()
    ensures IsServerRun(s, maps, steps) && forall i :: 0 <= i < |steps| ==> Handles(steps[i])
    ensures ServerAfter(s, maps, steps) == s.(current := [], pending := [])
    ensures Departed(s, maps, steps) == {} && EarlyReturns(s, maps, steps) == {}
    decreases |s.pending|, |s.current|
  {
    hide Queries;
    if s.current != [] {
      steps := CatchesUp(Next(s, maps, Selects), maps);
      steps := [Selects] + steps;
    } else if s.pending != [] {
      steps := CatchesUp(Next(s, maps, Takes), maps);
      steps := [Takes] + steps;
    } else {
      steps := [];
    }
  }
}
