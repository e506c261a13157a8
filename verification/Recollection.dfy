/** Where the entries of a client come from: each of them is a row as it was shown at some point of the run. */
module Recollection {
  import opened Addresses
  import opened RoutingTables
  import opened RoutingDatabase
  import opened Replication
  import opened ProtocolD
  import opened ServerRuns
  import opened Following

  // ----- One table -----

  /** Whatever is added or changed is told as it is in the table. */
  ghost predicate ReadFrom<K, V>(ops: seq<Op<K, V>>, shown: map<K, V>) {
    forall i :: 0 <= i < |ops| && !ops[i].Remove? ==> ops[i].key in shown && ops[i].value == shown[ops[i].key]
  }

  /** What is held afterwards was held before or is in the table. */
  lemma {:induction false} OldOrRead<K, V>(m: map<K, V>, ops: seq<Op<K, V>>, shown: map<K, V>, renews: bool)
    requires ReadFrom(ops, shown)
    ensures var taken := TakenAll(m, ops, renews);
            forall k :: k in taken ==> (k in m && m[k] == taken[k]) || (k in shown && shown[k] == taken[k])
    decreases |ops|
  {
    if ops != [] {
      OldOrRead(Taken(m, ops[0], renews), ops[1..], shown, renews);
    }
  }

  /** Every entry is a row that one of the views shows. */
  ghost predicate Recalls<K, V>(held: map<K, V>, past: seq<View>, table: View -> map<K, V>) {
    forall k :: k in held ==> exists i :: 0 <= i < |past| && k in table(past[i]) && table(past[i])[k] == held[k]
  }

  lemma TakenRecalls<K, V>(
      held: map<K, V>, past: seq<View>, now: View, table: View -> map<K, V>, ops: seq<Op<K, V>>, renews: bool)
    requires Recalls(held, past, table) && ReadFrom(ops, table(now))
    ensures Recalls(TakenAll(held, ops, renews), past + [now], table)
  {
    OldOrRead(held, ops, table(now), renews);
    var taken, views := TakenAll(held, ops, renews), past + [now];
    hide TakenAll, ReadFrom;
    forall k | k in taken
      ensures exists i :: 0 <= i < |views| && k in table(views[i]) && table(views[i])[k] == taken[k]
    {
      if k in held && held[k] == taken[k] {
        var i :| 0 <= i < |past| && k in table(past[i]) && table(past[i])[k] == held[k];
        assert views[i] == past[i];
      } else {
        assert views[|past|] == now;
      }
    }
  }

  // ----- All tables -----

  function NodeTable(v: View): map<IPv4Number, NodeInfo> {
    v.nodes
  }

  function SourceTable(v: View): map<Key, SourceColumns> {
    v.sources
  }

  function DestinationTable(v: View): map<Key, DestinationColumns> {
    v.destinations
  }

  function GpiTable(v: View): map<Key, GpiColumns> {
    v.gpis
  }

  function GpoTable(v: View): map<Key, GpoColumns> {
    v.gpos
  }

  ghost predicate RecallsRows(v: View, past: seq<View>) {
    && Recalls(v.nodes, past, NodeTable) && Recalls(v.sources, past, SourceTable)
    && Recalls(v.destinations, past, DestinationTable)
    && Recalls(v.gpis, past, GpiTable) && Recalls(v.gpos, past, GpoTable)
  }

  ghost predicate BatchReadFrom(b: Batch, seen: View) {
    && ReadFrom(b.nodes, seen.nodes) && ReadFrom(b.sources, seen.sources)
    && ReadFrom(b.destinations, seen.destinations) && ReadFrom(b.gpis, seen.gpis) && ReadFrom(b.gpos, seen.gpos)
  }

  lemma BatchRecalls(v: View, past: seq<View>, seen: View, b: Batch, renews: bool)
    requires RecallsRows(v, past) && BatchReadFrom(b, seen)
    ensures RecallsRows(HeldAfter(v, b, renews), past + [seen])
  {
    hide Recalls, ReadFrom, TakenAll;
    TakenRecalls(v.nodes, past, seen, NodeTable, b.nodes, renews);
    TakenRecalls(v.sources, past, seen, SourceTable, b.sources, renews);
    TakenRecalls(v.destinations, past, seen, DestinationTable, b.destinations, renews);
    TakenRecalls(v.gpis, past, seen, GpiTable, b.gpis, renews);
    TakenRecalls(v.gpos, past, seen, GpoTable, b.gpos, renews);
  }

  // ----- Every step of the server -----

  lemma RowRead<L, D>(t: Table<L, D>, nodes: map<IPv4Number, NodeRow>, key: Key)
    ensures ReadFrom(RowChange(t, nodes, key), RowsSeen(t, nodes))
  {
  }

  lemma HostRead<L, D>(t: Table<L, D>, nodes: map<IPv4Number, NodeRow>, host: IPv4Number, n: nat)
    requires Lwrp(nodes, host) && Sized(t, host, n)
    ensures ReadFrom(HostAdds(t, host, n), RowsSeen(t, nodes))
  {
    HostAddsAre(t, nodes, host, n);
  }

  lemma HostsRead(db: Database, subject: Subject, host: IPv4Number)
    requires Lwrp(db.nodes, host) && ShapedAt(db, host)
    ensures BatchReadFrom(HostBatch(db, subject, host), Seen(db))
  {
    hide Sized, RowsSeen, HostAdds;
    var n := db.nodes[host];
    match subject
    case NodesSubject =>
    case SourcesSubject => HostRead(db.sources, db.nodes, host, n.sources);
    case DestinationsSubject => HostRead(db.destinations, db.nodes, host, n.destinations);
    case GpisSubject => HostRead(db.gpis, db.nodes, host, n.gpis);
    case GposSubject => HostRead(db.gpos, db.nodes, host, n.gpos);
  }

  lemma RowsRead(db: Database, subject: Subject, key: Key)
    ensures BatchReadFrom(RowBatch(db, subject, key), Seen(db))
  {
    hide RowsSeen, NodesSeen, RowChange;
    match subject
    case NodesSubject =>
    case SourcesSubject => RowRead(db.sources, db.nodes, key);
    case DestinationsSubject => RowRead(db.destinations, db.nodes, key);
    case GpisSubject => RowRead(db.gpis, db.nodes, key);
    case GposSubject => RowRead(db.gpos, db.nodes, key);
  }

  lemma RemovalsRead(seen: View, host: IPv4Number, n: Counts)
    ensures BatchReadFrom(RemovalBatch(host, n), seen)
  {
    HostRemovesAre<SourceColumns>(host, n.sources);
    HostRemovesAre<DestinationColumns>(host, n.destinations);
    HostRemovesAre<GpiColumns>(host, n.gpis);
    HostRemovesAre<GpoColumns>(host, n.gpos);
    hide HostRemoves;
  }

  lemma NothingRead(seen: View)
    ensures BatchReadFrom(NOTHING, seen)
  {
  }

  lemma SelectRead(subs: Subscriptions, db: Database, maps: MapSet, q: Query)
    requires Sound(db, maps)
    ensures BatchReadFrom(Subscribed(subs, Read(db, q)), Seen(db))
  {
    assert ShapedAt(db, q.host);
    hide Sound, Seen, HostBatch, RowBatch, RemovalBatch, ShapedAt, ReadFrom;
    NothingRead(Seen(db));
    match q {
      case AllOf(subject, host) =>
        if Lwrp(db.nodes, host) {
          HostsRead(db, subject, host);
        }
      case RowOf(subject, h, slot) => RowsRead(db, subject, Key(h, slot));
      case Removal(h, n) => RemovalsRead(Seen(db), h, n);
    }
  }

  lemma ListingRead(subject: Subject, db: Database, b: Batch)
    requires SubscriptionListing(subject, db, b)
    ensures BatchReadFrom(b, Seen(db))
  {
    hide NodesSeen, RowsSeen;
  }

  lemma RecordsRead(s: Server, maps: MapSet, step: ServerStep)
    requires Sound(s.db, maps) && Enabled(s, step)
    ensures BatchReadFrom(Records(s, step), Seen(s.db))
  {
    hide Sound, Seen, Subscribed, Read, BatchReadFrom, SubscriptionListing, Possible;
    NothingRead(Seen(s.db));
    match step
    case Selects => SelectRead(s.subs, s.db, maps, s.current[0]);
    case Subscribes(subject, b) => ListingRead(subject, s.db, b);
    case _ =>
  }

  // ----- Whole runs -----

  /** What the tables show before each step of a run and after the last. */
  function Shown(s: Server, maps: MapSet, steps: seq<ServerStep>): seq<View>
    requires maps.Loaded()
    decreases |steps|
  {
    [Seen(s.db)] + if steps == [] then [] else Shown(Next(s, maps, steps[0]), maps, steps[1..])
  }

  lemma {:induction false} ShownAfter(s: Server, maps: MapSet, steps: seq<ServerStep>, n: nat)
    requires maps.Loaded() && n <= |steps|
    ensures |Shown(s, maps, steps)| == |steps| + 1
    ensures Shown(s, maps, steps)[n] == Seen(ServerAfter(s, maps, steps[..n]).db)
    decreases |steps|
  {
    hide Seen, Next;
    if steps != [] {
      ShownAfter(Next(s, maps, steps[0]), maps, steps[1..], if n == 0 then 0 else n - 1);
      if n > 0 {
        assert steps[..n][0] == steps[0] && steps[..n][1..] == steps[1..][..n - 1];
      }
    }
  }

  lemma MoreRecalls(v: View, past: seq<View>, more: seq<View>)
    requires RecallsRows(v, past)
    ensures RecallsRows(v, past + more)
  {
    assert forall i :: 0 <= i < |past| ==> past[i] == (past + more)[i];
  }

  lemma {:induction false} RunRecalls(
      v: View, past: seq<View>, s: Server, maps: MapSet, steps: seq<ServerStep>, renews: bool)
    requires maps.Valid() && Sound(s.db, maps) && IsServerRun(s, maps, steps) && RecallsRows(v, past)
    ensures RecallsRows(HeldThrough(v, s, maps, steps, renews), past + Shown(s, maps, steps))
    decreases |steps|
  {
    hide Sound, Seen, Enabled, Records, Next, HeldAfter, RecallsRows, BatchReadFrom;
    if steps == [] {
      MoreRecalls(v, past, Shown(s, maps, steps));
    } else {
      var next := Next(s, maps, steps[0]);
      StepKeepsSound(s, maps, steps[0]);
      RecordsRead(s, maps, steps[0]);
      BatchRecalls(v, past, Seen(s.db), Records(s, steps[0]), renews);
      RunRecalls(HeldAfter(v, Records(s, steps[0]), renews), past + [Seen(s.db)], next, maps, steps[1..], renews);
      assert past + [Seen(s.db)] + Shown(next, maps, steps[1..]) == past + Shown(s, maps, steps);
    }
  }

  /** A client of either kind holds nothing but rows that the tables showed at some point of the run, late or early. */
  lemma EntriesWereRows(db: Database, maps: MapSet, steps: seq<ServerStep>, renews: bool)
    requires maps.Valid() && Sound(db, maps) && IsServerRun(Connecting(db), maps, steps)
    ensures RecallsRows(HeldThrough(NO_VIEW, Connecting(db), maps, steps, renews), Shown(Connecting(db), maps, steps))
  {
    hide Sound, IsServerRun, HeldThrough, Shown;
    RunRecalls(NO_VIEW, [], Connecting(db), maps, steps, renews);
    assert [] + Shown(Connecting(db), maps, steps) == Shown(Connecting(db), maps, steps);
  }
}
