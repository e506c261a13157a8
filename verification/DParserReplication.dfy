/** The C++ client's replica and the server's tables, after any run and through the actual text. */
module DParserReplication {
  import opened Addresses
  import opened Text
  import opened Lines
  import opened RoutingTables
  import opened RoutingDatabase
  import opened Replication
  import opened ProtocolD
  import opened ProtocolDText
  import opened ServerRuns
  import opened Deliverability
  import opened Following
  import opened Recollection
  import opened TableByTable
  import opened DParserClient

  // ----- The replica is an image of what is held -----

  /** Three tables are copied exactly: an entry for each row and nothing else, not even a null entry. */
  ghost predicate Copies(r: Replica, v: View) {
    && Mirrors(r.nodes, v.nodes, HostOf, Same)
    && Mirrors(r.sources, v.sources, IndexOf, SourceOf)
    && Mirrors(r.destinations, v.destinations, IndexOf, DestinationOf)
  }

  ghost predicate KeysFit(v: View) {
    (forall k :: k in v.sources ==> GoodKey(k)) && forall k :: k in v.destinations ==> GoodKey(k)
  }

  lemma IndexesAreCodes()
    ensures Coded(IndexOf, GoodKey) && Coded(HostOf, AnyHost)
  {
    forall j, k | GoodKey(j) && GoodKey(k) && IndexOf(j) == IndexOf(k)
      ensures j == k
    {
      IndexReadsBack(j.host, j.slot);
      IndexReadsBack(k.host, k.slot);
    }
  }

  lemma OpsHaveGoodKeys<K, V>(ops: seq<Op<K, V>>, goodKey: K -> bool, good: V -> bool)
    requires OpsFit(ops, goodKey, good)
    ensures GoodKeys(ops, goodKey)
  {
  }

  lemma WrittenCopies(r: Replica, v: View, b: Batch)
    requires Copies(r, v) && KeysFit(v) && KnownBatch(v, b, false) && BatchFits(b) && OnlyGrows(b)
    ensures Copies(ReplayedAll(r, Written(b)), HeldAfter(v, b, false)) && KeysFit(HeldAfter(v, b, false))
  {
    IndexesAreCodes();
    assert NoChanges(b.nodes);
    OpsHaveGoodKeys(b.nodes, AnyHost, NodeSendable);
    OpsHaveGoodKeys(b.sources, GoodKey, SourceSendable);
    OpsHaveGoodKeys(b.destinations, GoodKey, DestinationSendable);
    hide Mirrors, Coded, KnownAll, TakenAll, EntriesAfter, ReplayedAll, Written, GoodKeys, NoChanges, OpsFit;
    WrittenReplay(r, b);
    MirrorReplay(r.nodes, v.nodes, b.nodes, HostOf, Same, AnyHost);
    MirrorReplay(r.sources, v.sources, b.sources, IndexOf, SourceOf, GoodKey);
    MirrorReplay(r.destinations, v.destinations, b.destinations, IndexOf, DestinationOf, GoodKey);
  }

  lemma ClosingIgnored(r: Replica, step: ServerStep)
    ensures ReplayedAll(r, Closing(step)) == r
  {
  }

  lemma StepCopies(r: Replica, v: View, s: Server, maps: MapSet, step: ServerStep, gone: set<IPv4Number>)
    requires maps.Valid() && ServerFits(s, maps) && Timely(s) && Follows(v, s, gone, false)
    requires Enabled(s, step) && ComingEarly(s, step) == {} && Copies(r, v) && KeysFit(v)
    ensures Copies(ReplayedAll(r, Response(s, step)), HeldAfter(v, Records(s, step), false))
    ensures KeysFit(HeldAfter(v, Records(s, step), false))
  {
    hide Timely, Follows, Enabled, ComingEarly, Copies, KeysFit, Records, HeldAfter, ReplayedAll, Closing, Written;
    hide Sound, DatabaseFits, QueriesFit, BatchFits, KnownBatch, OnlyGrows;
    StepFollows(v, s, maps, step, gone, false);
    StepStaysTimely(s, maps, step);
    RecordsFit(s, maps, step);
    WrittenCopies(r, v, Records(s, step));
    ReplayedAppend(r, Written(Records(s, step)), Closing(step));
    ClosingIgnored(ReplayedAll(r, Written(Records(s, step))), step);
  }

  /**
   * As long as no host comes up while a select about it waits, the replica is an image of what a client should hold.
   */
  lemma {:induction false} RunCopies(
      r: Replica, v: View, s: Server, maps: MapSet, steps: seq<ServerStep>, gone: set<IPv4Number>)
    requires maps.Valid() && ServerFits(s, maps) && Timely(s) && Follows(v, s, gone, false)
    requires IsServerRun(s, maps, steps) && EarlyReturns(s, maps, steps) == {} && Copies(r, v) && KeysFit(v)
    requires forall i :: 0 <= i < |steps| ==> StepFits(steps[i])
    ensures Copies(ReplayedAll(r, Transcript(s, maps, steps)), HeldThrough(v, s, maps, steps, false))
    ensures KeysFit(HeldThrough(v, s, maps, steps, false))
    decreases |steps|
  {
    hide ServerFits, Timely, Follows, Copies, KeysFit, Enabled, StepFits, Response, Records, Next, Replayed, HeldAfter;
    hide ComingEarly, Departing;
    if steps != [] {
      var next := Next(s, maps, steps[0]);
      FitsIsSound(s, maps);
      StepCopies(r, v, s, maps, steps[0], gone);
      StepFollows(v, s, maps, steps[0], gone, false);
      StepStaysTimely(s, maps, steps[0]);
      StepKeepsFit(s, maps, steps[0]);
      ReplayedAppend(r, Response(s, steps[0]), Transcript(next, maps, steps[1..]));
      RunCopies(ReplayedAll(r, Response(s, steps[0])), HeldAfter(v, Records(s, steps[0]), false), next, maps,
                steps[1..], gone + Departing(s, steps[0]));
    }
  }

  lemma FitsIsSound(s: Server, maps: MapSet)
    requires ServerFits(s, maps)
    ensures Sound(s.db, maps)
  {
  }

  // ----- What the replica then shows -----

  /**
   * Every row has an entry, right unless its host departed; every entry is there in earnest, under the index of a
   * good key, and one without a row belongs to a host that departed.
   */
  ghost predicate Pictures<K(!new), V, W>(
    m: map<nat, Option<W>>, shown: map<K, V>, gone: set<IPv4Number>, home: K -> IPv4Number, index: K -> nat,
    good: K -> bool, entry: V -> W)
  {
    && (forall k :: k in shown ==> index(k) in m && (m[index(k)] == Some(entry(shown[k])) || home(k) in gone))
    && (forall i :: i in m ==> m[i].Some? && exists k :: good(k) && index(k) == i && (k in shown || home(k) in gone))
  }

  lemma MirrorPictures<K(!new), V, W>(
      m: map<nat, Option<W>>, held: map<K, V>, shown: map<K, V>, gone: set<IPv4Number>, home: K -> IPv4Number,
      index: K -> nat, good: K -> bool, entry: V -> W)
    requires Mirrors(m, held, index, entry) && Accurate(held, shown, gone, home, false)
    requires forall k :: k in held ==> good(k)
    ensures Pictures(m, shown, gone, home, index, good, entry)
  {
    forall i | i in m
      ensures m[i].Some? && exists k :: good(k) && index(k) == i && (k in shown || home(k) in gone)
    {
      var k :| k in held && index(k) == i;
    }
  }

  ghost predicate ReplicaPictures(r: Replica, seen: View, gone: Leavers) {
    && Pictures(r.nodes, seen.nodes, gone.nodes, HostItself, HostOf, AnyHost, Same)
    && Pictures(r.sources, seen.sources, gone.sources, HostOfKey, IndexOf, GoodKey, SourceOf)
    && Pictures(r.destinations, seen.destinations, gone.destinations, HostOfKey, IndexOf, GoodKey, DestinationOf)
  }

  lemma CopyPictures(r: Replica, v: View, seen: View, gone: Leavers)
    requires Copies(r, v) && KeysFit(v) && Portrays(v, seen, gone, false)
    ensures ReplicaPictures(r, seen, gone)
  {
    hide Mirrors, Accurate, Pictures;
    MirrorPictures(r.nodes, v.nodes, seen.nodes, gone.nodes, HostItself, HostOf, AnyHost, Same);
    MirrorPictures(r.sources, v.sources, seen.sources, gone.sources, HostOfKey, IndexOf, GoodKey, SourceOf);
    MirrorPictures(r.destinations, v.destinations, seen.destinations, gone.destinations, HostOfKey, IndexOf, GoodKey,
                   DestinationOf);
  }

  lemma NothingCopied()
    ensures Copies(EMPTY_REPLICA, NO_VIEW) && KeysFit(NO_VIEW)
  {
  }

  lemma ConnectingFits(db: Database, maps: MapSet)
    requires Sound(db, maps) && DatabaseFits(db)
    ensures ServerFits(Connecting(db), maps)
  {
    hide Sound, DatabaseFits;
  }

  /**
   * A fresh client connected to a server in any state, after any run in which no host came up while a select about
   * it waited: with nothing left to ask, the replica has a right entry for every row of the tables subscribed, no
   * null entry, and nothing else, except what hosts have left in it that departed after the table was subscribed. If
   * none did, it equals the tables.
   */
  lemma ReplicaPicturesTables(db: Database, maps: MapSet, steps: seq<ServerStep>)
    requires maps.Valid() && Sound(db, maps) && DatabaseFits(db) && IsServerRun(Connecting(db), maps, steps)
    requires (forall i :: 0 <= i < |steps| ==> StepFits(steps[i])) && EarlyReturns(Connecting(db), maps, steps) == {}
    ensures var t, gone := ServerAfter(Connecting(db), maps, steps), Left(Connecting(db), maps, steps);
            var r := ReplayedAll(EMPTY_REPLICA, Transcript(Connecting(db), maps, steps));
            Waiting(t) == [] ==>
              && ReplicaPictures(r, SeenBy(t.subs, t.db), gone)
              && (gone == NOBODY ==> Copies(r, SeenBy(t.subs, t.db)))
  {
    hide Sound, DatabaseFits, Copies, KeysFit, SeenBy, IsServerRun, ServerAfter, Transcript, StepFits;
    hide EarlyReturns, Left;
    hide ServerFits, Timely, Follows, Waiting, ReplayedAll, HeldThrough, Portrays, ReplicaPictures;
    var s := Connecting(db);
    NothingCopied();
    FreshFollows(db, false);
    ConnectingFits(db, maps);
    RunCopies(EMPTY_REPLICA, NO_VIEW, s, maps, steps, {});
    var t := ServerAfter(s, maps, steps);
    if Waiting(t) == [] {
      var v := HeldThrough(NO_VIEW, s, maps, steps, false);
      RestShowsTables(db, maps, steps, false);
      CopyPictures(ReplayedAll(EMPTY_REPLICA, Transcript(s, maps, steps)), v, SeenBy(t.subs, t.db),
                   Left(s, maps, steps));
    }
  }

  /** Every entry is there, under the index of a good key, and shows a row of that key from one of the views. */
  ghost predicate EntriesRecall<K(!new), V, W>(
    m: map<nat, Option<W>>, past: seq<View>, table: View -> map<K, V>, index: K -> nat, good: K -> bool, entry: V -> W)
  {
    forall i :: i in m ==>
      exists k, j ::
        0 <= j < |past| && good(k) && index(k) == i && k in table(past[j]) && m[i] == Some(entry(table(past[j])[k]))
  }

  lemma MirrorRecalls<K(!new), V, W>(
      m: map<nat, Option<W>>, held: map<K, V>, past: seq<View>, table: View -> map<K, V>, index: K -> nat,
      good: K -> bool, entry: V -> W)
    requires Mirrors(m, held, index, entry) && Recalls(held, past, table) && forall k :: k in held ==> good(k)
    ensures EntriesRecall(m, past, table, index, good, entry)
  {
    forall i | i in m
      ensures exists k, j ::
          0 <= j < |past| && good(k) && index(k) == i && k in table(past[j]) && m[i] == Some(entry(table(past[j])[k]))
    {
      var k :| k in held && index(k) == i;
      var j :| 0 <= j < |past| && k in table(past[j]) && table(past[j])[k] == held[k];
      assert m[i] == Some(entry(held[k]));
    }
  }

  ghost predicate ReplicaRecalls(r: Replica, past: seq<View>) {
    && EntriesRecall(r.nodes, past, NodeTable, HostOf, AnyHost, Same)
    && EntriesRecall(r.sources, past, SourceTable, IndexOf, GoodKey, SourceOf)
    && EntriesRecall(r.destinations, past, DestinationTable, IndexOf, GoodKey, DestinationOf)
  }

  lemma CopyRecalls(r: Replica, v: View, past: seq<View>)
    requires Copies(r, v) && KeysFit(v) && RecallsRows(v, past)
    ensures ReplicaRecalls(r, past)
  {
    hide Mirrors, Recalls, EntriesRecall;
    MirrorRecalls(r.nodes, v.nodes, past, NodeTable, HostOf, AnyHost, Same);
    MirrorRecalls(r.sources, v.sources, past, SourceTable, IndexOf, GoodKey, SourceOf);
    MirrorRecalls(r.destinations, v.destinations, past, DestinationTable, IndexOf, GoodKey, DestinationOf);
  }

  /**
   * At every point of such a run, also about hosts that departed: each entry of the replica shows a row of its own key
   * as the tables showed it at that point or before.
   */
  lemma ReplicaRecallsRows(db: Database, maps: MapSet, steps: seq<ServerStep>)
    requires maps.Valid() && Sound(db, maps) && DatabaseFits(db) && IsServerRun(Connecting(db), maps, steps)
    requires (forall i :: 0 <= i < |steps| ==> StepFits(steps[i])) && EarlyReturns(Connecting(db), maps, steps) == {}
    ensures ReplicaRecalls(ReplayedAll(EMPTY_REPLICA, Transcript(Connecting(db), maps, steps)),
                           Shown(Connecting(db), maps, steps))
  {
    hide Sound, DatabaseFits, Copies, KeysFit, IsServerRun, Transcript, StepFits, EarlyReturns, ServerFits, Timely;
    hide Follows, ReplayedAll, HeldThrough, RecallsRows, ReplicaRecalls, Shown;
    var s := Connecting(db);
    NothingCopied();
    FreshFollows(db, false);
    ConnectingFits(db, maps);
    RunCopies(EMPTY_REPLICA, NO_VIEW, s, maps, steps, {});
    EntriesWereRows(db, maps, steps, false);
    CopyRecalls(ReplayedAll(EMPTY_REPLICA, Transcript(s, maps, steps)), HeldThrough(NO_VIEW, s, maps, steps, false),
                Shown(s, maps, steps));
  }

  /** The text of any run, cut into reads in any manner, makes the replica what its messages make it. */
  lemma TextMakesReplica(db: Database, maps: MapSet, steps: seq<ServerStep>, chunks: seq<string>)
    requires maps.Valid() && Sound(db, maps) && DatabaseFits(db) && IsServerRun(Connecting(db), maps, steps)
    requires forall i :: 0 <= i < |steps| ==> StepFits(steps[i])
    requires Concat(chunks) == Utf8(Sent(Printed(Transcript(Connecting(db), maps, steps))))
    ensures var (rest, lines) := FedInReads("", chunks);
            rest == "" && Understood(lines) == Transcript(Connecting(db), maps, steps)
  {
    hide Sound, DatabaseFits, ServerFits, IsServerRun, Transcript, StepFits;
    hide FedInReads, Understood, Printed, Sent, Utf8, Concat, MessageSendable;
    ConnectingFits(db, maps);
    TranscriptIsSendable(Connecting(db), maps, steps);
    StreamArrives(Transcript(Connecting(db), maps, steps), chunks);
  }

  /** Node entries are never renewed: a node that returns under other names is kept under the first ones. */
  lemma {:induction false} NodeEntriesStay(v: View, s: Server, maps: MapSet, steps: seq<ServerStep>)
    requires maps.Valid() && Timely(s) && IsServerRun(s, maps, steps) && EarlyReturns(s, maps, steps) == {}
    ensures forall h :: h in v.nodes ==>
              && h in HeldThrough(v, s, maps, steps, false).nodes
              && HeldThrough(v, s, maps, steps, false).nodes[h] == v.nodes[h]
    decreases |steps|
  {
    hide Timely, Enabled, Records, Next, ComingEarly, OnlyGrows, TakenAll;
    if steps != [] {
      StepStaysTimely(s, maps, steps[0]);
      AddedNodesStay(v.nodes, Records(s, steps[0]));
      NodeEntriesStay(HeldAfter(v, Records(s, steps[0]), false), Next(s, maps, steps[0]), maps, steps[1..]);
    }
  }

  lemma AddedNodesStay(nodes: map<IPv4Number, NodeInfo>, b: Batch)
    requires OnlyGrows(b)
    ensures forall h :: h in nodes ==>
              h in TakenAll(nodes, b.nodes, false) && TakenAll(nodes, b.nodes, false)[h] == nodes[h]
  {
    AddsLeaveOld(nodes, b.nodes);
  }

  lemma {:induction false} AddsLeaveOld<K, V>(m: map<K, V>, ops: seq<Op<K, V>>)
    requires forall i :: 0 <= i < |ops| ==> ops[i].Add?
    ensures forall k :: k in m ==> k in TakenAll(m, ops, false) && TakenAll(m, ops, false)[k] == m[k]
    decreases |ops|
  {
    if ops != [] {
      AddsLeaveOld(Taken(m, ops[0], false), ops[1..]);
    }
  }
}
