/** A reachable plant in which the full listing is wrong: two of its inputs share a stream. */
module SharedStreams {
  import opened Addresses
  import opened EndPointMaps
  import opened RoutingTables
  import opened RoutingDatabase
  import opened RouteStat
  import opened RouteService
  import opened PlantRuns
  import opened Text

  const HOST: IPv4Number := 1
  const SHARED := IPv4(239 * 0x100_0000 + 1)
  const OWN := IPv4(239 * 0x100_0000 + 2)

  function Source(stream: HostAddress): SourceImage {
    SourceImage(stream, "", true, 2, 0)
  }

  function Destination(stream: HostAddress): DestinationImage {
    DestinationImage(stream, "", 2)
  }

  /** Its first two sources share a stream, which its first destination takes; the second takes the third's. */
  const IMAGE := MatrixImage("", "", LwrpMatrix, [Source(SHARED), Source(SHARED), Source(OWN)],
                             [Destination(SHARED), Destination(OWN)], [], [])

  function Entry(slot: nat): EndPoint {
    EndPoint(IPv4(HOST), slot, "", true)
  }

  const ROUTER := RouterMap(AudioRouter, "", 0, [Entry(0), Entry(1), Entry(2)], [Entry(0), Entry(1)], [])
  const MAPS := MapSet([0], map[0 := ROUTER])
  const STEPS := [Found(HOST, IMAGE), ComesUp(HOST)]

  lemma MapsAreValid()
    ensures MAPS.Valid()
  {
  }

  function Up(): Plant
    requires MAPS.Loaded()
  {
    Plant(WithNode(EmptyDatabase(), MAPS, HOST, IMAGE), map[HOST := IMAGE])
  }

  lemma Reached()
    ensures MAPS.Valid() && IsPlantRun(NO_PLANT, MAPS, STEPS) && PlantAfter(NO_PLANT, MAPS, STEPS) == Up()
  {
    MapsAreValid();
    hide WithNode;
    var found := Plant(EmptyDatabase(), map[HOST := IMAGE]);
    assert found.matrices[HOST := IMAGE] == found.matrices;
    assert Happened(NO_PLANT, MAPS, Found(HOST, IMAGE)) == found && Happened(found, MAPS, ComesUp(HOST)) == Up();
    assert CanHappen(NO_PLANT, Found(HOST, IMAGE)) && CanHappen(found, ComesUp(HOST));
    hide Happened, CanHappen, Up;
    assert STEPS[1..] == [ComesUp(HOST)] && STEPS[1..][1..] == [];
    assert IsPlantRun(Up(), MAPS, []) && PlantAfter(Up(), MAPS, []) == Up();
    assert IsPlantRun(found, MAPS, STEPS[1..]) && PlantAfter(found, MAPS, STEPS[1..]) == Up();
  }

  ghost predicate Linked(t: map<Key, HostAddress>, links: seq<HostAddress>) {
    forall k :: (k in t <==> k.host == HOST && k.slot < |links|) && (k in t ==> t[k] == links[k.slot])
  }

  function Links<D>(t: Table<HostAddress, D>): map<Key, HostAddress> {
    map k | k in t.rows :: t.rows[k].link
  }

  /** The rows there are, and no others. */
  lemma Rows()
    requires MAPS.Loaded()
    ensures IndexAgreement(Up().db, MAPS)
    ensures Linked(Links(Up().db.sources), [SHARED, SHARED, OWN]) && Linked(Links(Up().db.destinations), [SHARED, OWN])
  {
    hide WithNode, PlantAfter, IsPlantRun, IndexAgreement, GpisHeld, GposHeld, Holds, Shaped, Linked;
    Reached();
    TablesHoldWhatIsReported(MAPS, STEPS);
    OnlyHost();
    var db := Up().db;
    assert AsReported(db, HOST, IMAGE);
    StreamsOf();
    TableLinked(db.sources, IMAGE.SourceSlots(), [SHARED, SHARED, OWN], db, true);
    TableLinked(db.destinations, IMAGE.DestinationSlots(), [SHARED, OWN], db, false);
  }

  lemma StreamsOf()
    ensures |IMAGE.SourceSlots()| == 3 && IMAGE.SourceSlots()[0].0 == SHARED
    ensures IMAGE.SourceSlots()[1].0 == SHARED && IMAGE.SourceSlots()[2].0 == OWN
    ensures |IMAGE.DestinationSlots()| == 2
    ensures IMAGE.DestinationSlots()[0].0 == SHARED && IMAGE.DestinationSlots()[1].0 == OWN
  {
  }

  lemma OnlyHost()
    ensures MAPS.Loaded() && Up().db.nodes.Keys == {HOST}
  {
    MapsAreValid();
    hide HostAdded;
  }

  lemma TableLinked<D>(
      t: Table<HostAddress, D>, slots: seq<(HostAddress, D)>, links: seq<HostAddress>, db: Database, source: bool)
    requires Shaped(db) && db.nodes.Keys == {HOST} && Holds(t, HOST, slots)
    requires forall k :: k in t.rows ==> if source then k in db.sources.rows else k in db.destinations.rows
    requires |slots| == |links| && forall i :: 0 <= i < |links| ==> slots[i].0 == links[i]
    ensures Linked(Links(t), links)
  {
    forall k: Key
      ensures k in t.rows ==> k.host == HOST
    {
      assert ShapedAt(db, k.host) && k == Key(k.host, k.slot);
    }
  }

  // ----- The joined rows -----

  lemma Numbers()
    ensures forall s :: 0 <= s < 3 ==> ROUTER.NumberOf(Input, IPv4(HOST), s) == s
    ensures forall s :: 0 <= s < 2 ==> ROUTER.NumberOf(Output, IPv4(HOST), s) == s
  {
    assert forall s :: 0 <= s < 3 ==> ROUTER.inputs[s].At(IPv4(HOST), s);
    assert forall s :: 0 <= s < 2 ==> ROUTER.outputs[s].At(IPv4(HOST), s);
    hide FirstAt;
  }

  /** The index rows of a table, by number. */
  ghost predicate Indexed<D>(t: Table<HostAddress, D>, ids: seq<nat>, links: seq<HostAddress>) {
    |ids| == |links| &&
    forall s :: 0 <= s < |ids| ==>
      && ids[s] in t.index && t.index[ids[s]].router == 0 && t.index[ids[s]].number == s
      && t.index[ids[s]].link == links[s]
  }

  ghost predicate NoOthers<D>(t: Table<HostAddress, D>, ids: seq<nat>) {
    forall i :: i in t.index ==> 0 <= t.index[i].number < |ids| && ids[t.index[i].number] == i
  }

  ghost predicate InOrder(role: Role, n: nat) {
    n == |ROUTER.Ends(role.end)| && role.kind == AudioRouter &&
    forall s :: 0 <= s < n ==> ROUTER.NumberOf(role.end, IPv4(HOST), s) == s
  }

  lemma IndexFound<D>(t: Table<HostAddress, D>, role: Role, links: seq<HostAddress>, n: nat) returns (ids: seq<nat>)
    requires MAPS.Valid() && Agrees(t, MAPS, role) && Linked(Links(t), links) && InOrder(role, |links|) && n <= |links|
    ensures Indexed(t, ids, links[..n])
  {
    hide Agrees, RouterMap.NumberOf;
    if n == 0 {
      ids := [];
    } else {
      ids := IndexFound(t, role, links, n - 1);
      assert Key(HOST, n - 1) in Links(t) && Links(t)[Key(HOST, n - 1)] == links[n - 1];
      var i := IndexRowOf(t, MAPS, role, 0, n - 1, Key(HOST, n - 1));
      ids := ids + [i];
    }
  }

  lemma IndexComplete<D>(t: Table<HostAddress, D>, role: Role, links: seq<HostAddress>, ids: seq<nat>)
    requires MAPS.Valid() && Agrees(t, MAPS, role) && Linked(Links(t), links) && InOrder(role, |links|)
    requires Indexed(t, ids, links)
    ensures NoOthers(t, ids)
  {
    hide NoneMissing, NoneTwice, Numbered;
    forall i | i in t.index
      ensures 0 <= t.index[i].number < |ids| && ids[t.index[i].number] == i
    {
      assert RowRight(t, MAPS, role, t.index[i]) && t.index[i].key in Links(t);
      hide AllRight, RouterMap.NumberOf;
      NumberIsUnique(t, MAPS, role, i, ids[t.index[i].key.slot]);
    }
  }

  /** The query joins three rows: two for the first output and one for the second. */
  lemma Joined() returns (a: RouteRow, b: RouteRow, c: RouteRow)
    requires MAPS.Valid()
    ensures var db := Up().db;
            && IndexAgreement(db, MAPS)
            && (forall r :: AudioRow(db, 0, r) <==> r == a || r == b || r == c)
    ensures a != b && a.output == b.output == 0 && c.output == 1 && c.input == Some(2)
  {
    hide WithNode, Agrees, FirstAt, Linked, RouterMap.NumberOf, Indexed, NoOthers;
    Rows();
    Numbers();
    var db := Up().db;
    var sources, destinations := [SHARED, SHARED, OWN], [SHARED, OWN];
    var s := IndexFound(db.sources, SOURCES, sources, 3);
    var d := IndexFound(db.destinations, DESTINATIONS, destinations, 2);
    assert sources[..3] == sources && destinations[..2] == destinations;
    IndexComplete(db.sources, SOURCES, sources, s);
    IndexComplete(db.destinations, DESTINATIONS, destinations, d);
    assert |s| == 3 && |d| == 2 by {
      IndexedLength(db.sources, s, sources);
      IndexedLength(db.destinations, d, destinations);
    }
    a, b, c := RouteRow(d[0], Some(s[0]), 0, Some(0)), RouteRow(d[0], Some(s[1]), 0, Some(1)),
               RouteRow(d[1], Some(s[2]), 1, Some(2));
    JoinedRows(db, s, d);
  }

  lemma IndexedLength<D>(t: Table<HostAddress, D>, ids: seq<nat>, links: seq<HostAddress>)
    requires Indexed(t, ids, links)
    ensures |ids| == |links|
  {
  }

  lemma JoinedRows(db: Database, s: seq<nat>, d: seq<nat>)
    requires |s| == 3 && Indexed(db.sources, s, [SHARED, SHARED, OWN]) && NoOthers(db.sources, s)
    requires |d| == 2 && Indexed(db.destinations, d, [SHARED, OWN]) && NoOthers(db.destinations, d)
    ensures forall r :: AudioRow(db, 0, r) <==>
              r == RouteRow(d[0], Some(s[0]), 0, Some(0)) || r == RouteRow(d[0], Some(s[1]), 0, Some(1)) ||
              r == RouteRow(d[1], Some(s[2]), 1, Some(2))
  {
  }

  /** With those three rows the query has an answer, and whatever the order of the answers the listings differ. */
  lemma ListingsDiffer(db: Database, a: RouteRow, b: RouteRow, c: RouteRow)
    requires IndexAgreement(db, MAPS) && forall r :: AudioRow(db, 0, r) <==> r == a || r == b || r == c
    requires a != b && a.output == b.output == 0 && c.output == 1 && c.input == Some(2)
    ensures AnswersAll([a, b, c], db, AudioRouter, 0)
    ensures forall q, one ::
              AnswersAll(q, db, AudioRouter, 0) && AnswersOne(one, db, AudioRouter, 0, 1) ==>
                && |CursorLines(0, q, 0, 0, 2)| == 2 && CursorLines(0, q, 0, 0, 2)[1] == Line(1, 2, 0)
                && OneLine(0, one, 1) == Line(1, 2, 3)
  {
    hide AudioRow, IndexAgreement, CursorLines;
    forall q, one | AnswersAll(q, db, AudioRouter, 0) && AnswersOne(one, db, AudioRouter, 0, 1)
      ensures |CursorLines(0, q, 0, 0, 2)| == 2 && CursorLines(0, q, 0, 0, 2)[1] == Line(1, 2, 0)
      ensures OneLine(0, one, 1) == Line(1, 2, 3)
    {
      SharedStreamHidesLater(db, MAPS, 0, q, one, 2, a, b, c);
      assert c in one && one[0] in one;
    }
  }

  /**
   * A matrix with two sources on one stream connects, and its first destination takes that stream: the query has
   * an answer, and whatever the order of the answers, the full listing shows the second output off, while the
   * single listing shows its input.
   */
  lemma FullListingIsWrong()
    ensures MAPS.Valid() && IsPlantRun(NO_PLANT, MAPS, STEPS)
    ensures exists q :: AnswersAll(q, PlantAfter(NO_PLANT, MAPS, STEPS).db, AudioRouter, 0)
    ensures forall q, one ::
              var db := PlantAfter(NO_PLANT, MAPS, STEPS).db;
              AnswersAll(q, db, AudioRouter, 0) && AnswersOne(one, db, AudioRouter, 0, 1) ==>
                && |CursorLines(0, q, 0, 0, 2)| == 2 && CursorLines(0, q, 0, 0, 2)[1] == Line(1, 2, 0)
                && OneLine(0, one, 1) == Line(1, 2, 3)
  {
    hide Up, PlantAfter, IsPlantRun, AudioRow, IndexAgreement, CursorLines, AnswersAll, AnswersOne, OneLine;
    Reached();
    var a, b, c := Joined();
    ListingsDiffer(Up().db, a, b, c);
  }
}
