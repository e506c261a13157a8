/** What each request makes of a plant, from its text to the tables, when its slots are there and when they are not. */
module Requests {
  import opened Addresses
  import opened RoutingTables
  import opened RoutingDatabase
  import opened Ipc
  import opened Core
  import opened RouteService
  import opened PlantRuns

  /** The plant once a request has reached the core of the active instance and the matrices have answered. */
  function Served(plant: Plant, maps: MapSet, c: Command): Plant
    requires maps.Loaded()
  {
    Happened(plant, maps, Requested(PrintCommand(c)))
  }

  lemma ServedIsEchoed(plant: Plant, maps: MapSet, c: Command)
    requires maps.Loaded() && Sendable(c)
    ensures Served(plant, maps, c) == EchoedAll(plant, maps, CallsFor(plant.matrices, c))
  {
    hide EchoedAll, CallsFor, PrintCommand, ParseCommand;
    CommandReadsBack(c);
  }

  lemma CallsEchoed(plant: Plant, maps: MapSet, calls: seq<MatrixCall>)
    requires maps.Loaded() && |calls| <= 1
    ensures EchoedAll(plant, maps, calls) == if calls == [] then plant else Echoed(plant, maps, calls[0])
  {
    hide Echoed;
    if calls != [] {
      assert calls == [calls[0]];
      OneCall(plant, maps, calls[0]);
    }
  }

  /**
   * A request comes down to one report of the slot it names, and to nothing at all if that slot, or the one it is to
   * follow, is not there.
   */
  lemma RequestIsOneReport(plant: Plant, maps: MapSet, c: Command)
    requires maps.Loaded() && Sendable(c)
    ensures var h := if c.host == Null then 0 else c.host.number;
            Served(plant, maps, c) ==
            if h !in plant.matrices then plant
            else
              var m := plant.matrices[h];
              match c
              case ClearCrosspoint(_, s) =>
                if s < |m.destinations|
                then Happened(plant, maps, DestinationReports(h, s, m.destinations[s].(stream := NULL_STREAM_ADDRESS)))
                else plant
              case ClearGpioCrosspoint(_, s) =>
                if s < |m.gpos|
                then Happened(plant, maps, GpoReports(h, s, m.gpos[s].code, m.gpos[s].name, NO_GPI))
                else plant
              case SetCrosspoint(_, s, source, r) =>
                var g := if source == Null then 0 else source.number;
                if s < |m.destinations| && g in plant.matrices && r < |plant.matrices[g].sources|
                then
                  var stream := plant.matrices[g].sources[r].stream;
                  Happened(plant, maps, DestinationReports(h, s, m.destinations[s].(stream := stream)))
                else plant
              case SetGpioCrosspoint(_, s, source, r) =>
                var g := if source == Null then 0 else source.number;
                if s < |m.gpos| && g in plant.matrices && r < |plant.matrices[g].gpis|
                then Happened(plant, maps, GpoReports(h, s, m.gpos[s].code, m.gpos[s].name, GpoLink(IPv4(g), r)))
                else plant
              case SetGpiState(_, s, code) =>
                if s < |m.gpis| then Happened(plant, maps, GpiReports(h, s, code)) else plant
              case SetGpoState(_, s, code) =>
                if s < |m.gpos| then Happened(plant, maps, GpoReports(h, s, code, m.gpos[s].name, m.gpos[s].link))
                else plant
  {
    hide Handled, PrintCommand, EchoedAll;
    ServedIsEchoed(plant, maps, c);
    CallsEchoed(plant, maps, CallsFor(plant.matrices, c));
  }

  // ----- The state requests, in the tables -----

  /** Of these rows at most the one for `key` differs, and only in its columns. */
  ghost predicate OnlyColumns<L, D>(a: map<Key, Row<L, D>>, b: map<Key, Row<L, D>>, key: Key) {
    && a.Keys == b.Keys && (forall k :: k in a && k != key ==> a[k] == b[k])
    && (key in a ==> b[key] == a[key].(data := b[key].data))
  }

  /** A GPI's code is set in its row, in lower case, and no other row of any table changes; else nothing does. */
  lemma GpiStateIsSet(plant: Plant, maps: MapSet, host: IPv4Number, slot: nat, code: string)
    requires maps.Loaded() && Sendable(SetGpiState(IPv4(host), slot, code))
    ensures var q, key := Served(plant, maps, SetGpiState(IPv4(host), slot, code)), Key(host, slot);
            if host in plant.matrices && slot < |plant.matrices[host].gpis| then
              var was, rows := plant.db.gpis.rows, q.db.gpis.rows;
              && q.db == plant.db.(gpis := plant.db.gpis.(rows := rows)) && OnlyColumns(was, rows, key)
              && (key in was ==>
                    rows[key].data.hostName == was[key].data.hostName && rows[key].data.code == Lower(code))
            else q == plant
  {
    hide Served, Lower;
    RequestIsOneReport(plant, maps, SetGpiState(IPv4(host), slot, code));
  }

  /** Writing a link that is there already changes nothing, in the index either. */
  lemma SameLink<L, D>(t: Table<L, D>, maps: MapSet, role: Role, key: Key, link: L)
    requires Agrees(t, maps, role) && (key in t.rows ==> link == t.rows[key].link)
    ensures LinkChanged(t, key, link) == t
  {
    hide NoneTwice, NoneMissing, Numbered, Listed, NumberIn;
    forall i | i in t.index && t.index[i].key == key
      ensures t.index[i].link == link
    {
      assert RowRight(t, maps, role, t.index[i]);
    }
    if key in t.rows {
      assert t.rows[key := t.rows[key].(link := link)] == t.rows;
    }
    assert LinkChanged(t, key, link).index == t.index;
  }

  /**
   * In every reachable plant a GPO's code is set in its row, in lower case and with the name the matrix has; the
   * crosspoint stays, no other row of any table changes, and without the slot nothing does.
   */
  lemma GpoStateIsSet(maps: MapSet, steps: seq<PlantStep>, host: IPv4Number, slot: nat, code: string)
    requires maps.Valid() && IsPlantRun(NO_PLANT, maps, steps) && Sendable(SetGpoState(IPv4(host), slot, code))
    ensures var plant := PlantAfter(NO_PLANT, maps, steps);
            var q, key := Served(plant, maps, SetGpoState(IPv4(host), slot, code)), Key(host, slot);
            if host in plant.matrices && slot < |plant.matrices[host].gpos| then
              var was, rows := plant.db.gpos.rows, q.db.gpos.rows;
              && q.db == plant.db.(gpos := plant.db.gpos.(rows := rows)) && OnlyColumns(was, rows, key)
              && (key in was ==>
                    && rows[key].data.hostName == was[key].data.hostName && rows[key].data.code == Lower(code)
                    && rows[key].data.name == plant.matrices[host].gpos[slot].name)
            else q == plant
  {
    hide Served, Lower, IsPlantRun, PlantAfter, Faithful, WithGpo;
    var plant := PlantAfter(NO_PLANT, maps, steps);
    RequestIsOneReport(plant, maps, SetGpoState(IPv4(host), slot, code));
    TablesHoldWhatIsReported(maps, steps);
    if host in plant.matrices && slot < |plant.matrices[host].gpos| {
      GpoCodeAlone(plant, maps, host, slot, code);
    }
  }

  lemma GpoCodeAlone(plant: Plant, maps: MapSet, host: IPv4Number, slot: nat, code: string)
    requires maps.Valid() && Faithful(plant, maps) && host in plant.matrices && slot < |plant.matrices[host].gpos|
    ensures var g, key := plant.matrices[host].gpos[slot], Key(host, slot);
            var u := WithGpo(plant.db, key, code, g.name, g.link);
            && u == plant.db.(gpos := plant.db.gpos.(rows := u.gpos.rows))
            && OnlyColumns(plant.db.gpos.rows, u.gpos.rows, key)
            && (key in u.gpos.rows ==>
                  && u.gpos.rows[key].data.hostName == plant.db.gpos.rows[key].data.hostName
                  && u.gpos.rows[key].data.code == Lower(code) && u.gpos.rows[key].data.name == g.name)
  {
    hide Lower, StreamsNormal, SourcesHeld, DestinationsHeld, GpisHeld, Agrees;
    var db, g, key := plant.db, plant.matrices[host].gpos[slot], Key(host, slot);
    assert ShapedAt(db, host);
    assert host in db.nodes ==> AsReported(db, host, plant.matrices[host]);
    var data := if key in db.gpos.rows then db.gpos.rows[key].data.(code := Lower(code), name := g.name)
                else GpoData("", Lower(code), g.name);
    DataChangedAgrees(db.gpos, maps, GPOS, key, data);
    SameLink(DataChanged(db.gpos, key, data), maps, GPOS, key, g.link);
  }
}
