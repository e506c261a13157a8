/** What activating a whole snapshot does: the last route for an output wins, and nothing else changes. */
module Snapshots {
  import opened Addresses
  import opened Text
  import opened EndPointMaps
  import opened MapStorage
  import opened RoutingTables
  import opened RoutingDatabase
  import opened Ipc
  import opened Core
  import opened RouteStat
  import opened RouteService
  import opened PlantRuns
  import opened ProtocolSa

  // ----- One route, ready or not -----

  /** Slot numbers are signed 32-bit integers; what the lower bound would exclude is never asked for. */
  predicate IntSlots(m: RouterMap) {
    forall e, n: nat | n < m.Quantity(e) :: m.SlotAt(e, n) < 0x8000_0000
  }

  lemma {:induction false} EndsFromSlots(lines: seq<MapStorage.Line>, e: End, n: nat)
    ensures forall i :: 0 <= i < |EndsFrom(lines, e, n)| ==> EndsFrom(lines, e, n)[i].slot < 0x8000_0000
    decreases Remaining(lines, TypeString(e), "", n)
  {
    hide EndsFrom, StringValue, AddressValue, EndSection, Remaining, ParseInt;
    EndsFromNext(lines, e, n);
    if AddressValue(lines, EndSection(e, n), "HostAddress").Some? {
      EndCounts(lines, e, n);
      EndsFromSlots(lines, e, n + 1);
      SlotIsInt(lines, EndSection(e, n));
    }
  }

  lemma SlotIsInt(lines: seq<MapStorage.Line>, section: string)
    ensures Default(IntValue(lines, section, "Slot"), 0) <= 0x8000_0000
  {
  }

  /** Every map loaded from a file has such slots. */
  lemma LoadedSlotsAreInts(lines: seq<MapStorage.Line>)
    ensures IntSlots(Loaded(lines))
  {
    EndsFromSlots(lines, Input, 0);
    EndsFromSlots(lines, Output, 0);
    hide EndsFrom, SnapshotsFrom, KindFrom, StringValue, IntValue;
  }

  /** Entry `n` of the outputs is for the slot `k`. */
  predicate EntryFor(m: RouterMap, n: nat, k: Key) {
    m.HostAt(Output, n) == IPv4(k.host) && m.SlotAt(Output, n) == k.slot
  }

  /** All links stay but those of slots that `touched` names. */
  ghost predicate OthersKept(a: Database, b: Database, m: RouterMap, touched: Key -> bool) {
    forall k :: !touched(k) && HasSlot(a, m.kind, Output, k) ==>
      HasSlot(b, m.kind, Output, k) && LinkAt(b, m, k) == LinkAt(a, m, k)
  }

  lemma EchoTouchesOne(plant: Plant, maps: MapSet, m: RouterMap, call: MatrixCall)
    requires maps.Loaded()
    ensures OnlyLink(plant.db, Echoed(plant, maps, call).db, m, Key(call.host, call.slot))
  {
    hide Lower, Normalized;
  }

  /** A route comes down to at most one request, for its own output, that can be printed and read. */
  lemma CommandIsForOutput(m: RouterMap, output: nat, input: nat)
    requires IntSlots(m)
    ensures var cs := CommandsIn(m, output, input);
            cs == [] ||
            (&& |cs| == 1 && Sendable(cs[0]) && !cs[0].SetGpiState? && !cs[0].SetGpoState?
             && cs[0].host == m.HostAt(Output, output) && cs[0].slot == m.SlotAt(Output, output) && cs[0].host.IPv4?)
  {
  }

  lemma CallIsForSlot(matrices: Matrices, c: Command)
    requires !c.SetGpiState? && !c.SetGpoState?
    ensures var calls := CallsFor(matrices, c);
            calls == [] ||
            (|calls| == 1 && SetsCrosspoint(calls[0]) && calls[0].host == Number(c.host) && calls[0].slot == c.slot)
  {
  }

  /**
   * Whatever a route needs is there or not: no other slot's link changes, no slot comes or goes, and all stays sound.
   */
  lemma RouteTouchesOne(plant: Plant, maps: MapSet, router: int, output: nat, input: nat)
    requires maps.Loaded() && router in maps.byNumber && IntSlots(maps.byNumber[router])
    ensures var m, q := maps.byNumber[router], Activated(plant, maps, router, output, input);
            && SameInputs(plant.matrices, q.matrices) && SameSlots(plant.db, q.db)
            && (maps.Valid() && Sound(plant.db, maps) ==> Sound(q.db, maps))
            && OthersKept(plant.db, q.db, m, k => EntryFor(m, output, k))
  {
    hide Sound, IntSlots, CommandsIn, CallsFor, Carried, EchoedAll, Echoed;
    var m := maps.byNumber[router];
    var cs := CommandsIn(m, output, input);
    CommandIsForOutput(m, output, input);
    if cs == [] {
      NothingCarried(plant, maps);
    } else {
      assert cs == [cs[0]];
      OneCommand(plant, maps, cs[0]);
      CallIsForSlot(plant.matrices, cs[0]);
      var calls := CallsFor(plant.matrices, cs[0]);
      if calls == [] {
        NothingEchoed(plant, maps);
      } else {
        assert calls == [calls[0]];
        OneCall(plant, maps, calls[0]);
        EchoKeepsInputs(plant, maps, calls[0]);
        EchoTouchesOne(plant, maps, m, calls[0]);
        if maps.Valid() && Sound(plant.db, maps) {
          EchoKeepsSound(plant, maps, calls[0]);
        }
      }
    }
  }

  lemma NothingCarried(plant: Plant, maps: MapSet)
    requires maps.Loaded()
    ensures Carried(plant, maps, []) == plant
  {
  }

  lemma NothingEchoed(plant: Plant, maps: MapSet)
    requires maps.Loaded()
    ensures EchoedAll(plant, maps, []) == plant
  {
  }

  // ----- A whole snapshot -----

  lemma {:induction false} CarriedAppend(plant: Plant, maps: MapSet, a: seq<Command>, b: seq<Command>)
    requires maps.Loaded()
    ensures Carried(plant, maps, a + b) == Carried(Carried(plant, maps, a), maps, b)
    decreases |a|
  {
    hide EchoedAll, Forwarded;
    if a == [] {
      assert a + b == b;
    } else {
      assert (a + b)[1..] == a[1..] + b;
      CarriedAppend(EchoedAll(plant, maps, Forwarded(true, plant.matrices, PrintCommand(a[0]))), maps, a[1..], b);
    }
  }

  /** A snapshot as far as its routes have been carried out and echoed. */
  function Carrying(plant: Plant, maps: MapSet, router: int, routes: seq<Route>): Plant
    requires maps.Loaded() && Bounded(routes)
  {
    Carried(plant, maps, SnapshotCommands(maps, router, routes))
  }

  lemma OneMoreRoute(plant: Plant, maps: MapSet, router: int, routes: seq<Route>)
    requires maps.Loaded() && Bounded(routes) && routes != []
    ensures var n := |routes| - 1;
            Carrying(plant, maps, router, routes) ==
            Activated(Carrying(plant, maps, router, routes[..n]), maps, router, routes[n].output - 1, routes[n].input)
  {
    hide Carried, RouteCommands;
    var n := |routes| - 1;
    CarriedAppend(plant, maps, SnapshotCommands(maps, router, routes[..n]),
                  RouteCommands(maps, router, routes[n].output - 1, routes[n].input));
  }

  /** Some route of the snapshot is for the output at `k`. */
  predicate Named(m: RouterMap, routes: seq<Route>, k: Key)
    requires Bounded(routes)
  {
    exists i :: 0 <= i < |routes| && EntryFor(m, routes[i].output - 1, k)
  }

  /**
   * Any snapshot, whether or not its routes can be carried out: no slot comes or goes, and every output it does
   * not name keeps its link.
   */
  lemma {:induction false} UnnamedKeepLinks(plant: Plant, maps: MapSet, router: int, routes: seq<Route>)
    requires maps.Loaded() && router in maps.byNumber && Bounded(routes) && IntSlots(maps.byNumber[router])
    ensures var m, q := maps.byNumber[router], Carrying(plant, maps, router, routes);
            && SameInputs(plant.matrices, q.matrices) && SameSlots(plant.db, q.db)
            && (maps.Valid() && Sound(plant.db, maps) ==> Sound(q.db, maps))
            && OthersKept(plant.db, q.db, m, k => Named(m, routes, k))
    decreases |routes|
  {
    hide Sound, Activated, IntSlots, EntryFor, OthersKept, SameInputs, SameSlots, Carrying, Named;
    var m := maps.byNumber[router];
    if routes == [] {
      NothingKept(plant, maps, router);
    } else {
      var n := |routes| - 1;
      var p, q := Carrying(plant, maps, router, routes[..n]), Carrying(plant, maps, router, routes);
      UnnamedKeepLinks(plant, maps, router, routes[..n]);
      RouteTouchesOne(p, maps, router, routes[n].output - 1, routes[n].input);
      OneMoreRoute(plant, maps, router, routes);
      SameIsTransitive(plant, p, q);
      NamedMore(m, routes);
      KeptTwice(plant.db, p.db, q.db, m, k => Named(m, routes[..n], k), k => EntryFor(m, routes[n].output - 1, k),
                k => Named(m, routes, k));
    }
  }

  lemma NamedMore(m: RouterMap, routes: seq<Route>)
    requires Bounded(routes) && routes != []
    ensures var n := |routes| - 1;
            forall k :: Named(m, routes[..n], k) || EntryFor(m, routes[n].output - 1, k) ==> Named(m, routes, k)
  {
  }

  lemma KeptTwice(
      a: Database, b: Database, c: Database, m: RouterMap, first: Key -> bool, second: Key -> bool, both: Key -> bool)
    requires OthersKept(a, b, m, first) && OthersKept(b, c, m, second)
    requires forall k :: first(k) || second(k) ==> both(k)
    ensures OthersKept(a, c, m, both)
  {
    hide HasSlot, LinkAt;
  }

  lemma NothingKept(plant: Plant, maps: MapSet, router: int)
    requires maps.Loaded() && router in maps.byNumber
    ensures Carrying(plant, maps, router, []) == plant && SameInputs(plant.matrices, plant.matrices)
    ensures SameSlots(plant.db, plant.db)
    ensures forall touched :: OthersKept(plant.db, plant.db, maps.byNumber[router], touched)
  {
    hide HasSlot, LinkAt, Carried;
    NothingCarried(plant, maps);
  }

  lemma SameIsTransitive(a: Plant, b: Plant, c: Plant)
    requires SameInputs(a.matrices, b.matrices) && SameSlots(a.db, b.db)
    requires SameInputs(b.matrices, c.matrices) && SameSlots(b.db, c.db)
    ensures SameInputs(a.matrices, c.matrices) && SameSlots(a.db, c.db)
  {
  }

  // ----- Last write wins -----

  /** The last route listed for an output, if any. */
  function LastInput(routes: seq<Route>, output: nat): Option<nat>
    requires Bounded(routes)
  {
    if routes == [] then None
    else
      var n := |routes| - 1;
      if routes[n].output - 1 == output then Some(routes[n].input) else LastInput(routes[..n], output)
  }

  predicate RouteReady(plant: Plant, m: RouterMap, output: nat, input: nat) {
    Ready(plant, m, output, input) && Mirrored(plant, m, input)
  }

  lemma RouteReadyStays(p: Plant, q: Plant, m: RouterMap, output: nat, input: nat)
    requires SameInputs(p.matrices, q.matrices) && SameSlots(p.db, q.db) && RouteReady(p, m, output, input)
    ensures RouteReady(q, m, output, input) && Target(p, m, input) == Target(q, m, input)
  {
  }

  /** No route for another output is for the same slot. */
  predicate NotRepeated(m: RouterMap, routes: seq<Route>, o: nat)
    requires Bounded(routes)
  {
    forall i :: 0 <= i < |routes| && routes[i].output - 1 != o ==>
      || m.HostAt(Output, routes[i].output - 1) != m.HostAt(Output, o)
      || m.SlotAt(Output, routes[i].output - 1) != m.SlotAt(Output, o)
  }

  /** A route for another slot leaves a connection alone. */
  lemma OthersStayConnected(p: Plant, maps: MapSet, router: int, output: nat, input: nat, o: nat, v: nat)
    requires maps.Loaded() && router in maps.byNumber && IntSlots(maps.byNumber[router])
    requires var m := maps.byNumber[router];
             Connects(p, m, o, v) &&
             (m.HostAt(Output, output) != m.HostAt(Output, o) || m.SlotAt(Output, output) != m.SlotAt(Output, o))
    ensures Connects(Activated(p, maps, router, output, input), maps.byNumber[router], o, v)
  {
    hide IntSlots, Activated, SameInputs, SameSlots, RouterMap.Effective, Sound;
    var m, q := maps.byNumber[router], Activated(p, maps, router, output, input);
    RouteTouchesOne(p, maps, router, output, input);
    RouteReadyStays(p, q, m, o, v);
    assert !EntryFor(m, output, KeyAt(m, Output, o));
  }

  /** It is enough that the last route for an output can be carried out. */
  lemma {:induction false} LastTakesEffect(plant: Plant, maps: MapSet, router: int, routes: seq<Route>, o: nat)
    requires maps.Valid() && Sound(plant.db, maps) && router in maps.byNumber
    requires Bounded(routes) && IntSlots(maps.byNumber[router]) && NotRepeated(maps.byNumber[router], routes, o)
    requires LastInput(routes, o).Some? && RouteReady(plant, maps.byNumber[router], o, LastInput(routes, o).value)
    ensures var q := Carrying(plant, maps, router, routes);
            Sound(q.db, maps) && Connects(q, maps.byNumber[router], o, LastInput(routes, o).value)
    decreases |routes|
  {
    hide Sound, Activated, IntSlots, Carrying, Ready, Mirrored, Connects, OthersKept;
    var m, n := maps.byNumber[router], |routes| - 1;
    var r := routes[n];
    var p := Carrying(plant, maps, router, routes[..n]);
    OneMoreRoute(plant, maps, router, routes);
    UnnamedKeepLinks(plant, maps, router, routes);
    UnnamedKeepLinks(plant, maps, router, routes[..n]);
    if r.output - 1 == o {
      RouteReadyStays(plant, p, m, o, r.input);
      ActivationConnects(p, maps, router, o, r.input);
    } else {
      LastTakesEffect(plant, maps, router, routes[..n], o);
      OthersStayConnected(p, maps, router, r.output - 1, r.input, o, LastInput(routes, o).value);
    }
  }

  /**
   * In any reachable plant, once a snapshot has been carried out and echoed, an output it names is reported with
   * the last input listed for it, or as OFF if that is an audio input without a stream, provided that this one route
   * is between connected slots; the other routes may be for whatever they like except the output's own slot under
   * another number.
   */
  lemma LastWriteWins(
      maps: MapSet, steps: seq<PlantStep>, router: int, routes: seq<Route>, o: nat, q: seq<RouteRow>)
    requires maps.Valid() && IsPlantRun(NO_PLANT, maps, steps) && router in maps.byNumber
    requires Bounded(routes) && IntSlots(maps.byNumber[router]) && NotRepeated(maps.byNumber[router], routes, o)
    requires LastInput(routes, o).Some?
    requires RouteOnline(PlantAfter(NO_PLANT, maps, steps).db, maps.byNumber[router], o, LastInput(routes, o).value)
    ensures var m, plant := maps.byNumber[router], PlantAfter(NO_PLANT, maps, steps);
            && (m.kind == AudioRouter ==> DistinctStreams(plant.db, router))
            && AnswersOne(q, Carrying(plant, maps, router, routes).db, m.kind, router, o)
            ==> OneLine(router, q, o) ==
                Line(router + 1, o + 1,
                     if HasStream(plant.db, m, LastInput(routes, o).value) then LastInput(routes, o).value else 0)
  {
    hide IsPlantRun, PlantAfter, Carrying, Ready, Mirrored, RouteOnline, AnswersOne, IndexAgreement, Connects, IntSlots;
    hide DistinctStreams, OneLine, AsReported, NotRepeated, LastInput, OthersKept;
    var m, plant := maps.byNumber[router], PlantAfter(NO_PLANT, maps, steps);
    var after := Carrying(plant, maps, router, routes);
    TablesHoldWhatIsReported(maps, steps);
    OnlineIsReady(plant, maps, m, o, LastInput(routes, o).value);
    LastTakesEffect(plant, maps, router, routes, o);
    UnnamedKeepLinks(plant, maps, router, routes);
    DistinctStays(plant.db, after.db, router);
    if (m.kind == AudioRouter ==> DistinctStreams(plant.db, router)) && AnswersOne(q, after.db, m.kind, router, o) {
      ConnectedIsReported(after, maps, router, o, LastInput(routes, o).value, q);
    }
  }
}
