/** Activating a route, the matrix's echo, and what the router and its event log then make of it. */
module RouteService {
  import opened Addresses
  import opened Text
  import opened EndPointMaps
  import opened RoutingTables
  import opened RoutingDatabase
  import opened Ipc
  import opened Core
  import opened RouteStat

  /** A logged route, with input -1 for OFF. */
  datatype RouteEvent = RouteEvent(router: int, output: int, input: int)

  // ----- Activation -----

  function CommandsIn(m: RouterMap, output: nat, input: nat): seq<Command> {
    var host, slot := m.HostAt(Output, output), m.SlotAt(Output, output);
    if host == Null || slot < 0 then []
    else if input == 0 then
      [if m.kind == AudioRouter then ClearCrosspoint(host, slot) else ClearGpioCrosspoint(host, slot)]
    else
      var sourceHost, sourceSlot := m.HostAt(Input, input - 1), m.SlotAt(Input, input - 1);
      if sourceHost == Null || sourceSlot < 0 then []
      else
        [if m.kind == AudioRouter then SetCrosspoint(host, slot, sourceHost, sourceSlot)
         else SetGpioCrosspoint(host, slot, sourceHost, sourceSlot)]
  }

  /** What activating a route asks of the core; outputs count from 0, inputs from 1, and input 0 is OFF. */
  function RouteCommands(maps: MapSet, router: int, output: nat, input: nat): seq<Command> {
    if router in maps.byNumber then CommandsIn(maps.byNumber[router], output, input) else []
  }

  // ----- The matrix's echo -----

  /** The tables together with the matrices they describe. */
  datatype Plant = Plant(db: Database, matrices: Matrices)

  /** A matrix carries out a call and reports the slot as it then is. */
  function Echoed(plant: Plant, maps: MapSet, call: MatrixCall): Plant
    requires maps.Loaded()
  {
    if call.host !in plant.matrices then plant
    else
      var m := plant.matrices[call.host];
      match call
      case SetDestination(h, s, stream) =>
        if s >= |m.destinations| then plant
        else
          var d := m.destinations[s].(stream := stream);
          Plant(Handled(plant.db, maps, DestinationChanged(h, s, m.hostName, d)),
                plant.matrices[h := m.(destinations := m.destinations[s := d])])
      case SetGpo(h, s, link) =>
        if s >= |m.gpos| then plant
        else
          var g := m.gpos[s].(link := link);
          Plant(Handled(plant.db, maps, GpoChanged(h, s, g.code, g.name, link)),
                plant.matrices[h := m.(gpos := m.gpos[s := g])])
      case SetGpiCode(h, s, code) =>
        if s >= |m.gpis| then plant
        else
          Plant(Handled(plant.db, maps, GpiChanged(h, s, code)),
                plant.matrices[h := m.(gpis := m.gpis[s := code])])
      case SetGpoCode(h, s, code) =>
        if s >= |m.gpos| then plant
        else
          var g := m.gpos[s].(code := code);
          Plant(Handled(plant.db, maps, GpoChanged(h, s, code, g.name, g.link)),
                plant.matrices[h := m.(gpos := m.gpos[s := g])])
  }

  function EchoedAll(plant: Plant, maps: MapSet, calls: seq<MatrixCall>): Plant
    requires maps.Loaded()
    decreases |calls|
  {
    if calls == [] then plant else EchoedAll(Echoed(plant, maps, calls[0]), maps, calls[1..])
  }

  /** The core of the active instance receives the printed requests, and the matrices echo its calls. */
  function Carried(plant: Plant, maps: MapSet, commands: seq<Command>): Plant
    requires maps.Loaded()
    decreases |commands|
  {
    if commands == [] then plant
    else
      Carried(EchoedAll(plant, maps, Forwarded(true, plant.matrices, PrintCommand(commands[0]))), maps, commands[1..])
  }

  /** A whole activation on the active instance. */
  function Activated(plant: Plant, maps: MapSet, router: int, output: nat, input: nat): Plant
    requires maps.Loaded()
  {
    Carried(plant, maps, RouteCommands(maps, router, output, input))
  }

  // ----- What a route depends on -----

  /** Entry `n` of a map names a slot of a connected matrix, and is the map's first entry for it. */
  predicate Live(plant: Plant, m: RouterMap, e: End, n: nat) {
    && m.Effective(e, n) && m.HostAt(e, n).IPv4? && IsSlot(m.SlotAt(e, n))
    && var h, s := m.HostAt(e, n).number, m.SlotAt(e, n);
       h in plant.matrices && s < SlotsOf(plant.matrices[h], m.kind, e) && HasSlot(plant.db, m.kind, e, Key(h, s))
  }

  function SlotsOf(image: MatrixImage, kind: RouterKind, e: End): nat {
    match (kind, e)
    case (AudioRouter, Input) => |image.sources|
    case (AudioRouter, Output) => |image.destinations|
    case (GpioRouter, Input) => |image.gpis|
    case (GpioRouter, Output) => |image.gpos|
  }

  predicate HasSlot(db: Database, kind: RouterKind, e: End, key: Key) {
    match (kind, e)
    case (AudioRouter, Input) => key in db.sources.rows
    case (AudioRouter, Output) => key in db.destinations.rows
    case (GpioRouter, Input) => key in db.gpis.rows
    case (GpioRouter, Output) => key in db.gpos.rows
  }

  function KeyAt(m: RouterMap, e: End, n: nat): Key
    requires m.HostAt(e, n).IPv4? && m.SlotAt(e, n) >= 0
  {
    Key(m.HostAt(e, n).number, m.SlotAt(e, n))
  }

  predicate Ready(plant: Plant, m: RouterMap, output: nat, input: nat) {
    Live(plant, m, Output, output) && (input == 0 || Live(plant, m, Input, input - 1))
  }

  /** What decides a crosspoint: a stream for audio, the GPI followed for GPIO. */
  datatype AnyLink = Stream(address: HostAddress) | Followed(link: GpoLink)

  function LinkAt(db: Database, m: RouterMap, key: Key): AnyLink
    requires HasSlot(db, m.kind, Output, key)
  {
    if m.kind == AudioRouter then Stream(db.destinations.rows[key].link) else Followed(db.gpos.rows[key].link)
  }

  /** The link that stands for an input of the map. */
  function Target(plant: Plant, m: RouterMap, input: nat): AnyLink
    requires input == 0 || Live(plant, m, Input, input - 1)
  {
    if input == 0 then (if m.kind == AudioRouter then Stream(NULL_STREAM_ADDRESS) else Followed(NO_GPI))
    else
      var key := KeyAt(m, Input, input - 1);
      if m.kind == AudioRouter then Stream(Normalized(plant.matrices[key.host].sources[key.slot].stream))
      else Followed(GpoLink(IPv4(key.host), key.slot))
  }

  // ----- One route -----

  lemma OneCommand(plant: Plant, maps: MapSet, c: Command)
    requires maps.Loaded() && Sendable(c)
    ensures Carried(plant, maps, [c]) == EchoedAll(plant, maps, CallsFor(plant.matrices, c))
  {
    hide EchoedAll, CallsFor, PrintCommand, ParseCommand;
    CommandReadsBack(c);
    var next := EchoedAll(plant, maps, Forwarded(true, plant.matrices, PrintCommand(c)));
    assert Carried(next, maps, [c][1..]) == next;
  }

  lemma OneCall(plant: Plant, maps: MapSet, call: MatrixCall)
    requires maps.Loaded()
    ensures EchoedAll(plant, maps, [call]) == Echoed(plant, maps, call)
  {
  }

  /** The matrix call a ready route comes down to. */
  function CallOf(plant: Plant, m: RouterMap, output: nat, input: nat): MatrixCall
    requires Ready(plant, m, output, input)
  {
    var k := KeyAt(m, Output, output);
    if m.kind == AudioRouter then
      SetDestination(k.host, k.slot,
        if input == 0 then NULL_STREAM_ADDRESS
        else
          var g := KeyAt(m, Input, input - 1);
          plant.matrices[g.host].sources[g.slot].stream)
    else SetGpo(k.host, k.slot, Target(plant, m, input).link)
  }

  lemma ReadyRouteIsOneCall(plant: Plant, m: RouterMap, output: nat, input: nat)
    requires Ready(plant, m, output, input)
    ensures |CommandsIn(m, output, input)| == 1 && Sendable(CommandsIn(m, output, input)[0])
    ensures CallsFor(plant.matrices, CommandsIn(m, output, input)[0]) == [CallOf(plant, m, output, input)]
  {
  }

  /** Carrying out a ready route is one echoed call. */
  lemma ActivatedIsEchoed(plant: Plant, maps: MapSet, router: int, output: nat, input: nat)
    requires maps.Loaded() && router in maps.byNumber && Ready(plant, maps.byNumber[router], output, input)
    ensures Activated(plant, maps, router, output, input) ==
            Echoed(plant, maps, CallOf(plant, maps.byNumber[router], output, input))
  {
    var m := maps.byNumber[router];
    var commands := CommandsIn(m, output, input);
    ReadyRouteIsOneCall(plant, m, output, input);
    hide Ready, CommandsIn, CallsFor, CallOf, Carried, EchoedAll, Echoed;
    assert commands == [commands[0]];
    OneCommand(plant, maps, commands[0]);
    OneCall(plant, maps, CallOf(plant, m, output, input));
  }

  /** Matrices differ only in what they output. */
  ghost predicate SameInputs(a: Matrices, b: Matrices) {
    && a.Keys == b.Keys
    && forall h :: h in a ==>
         && a[h].sources == b[h].sources && a[h].gpis == b[h].gpis
         && |a[h].destinations| == |b[h].destinations| && |a[h].gpos| == |b[h].gpos|
  }

  ghost predicate SameSlots(a: Database, b: Database) {
    && a.nodes == b.nodes && a.sources == b.sources && a.gpis == b.gpis
    && a.destinations.rows.Keys == b.destinations.rows.Keys && a.gpos.rows.Keys == b.gpos.rows.Keys
  }

  predicate SetsCrosspoint(call: MatrixCall) {
    call.SetDestination? || call.SetGpo?
  }

  lemma EchoKeepsMatrices(plant: Plant, maps: MapSet, call: MatrixCall)
    requires maps.Loaded() && SetsCrosspoint(call)
    ensures SameInputs(plant.matrices, Echoed(plant, maps, call).matrices)
  {
    hide Handled;
  }

  lemma EchoKeepsInputs(plant: Plant, maps: MapSet, call: MatrixCall)
    requires maps.Loaded() && SetsCrosspoint(call)
    ensures SameInputs(plant.matrices, Echoed(plant, maps, call).matrices)
    ensures SameSlots(plant.db, Echoed(plant, maps, call).db)
  {
    EchoKeepsMatrices(plant, maps, call);
    hide SameInputs;
  }

  lemma EchoKeepsSound(plant: Plant, maps: MapSet, call: MatrixCall)
    requires maps.Valid() && Sound(plant.db, maps)
    ensures Sound(Echoed(plant, maps, call).db, maps)
  {
    hide Sound, Handled;
    if call.host in plant.matrices {
      var m := plant.matrices[call.host];
      match call {
        case SetDestination(h, s, stream) =>
          if s < |m.destinations| {
            HandledKeepsSound(plant.db, maps,
                              DestinationChanged(h, s, m.hostName, m.destinations[s].(stream := stream)));
          }
        case SetGpo(h, s, link) =>
          if s < |m.gpos| {
            HandledKeepsSound(plant.db, maps, GpoChanged(h, s, m.gpos[s].code, m.gpos[s].name, link));
          }
        case SetGpiCode(h, s, code) => HandledKeepsSound(plant.db, maps, GpiChanged(h, s, code));
        case SetGpoCode(h, s, code) =>
          if s < |m.gpos| {
            HandledKeepsSound(plant.db, maps, GpoChanged(h, s, code, m.gpos[s].name, m.gpos[s].link));
          }
      }
    }
  }

  lemma ReadyStays(p: Plant, q: Plant, m: RouterMap, output: nat, input: nat)
    requires SameInputs(p.matrices, q.matrices) && SameSlots(p.db, q.db) && Ready(p, m, output, input)
    ensures Ready(q, m, output, input) && Target(p, m, input) == Target(q, m, input)
  {
  }

  /** No link changes but the one of `key`. */
  ghost predicate OnlyLink(a: Database, b: Database, m: RouterMap, key: Key) {
    forall k :: k != key && HasSlot(a, m.kind, Output, k) ==>
      HasSlot(b, m.kind, Output, k) && LinkAt(b, m, k) == LinkAt(a, m, k)
  }

  lemma AudioCallSetsLink(plant: Plant, maps: MapSet, m: RouterMap, output: nat, input: nat)
    requires maps.Loaded() && m.kind == AudioRouter && Ready(plant, m, output, input)
    ensures var q, key := Echoed(plant, maps, CallOf(plant, m, output, input)), KeyAt(m, Output, output);
            && HasSlot(q.db, m.kind, Output, key) && LinkAt(q.db, m, key) == Target(plant, m, input)
            && OnlyLink(plant.db, q.db, m, key)
  {
    assert input == 0 ==> Normalized(NULL_STREAM_ADDRESS) == NULL_STREAM_ADDRESS;
    hide WithGpo, RouterMap.Effective;
  }

  lemma GpioCallSetsLink(plant: Plant, maps: MapSet, m: RouterMap, output: nat, input: nat)
    requires maps.Loaded() && m.kind == GpioRouter && Ready(plant, m, output, input)
    ensures var q, key := Echoed(plant, maps, CallOf(plant, m, output, input)), KeyAt(m, Output, output);
            && HasSlot(q.db, m.kind, Output, key) && LinkAt(q.db, m, key) == Target(plant, m, input)
            && OnlyLink(plant.db, q.db, m, key)
  {
    hide WithDestination, RouterMap.Effective;
  }

  /** The link of the output becomes the target, and no other output changes. */
  lemma CallSetsLink(plant: Plant, maps: MapSet, m: RouterMap, output: nat, input: nat)
    requires maps.Loaded() && Ready(plant, m, output, input)
    ensures var q, key := Echoed(plant, maps, CallOf(plant, m, output, input)), KeyAt(m, Output, output);
            && HasSlot(q.db, m.kind, Output, key) && LinkAt(q.db, m, key) == Target(plant, m, input)
            && OnlyLink(plant.db, q.db, m, key)
  {
    hide Echoed, CallOf, OnlyLink, Target;
    if m.kind == AudioRouter {
      AudioCallSetsLink(plant, maps, m, output, input);
    } else {
      GpioCallSetsLink(plant, maps, m, output, input);
    }
  }

  // ----- What is reported -----

  /** The index row of a live map entry. */
  lemma IndexRowOf<L, D>(t: Table<L, D>, maps: MapSet, role: Role, router: int, n: nat, key: Key) returns (i: nat)
    requires maps.Valid() && Agrees(t, maps, role) && router in maps.byNumber && maps.byNumber[router].kind == role.kind
    requires key in t.rows && maps.byNumber[router].NumberOf(role.end, IPv4(key.host), key.slot) == n
    ensures i in t.index && t.index[i].router == router && t.index[i].key == key && t.index[i].number == n
    ensures t.index[i].link == t.rows[key].link
    ensures forall j :: j in t.index && t.index[j].router == router && t.index[j].number == n ==> j == i
  {
    assert Listed(maps, role, router, key);
    assert HasRow(t, router, key);
    i :| i in t.index && t.index[i].router == router && t.index[i].key == key;
    assert RowRight(t, maps, role, t.index[i]);
    forall j | j in t.index && t.index[j].router == router && t.index[j].number == n
      ensures j == i
    {
      NumberIsUnique(t, maps, role, i, j);
    }
  }

  /** The stored stream of an input is the one its matrix reports. */
  predicate Mirrored(plant: Plant, m: RouterMap, input: nat)
    requires input == 0 || Live(plant, m, Input, input - 1)
  {
    input > 0 && m.kind == AudioRouter ==>
      var key := KeyAt(m, Input, input - 1);
      plant.db.sources.rows[key].link == Normalized(plant.matrices[key.host].sources[key.slot].stream)
  }

  /** An audio input carries a stream that the listing does not filter out. */
  predicate HasStream(db: Database, m: RouterMap, input: nat)
    requires input > 0 ==> m.HostAt(Input, input - 1).IPv4? && m.SlotAt(Input, input - 1) >= 0
  {
    input > 0 && m.kind == AudioRouter ==>
      && KeyAt(m, Input, input - 1) in db.sources.rows
      && db.sources.rows[KeyAt(m, Input, input - 1)].link !in
         {Null, ZERO_ADDRESS, BROADCAST_ADDRESS, NULL_STREAM_ADDRESS}
  }

  /** The output carries what stands for the input. */
  ghost predicate Connects(plant: Plant, m: RouterMap, output: nat, input: nat) {
    && Ready(plant, m, output, input) && Mirrored(plant, m, input)
    && LinkAt(plant.db, m, KeyAt(m, Output, output)) == Target(plant, m, input)
  }

  /** The join has exactly one row for a connected audio output that is on. */
  lemma AudioOnReported(plant: Plant, maps: MapSet, router: int, output: nat, input: nat, q: seq<RouteRow>)
    requires maps.Valid() && IndexAgreement(plant.db, maps) && router in maps.byNumber
    requires maps.byNumber[router].kind == AudioRouter && input > 0
    requires Connects(plant, maps.byNumber[router], output, input)
    requires HasStream(plant.db, maps.byNumber[router], input)
    requires DistinctStreams(plant.db, router) && AnswersOne(q, plant.db, AudioRouter, router, output)
    ensures OneLine(router, q, output) == Line(router + 1, output + 1, input)
  {
    hide Agrees;
    var db, m := plant.db, maps.byNumber[router];
    var d := IndexRowOf(db.destinations, maps, DESTINATIONS, router, output, KeyAt(m, Output, output));
    var s := IndexRowOf(db.sources, maps, SOURCES, router, input - 1, KeyAt(m, Input, input - 1));
    var r := RouteRow(d, Some(s), output, Some(input - 1));
    assert Joins(db, AudioRouter, router, r);
    assert r in q && q[0] in q;
    hide Connects, Ready, Mirrored;
    OneRowPerOutput(db, maps, AudioRouter, router, r, q[0]);
  }

  /** An output whose link is no stream joins nothing. */
  lemma AudioOffReported(plant: Plant, maps: MapSet, router: int, output: nat, input: nat, q: seq<RouteRow>)
    requires maps.Valid() && IndexAgreement(plant.db, maps) && router in maps.byNumber
    requires maps.byNumber[router].kind == AudioRouter && Connects(plant, maps.byNumber[router], output, input)
    requires input == 0 || !HasStream(plant.db, maps.byNumber[router], input)
    requires AnswersOne(q, plant.db, AudioRouter, router, output)
    ensures OneLine(router, q, output) == Line(router + 1, output + 1, 0)
  {
    hide Agrees;
    var db, m := plant.db, maps.byNumber[router];
    var d := IndexRowOf(db.destinations, maps, DESTINATIONS, router, output, KeyAt(m, Output, output));
    assert !Routable(db.destinations.index[d].link);
    hide Connects, Ready, Routable, HasStream;
    forall r | Joins(db, AudioRouter, router, r)
      ensures r.output != output
    {
    }
  }

  lemma GpioOnReported(plant: Plant, maps: MapSet, router: int, output: nat, input: nat, q: seq<RouteRow>)
    requires maps.Valid() && IndexAgreement(plant.db, maps) && router in maps.byNumber
    requires maps.byNumber[router].kind == GpioRouter && input > 0
    requires Connects(plant, maps.byNumber[router], output, input)
    requires AnswersOne(q, plant.db, GpioRouter, router, output)
    ensures OneLine(router, q, output) == Line(router + 1, output + 1, input)
  {
    hide Agrees;
    var db, m := plant.db, maps.byNumber[router];
    var d := IndexRowOf(db.gpos, maps, GPOS, router, output, KeyAt(m, Output, output));
    var s := IndexRowOf(db.gpis, maps, GPIS, router, input - 1, KeyAt(m, Input, input - 1));
    assert Follows(db.gpos.index[d], db.gpis.index[s]);
    hide Connects, Ready;
    var r := RouteRow(d, Some(s), output, Some(input - 1));
    assert Joins(db, GpioRouter, router, r);
    assert r in q && q[0] in q;
    OneRowPerOutput(db, maps, GpioRouter, router, r, q[0]);
  }

  lemma GpioOffReported(plant: Plant, maps: MapSet, router: int, output: nat, q: seq<RouteRow>)
    requires maps.Valid() && IndexAgreement(plant.db, maps) && router in maps.byNumber
    requires maps.byNumber[router].kind == GpioRouter && Connects(plant, maps.byNumber[router], output, 0)
    requires AnswersOne(q, plant.db, GpioRouter, router, output)
    ensures OneLine(router, q, output) == Line(router + 1, output + 1, 0)
  {
    hide Agrees;
    var db, m := plant.db, maps.byNumber[router];
    var d := IndexRowOf(db.gpos, maps, GPOS, router, output, KeyAt(m, Output, output));
    assert db.gpos.index[d].link == NO_GPI;
    hide Connects, Ready;
    forall r | Joins(db, GpioRouter, router, r) && r.output == output
      ensures r.input == None
    {
      assert r.destination == d;
    }
    if q != [] {
      assert q[0] in q;
    }
  }

  /**
   * A connected output is reported with its input, whichever kind of router and whichever input, OFF included;
   * except that an audio input without a stream reads as OFF.
   */
  lemma ConnectedIsReported(plant: Plant, maps: MapSet, router: int, output: nat, input: nat, q: seq<RouteRow>)
    requires maps.Valid() && IndexAgreement(plant.db, maps) && router in maps.byNumber
    requires var m := maps.byNumber[router];
             && Connects(plant, m, output, input) && AnswersOne(q, plant.db, m.kind, router, output)
             && (m.kind == AudioRouter ==> DistinctStreams(plant.db, router))
    ensures OneLine(router, q, output) ==
            Line(router + 1, output + 1, if HasStream(plant.db, maps.byNumber[router], input) then input else 0)
  {
    if maps.byNumber[router].kind == AudioRouter {
      hide IndexAgreement, Connects, AnswersOne, DistinctStreams, HasStream, Ready;
      if input == 0 || !HasStream(plant.db, maps.byNumber[router], input) {
        AudioOffReported(plant, maps, router, output, input, q);
      } else {
        AudioOnReported(plant, maps, router, output, input, q);
      }
    } else {
      hide IndexAgreement, Connects, AnswersOne, DistinctStreams;
      if input == 0 {
        GpioOffReported(plant, maps, router, output, q);
      } else {
        GpioOnReported(plant, maps, router, output, input, q);
      }
    }
  }

  // ----- What the event log concludes -----

  /** `ok` is what the finaliser makes of a logged route, given that it reads the first row the database returns. */
  ghost predicate Finalized(db: Database, kind: RouterKind, e: RouteEvent, ok: bool) {
    if kind == AudioRouter then
      if e.input < 0 then
        var at := (i: nat) => i in db.destinations.index && db.destinations.index[i].router == e.router
                              && db.destinations.index[i].number == e.output;
        (exists i :: at(i) && ok == (db.destinations.index[i].link == NULL_STREAM_ADDRESS))
        || (!ok && forall i :: !at(i))
      else
        ok <==> exists i, j :: i in db.destinations.index && j in db.sources.index && LoggedAudio(db, e, i, j)
    else if e.input < 0 then
      ok <==> exists i :: i in db.gpos.index && db.gpos.index[i].router == e.router
                          && db.gpos.index[i].number == e.output && db.gpos.index[i].link.slot < 0
    else
      ok <==> exists i, j :: i in db.gpos.index && j in db.gpis.index && LoggedGpio(db, e, i, j)
  }

  predicate LoggedAudio(db: Database, e: RouteEvent, i: nat, j: nat)
    requires i in db.destinations.index && j in db.sources.index
  {
    var d, s := db.destinations.index[i], db.sources.index[j];
    d.link == s.link && s.router == d.router == e.router && s.number == e.input && d.number == e.output
  }

  predicate LoggedGpio(db: Database, e: RouteEvent, i: nat, j: nat)
    requires i in db.gpos.index && j in db.gpis.index
  {
    var d, s := db.gpos.index[i], db.gpis.index[j];
    Follows(d, s) && d.router == e.router && s.number == e.input && d.number == e.output
  }

  /**
   * A logged audio route is finalised as done exactly if its output has the stream that stands for the input: for
   * OFF the null address. What was asked for has no part in it.
   */
  lemma AudioIsFinalized(plant: Plant, maps: MapSet, router: int, output: nat, input: nat, ok: bool)
    requires maps.Valid() && IndexAgreement(plant.db, maps) && router in maps.byNumber
    requires var m := maps.byNumber[router];
             m.kind == AudioRouter && Ready(plant, m, output, input) && Mirrored(plant, m, input)
    requires Finalized(plant.db, AudioRouter, RouteEvent(router, output, input - 1), ok)
    ensures var m := maps.byNumber[router];
            ok <==> LinkAt(plant.db, m, KeyAt(m, Output, output)) == Target(plant, m, input)
  {
    hide Agrees;
    var db, m, e := plant.db, maps.byNumber[router], RouteEvent(router, output, input - 1);
    var d := IndexRowOf(db.destinations, maps, DESTINATIONS, router, output, KeyAt(m, Output, output));
    if input > 0 {
      var s := IndexRowOf(db.sources, maps, SOURCES, router, input - 1, KeyAt(m, Input, input - 1));
      assert LoggedAudio(db, e, d, s) <==> db.destinations.index[d].link == db.sources.index[s].link;
      hide Ready, Mirrored;
      forall i, j | i in db.destinations.index && j in db.sources.index && LoggedAudio(db, e, i, j)
        ensures i == d && j == s
      {
      }
    }
  }

  /**
   * A logged GPIO route is finalised as done exactly if its output follows the input's own slot; for OFF exactly if
   * the slot it follows is negative.
   */
  lemma GpioIsFinalized(plant: Plant, maps: MapSet, router: int, output: nat, input: nat, ok: bool)
    requires maps.Valid() && IndexAgreement(plant.db, maps) && router in maps.byNumber
    requires maps.byNumber[router].kind == GpioRouter && Ready(plant, maps.byNumber[router], output, input)
    requires Finalized(plant.db, GpioRouter, RouteEvent(router, output, input - 1), ok)
    ensures var m := maps.byNumber[router];
            var at := LinkAt(plant.db, m, KeyAt(m, Output, output));
            ok <==> if input == 0 then at.link.slot < 0 else at == Target(plant, m, input)
  {
    hide Agrees;
    var db, m, e := plant.db, maps.byNumber[router], RouteEvent(router, output, input - 1);
    var d := IndexRowOf(db.gpos, maps, GPOS, router, output, KeyAt(m, Output, output));
    if input > 0 {
      var s := IndexRowOf(db.gpis, maps, GPIS, router, input - 1, KeyAt(m, Input, input - 1));
      assert LoggedGpio(db, e, d, s) <==> db.gpos.index[d].link == Target(plant, m, input).link;
      hide Ready;
      forall i, j | i in db.gpos.index && j in db.gpis.index && LoggedGpio(db, e, i, j)
        ensures i == d && j == s
      {
      }
    }
  }

  /** The output has what stands for the input; a GPO is off when it follows a negative slot. */
  predicate Carries(plant: Plant, m: RouterMap, output: nat, input: nat)
    requires Ready(plant, m, output, input)
  {
    var at := LinkAt(plant.db, m, KeyAt(m, Output, output));
    if m.kind == GpioRouter && input == 0 then at.link.slot < 0 else at == Target(plant, m, input)
  }

  lemma RouteIsFinalized(plant: Plant, maps: MapSet, router: int, output: nat, input: nat, ok: bool)
    requires maps.Valid() && IndexAgreement(plant.db, maps) && router in maps.byNumber
    requires Ready(plant, maps.byNumber[router], output, input) && Mirrored(plant, maps.byNumber[router], input)
    requires Finalized(plant.db, maps.byNumber[router].kind, RouteEvent(router, output, input - 1), ok)
    ensures ok <==> Carries(plant, maps.byNumber[router], output, input)
  {
    hide Ready, Mirrored, Finalized, IndexAgreement;
    if maps.byNumber[router].kind == AudioRouter {
      AudioIsFinalized(plant, maps, router, output, input, ok);
    } else {
      GpioIsFinalized(plant, maps, router, output, input, ok);
    }
  }

  // ----- The closed loop -----

  lemma ActivationConnects(plant: Plant, maps: MapSet, router: int, output: nat, input: nat)
    requires maps.Valid() && Sound(plant.db, maps) && router in maps.byNumber
    requires Ready(plant, maps.byNumber[router], output, input) && Mirrored(plant, maps.byNumber[router], input)
    ensures var q := Activated(plant, maps, router, output, input);
            Sound(q.db, maps) && Connects(q, maps.byNumber[router], output, input)
            && SameInputs(plant.matrices, q.matrices) && SameSlots(plant.db, q.db)
            && OnlyLink(plant.db, q.db, maps.byNumber[router], KeyAt(maps.byNumber[router], Output, output))
  {
    var m := maps.byNumber[router];
    var call := CallOf(plant, m, output, input);
    hide Sound, Activated, Echoed, Ready, CallOf, OnlyLink;
    ActivatedIsEchoed(plant, maps, router, output, input);
    EchoKeepsSound(plant, maps, call);
    EchoKeepsInputs(plant, maps, call);
    CallSetsLink(plant, maps, m, output, input);
    ReadyStays(plant, Echoed(plant, maps, call), m, output, input);
    MirrorStays(plant, Echoed(plant, maps, call), m, input);
  }

  lemma MirrorStays(p: Plant, q: Plant, m: RouterMap, input: nat)
    requires SameInputs(p.matrices, q.matrices) && SameSlots(p.db, q.db)
    requires (input == 0 || Live(p, m, Input, input - 1)) && Mirrored(p, m, input)
    ensures (input == 0 || Live(q, m, Input, input - 1)) && Mirrored(q, m, input)
  {
  }
}
