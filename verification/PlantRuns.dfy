/**
 * Runs of a whole plant: matrices are found, connect, report changes, are told to change, and disconnect, and
 * the tables follow. In every reachable plant the tables hold what the connected matrices report, so that a route
 * between connected slots does what it says.
 */
module PlantRuns {
  import opened Addresses
  import opened EndPointMaps
  import opened RoutingTables
  import opened RoutingDatabase
  import opened Text
  import opened Ipc
  import opened Core
  import opened RouteStat
  import opened RouteService

  // ----- Steps -----

  datatype PlantStep =
    | Found(host: IPv4Number, image: MatrixImage)
    | ComesUp(host: IPv4Number)
    | GoesDown(host: IPv4Number)
    | SourceReports(host: IPv4Number, slot: nat, source: SourceImage)
    | DestinationReports(host: IPv4Number, slot: nat, destination: DestinationImage)
    | GpiReports(host: IPv4Number, slot: nat, code: string)
    | GpoReports(host: IPv4Number, slot: nat, code: string, name: string, link: GpoLink)
    | Requested(text: string)

  const NO_PLANT := Plant(EmptyDatabase(), map[])

  /** A matrix may become another while it is not connected; connected, it reports every change of a slot. */
  predicate CanHappen(plant: Plant, step: PlantStep) {
    match step
    case Found(h, _) => h !in plant.db.nodes
    case ComesUp(h) => h in plant.matrices && h !in plant.db.nodes
    case GoesDown(h) => h in plant.matrices
    case SourceReports(h, s, _) => h in plant.matrices && s < |plant.matrices[h].sources|
    case DestinationReports(h, s, _) => h in plant.matrices && s < |plant.matrices[h].destinations|
    case GpiReports(h, s, _) => h in plant.matrices && s < |plant.matrices[h].gpis|
    case GpoReports(h, s, _, _, _) => h in plant.matrices && s < |plant.matrices[h].gpos|
    case Requested(_) => true
  }

  function ImageAfter(m: MatrixImage, step: PlantStep): MatrixImage {
    match step
    case SourceReports(_, s, source) => if s < |m.sources| then m.(sources := m.sources[s := source]) else m
    case DestinationReports(_, s, d) => if s < |m.destinations| then m.(destinations := m.destinations[s := d]) else m
    case GpiReports(_, s, code) => if s < |m.gpis| then m.(gpis := m.gpis[s := code]) else m
    case GpoReports(_, s, code, name, link) =>
      if s < |m.gpos| then m.(gpos := m.gpos[s := m.gpos[s].(code := code, name := name, link := link)]) else m
    case _ => m
  }

  /** What the core is told of a report. */
  function EventOf(m: MatrixImage, step: PlantStep): Event
    requires !step.Found? && !step.Requested?
  {
    match step
    case ComesUp(h) => Connected(h, m)
    case GoesDown(h) => Disconnected(h)
    case SourceReports(h, s, source) => SourceChanged(h, s, m.hostName, source)
    case DestinationReports(h, s, d) => DestinationChanged(h, s, m.hostName, d)
    case GpiReports(h, s, code) => GpiChanged(h, s, code)
    case GpoReports(h, s, code, name, link) => GpoChanged(h, s, code, name, link)
  }

  function Happened(plant: Plant, maps: MapSet, step: PlantStep): Plant
    requires maps.Loaded()
  {
    match step
    case Found(h, image) => plant.(matrices := plant.matrices[h := image])
    case Requested(text) => EchoedAll(plant, maps, Forwarded(true, plant.matrices, text))
    case _ =>
      if step.host !in plant.matrices then plant
      else
        var m := plant.matrices[step.host];
        Plant(Handled(plant.db, maps, EventOf(m, step)), plant.matrices[step.host := ImageAfter(m, step)])
  }

  predicate IsPlantRun(plant: Plant, maps: MapSet, steps: seq<PlantStep>)
    requires maps.Loaded()
    decreases |steps|
  {
    steps == [] || (CanHappen(plant, steps[0]) && IsPlantRun(Happened(plant, maps, steps[0]), maps, steps[1..]))
  }

  function PlantAfter(plant: Plant, maps: MapSet, steps: seq<PlantStep>): Plant
    requires maps.Loaded()
    decreases |steps|
  {
    if steps == [] then plant else PlantAfter(Happened(plant, maps, steps[0]), maps, steps[1..])
  }

  // ----- The tables hold what is reported -----

  ghost predicate SourcesHeld(t: Table<HostAddress, SourceData>, host: IPv4Number, image: MatrixImage) {
    forall s: nat ::
      (Key(host, s) in t.rows <==> s < |image.sources|) &&
      (s < |image.sources| ==>
         var row, source := t.rows[Key(host, s)], image.sources[s];
         && row.link == Normalized(source.stream) && row.data.hostName == image.hostName
         && row.data.name == source.name && row.data.enabled == source.enabled
         && row.data.channels == source.channels && row.data.blockSize == source.blockSize)
  }

  ghost predicate DestinationsHeld(t: Table<HostAddress, DestinationData>, host: IPv4Number, image: MatrixImage) {
    forall s: nat ::
      (Key(host, s) in t.rows <==> s < |image.destinations|) &&
      (s < |image.destinations| ==>
         var row, d := t.rows[Key(host, s)], image.destinations[s];
         && row.link == Normalized(d.stream) && row.data.hostName == image.hostName
         && row.data.name == d.name && row.data.channels == d.channels)
  }

  ghost predicate GpisHeld(t: Table<(), GpiData>, host: IPv4Number, image: MatrixImage) {
    forall s: nat ::
      (Key(host, s) in t.rows <==> s < |image.gpis|) &&
      (s < |image.gpis| ==>
         var d := t.rows[Key(host, s)].data;
         d.hostName == image.hostName && Lower(d.code) == Lower(image.gpis[s]))
  }

  ghost predicate GposHeld(t: Table<GpoLink, GpoData>, host: IPv4Number, image: MatrixImage) {
    forall s: nat ::
      (Key(host, s) in t.rows <==> s < |image.gpos|) &&
      (s < |image.gpos| ==>
         var row, g := t.rows[Key(host, s)], image.gpos[s];
         && row.link == g.link && row.data.hostName == image.hostName
         && (Lower(row.data.code) == Lower(g.code) || Lower(row.data.code) == Lower(g.bundleCode))
         && (row.data.name == g.name || (g.name == "" && row.data.name == "GPO " + PrintNat(s + 1))))
  }

  ghost predicate NodeHeld(n: NodeRow, image: MatrixImage) {
    && n.hostName == image.hostName && n.deviceName == image.deviceName && n.matrixType == image.matrixType
    && n.sources == |image.sources| && n.destinations == |image.destinations|
    && n.gpis == |image.gpis| && n.gpos == |image.gpos|
  }

  /** The rows of a host are its image, column by column: one for the node and one for each slot. */
  ghost predicate AsReported(db: Database, host: IPv4Number, image: MatrixImage)
    requires host in db.nodes
  {
    && NodeHeld(db.nodes[host], image)
    && SourcesHeld(db.sources, host, image) && DestinationsHeld(db.destinations, host, image)
    && GpisHeld(db.gpis, host, image) && GposHeld(db.gpos, host, image)
  }

  ghost predicate Faithful(plant: Plant, maps: MapSet) {
    && Sound(plant.db, maps)
    && forall h :: h in plant.db.nodes ==> h in plant.matrices && AsReported(plant.db, h, plant.matrices[h])
  }

  /** Nothing of any other host changes. */
  ghost predicate Elsewhere(a: Database, b: Database, host: IPv4Number) {
    && (forall h :: h != host ==> (h in a.nodes <==> h in b.nodes) && (h in a.nodes ==> a.nodes[h] == b.nodes[h]))
    && SameElsewhere(a.sources, b.sources, host) && SameElsewhere(a.destinations, b.destinations, host)
    && SameElsewhere(a.gpis, b.gpis, host) && SameElsewhere(a.gpos, b.gpos, host)
  }

  lemma AsReportedElsewhere(a: Database, b: Database, host: IPv4Number, h: IPv4Number, image: MatrixImage)
    requires Elsewhere(a, b, host) && h != host && h in a.nodes && AsReported(a, h, image)
    ensures h in b.nodes && AsReported(b, h, image)
  {
  }

  /** A step of one host keeps faith when it does so for that host. */
  lemma OneHostChanges(plant: Plant, next: Plant, maps: MapSet, host: IPv4Number)
    requires Faithful(plant, maps) && Sound(next.db, maps) && Elsewhere(plant.db, next.db, host)
    requires forall h :: h != host && h in plant.matrices ==>
               h in next.matrices && next.matrices[h] == plant.matrices[h]
    requires host in next.db.nodes ==> host in next.matrices && AsReported(next.db, host, next.matrices[host])
    ensures Faithful(next, maps)
  {
    hide Sound, AsReported;
    forall h | h in next.db.nodes
      ensures h in next.matrices && AsReported(next.db, h, next.matrices[h])
    {
      if h != host {
        AsReportedElsewhere(plant.db, next.db, host, h, plant.matrices[h]);
      }
    }
  }

  // ----- Connecting and disconnecting -----

  lemma SourcesComeUp(t: Table<HostAddress, SourceData>, host: IPv4Number, image: MatrixImage)
    requires Holds(t, host, image.SourceSlots())
    ensures SourcesHeld(t, host, image)
  {
  }

  lemma DestinationsComeUp(t: Table<HostAddress, DestinationData>, host: IPv4Number, image: MatrixImage)
    requires Holds(t, host, image.DestinationSlots())
    ensures DestinationsHeld(t, host, image)
  {
  }

  lemma GpisComeUp(t: Table<(), GpiData>, host: IPv4Number, image: MatrixImage)
    requires Holds(t, host, image.GpiSlots())
    ensures GpisHeld(t, host, image)
  {
  }

  lemma GposComeUp(t: Table<GpoLink, GpoData>, host: IPv4Number, image: MatrixImage)
    requires Holds(t, host, image.GpoSlots())
    ensures GposHeld(t, host, image)
  {
  }

  lemma ComesUpAsReported(db: Database, maps: MapSet, host: IPv4Number, image: MatrixImage)
    requires maps.Valid() && Sound(db, maps) && host !in db.nodes
    ensures var after := WithNode(db, maps, host, image);
            Elsewhere(db, after, host) && AsReported(after, host, image)
  {
    hide Sound, HostAdded, Holds, SameElsewhere, SourcesHeld, DestinationsHeld, GpisHeld, GposHeld;
    hide MatrixImage.SourceSlots, MatrixImage.DestinationSlots, MatrixImage.GpiSlots, MatrixImage.GpoSlots;
    var after := WithNode(db, maps, host, image);
    TablesComeUp(db, maps, host, image);
    SourcesComeUp(after.sources, host, image);
    DestinationsComeUp(after.destinations, host, image);
    GpisComeUp(after.gpis, host, image);
    GposComeUp(after.gpos, host, image);
  }

  lemma TablesComeUp(db: Database, maps: MapSet, host: IPv4Number, image: MatrixImage)
    requires maps.Valid() && Sound(db, maps) && host !in db.nodes
    ensures var after := WithNode(db, maps, host, image);
            && Holds(after.sources, host, image.SourceSlots()) && SameElsewhere(db.sources, after.sources, host)
            && Holds(after.destinations, host, image.DestinationSlots())
            && SameElsewhere(db.destinations, after.destinations, host)
            && Holds(after.gpis, host, image.GpiSlots()) && SameElsewhere(db.gpis, after.gpis, host)
            && Holds(after.gpos, host, image.GpoSlots()) && SameElsewhere(db.gpos, after.gpos, host)
  {
    assert ShapedAt(db, host);
    hide Agrees, HostAdded, Sized, Holds, SameElsewhere, Shaped, StreamsNormal;
    hide MatrixImage.SourceSlots, MatrixImage.DestinationSlots, MatrixImage.GpiSlots, MatrixImage.GpoSlots;
    TableConnected(db.sources, maps, SOURCES, host, image.SourceSlots());
    TableConnected(db.destinations, maps, DESTINATIONS, host, image.DestinationSlots());
    TableConnected(db.gpis, maps, GPIS, host, image.GpiSlots());
    TableConnected(db.gpos, maps, GPOS, host, image.GpoSlots());
  }

  lemma GoesDownElsewhere(db: Database, host: IPv4Number)
    ensures Elsewhere(db, WithoutNode(db, host), host)
  {
  }

  // ----- Changes -----

  lemma RowChanged<L, D>(t: Table<L, D>, key: Key, link: L, data: D)
    ensures var u := LinkChanged(DataChanged(t, key, data), key, link);
            && SameElsewhere(t, u, key.host) && u.rows.Keys == t.rows.Keys
            && (forall k :: k in t.rows && k != key ==> u.rows[k] == t.rows[k])
            && (key in t.rows ==> u.rows[key].link == link && u.rows[key].data == data)
  {
  }

  lemma SourceAsReported(db: Database, host: IPv4Number, image: MatrixImage, s: nat, source: SourceImage)
    requires s < |image.sources|
    ensures var after := WithSource(db, Key(host, s), image.hostName, source);
            && Elsewhere(db, after, host)
            && (host in db.nodes && AsReported(db, host, image) ==>
                  AsReported(after, host, image.(sources := image.sources[s := source])))
  {
    hide LinkChanged, DataChanged, DestinationsHeld, GpisHeld, GposHeld;
    RowChanged(db.sources, Key(host, s), Normalized(source.stream), SourceRow(image.hostName, source));
    SameOthers(db, host, image, image.(sources := image.sources[s := source]));
  }

  lemma DestinationAsReported(db: Database, host: IPv4Number, image: MatrixImage, s: nat, d: DestinationImage)
    requires s < |image.destinations|
    ensures var after := WithDestination(db, Key(host, s), image.hostName, d);
            && Elsewhere(db, after, host)
            && (host in db.nodes && AsReported(db, host, image) ==>
                  AsReported(after, host, image.(destinations := image.destinations[s := d])))
  {
    hide LinkChanged, DataChanged, SourcesHeld, GpisHeld, GposHeld;
    RowChanged(db.destinations, Key(host, s), Normalized(d.stream), DestinationRow(image.hostName, d));
    SameOthers(db, host, image, image.(destinations := image.destinations[s := d]));
  }

  /** What a table holds of an image depends on that part of the image alone. */
  lemma SameOthers(db: Database, host: IPv4Number, image: MatrixImage, next: MatrixImage)
    requires next.hostName == image.hostName
    ensures next.sources == image.sources ==>
              (SourcesHeld(db.sources, host, image) ==> SourcesHeld(db.sources, host, next))
    ensures next.destinations == image.destinations ==>
              (DestinationsHeld(db.destinations, host, image) ==> DestinationsHeld(db.destinations, host, next))
    ensures next.gpis == image.gpis ==> (GpisHeld(db.gpis, host, image) ==> GpisHeld(db.gpis, host, next))
    ensures next.gpos == image.gpos ==> (GposHeld(db.gpos, host, image) ==> GposHeld(db.gpos, host, next))
  {
  }

  lemma LowerTwice(s: string)
    ensures Lower(Lower(s)) == Lower(s)
  {
  }

  lemma GpiAsReported(db: Database, host: IPv4Number, image: MatrixImage, s: nat, code: string)
    requires s < |image.gpis|
    ensures var after := WithGpi(db, Key(host, s), code);
            && Elsewhere(db, after, host)
            && (host in db.nodes && AsReported(db, host, image) ==>
                  AsReported(after, host, image.(gpis := image.gpis[s := code])))
  {
    hide Lower, SourcesHeld, DestinationsHeld, GposHeld;
    LowerTwice(code);
    SameOthers(db, host, image, image.(gpis := image.gpis[s := code]));
  }

  lemma GpoAsReported(
      db: Database, host: IPv4Number, image: MatrixImage, s: nat, code: string, name: string, link: GpoLink)
    requires s < |image.gpos|
    ensures var after := WithGpo(db, Key(host, s), code, name, link);
            && Elsewhere(db, after, host)
            && (host in db.nodes && AsReported(db, host, image) ==>
                  AsReported(after, host, GpoReported(image, s, code, name, link)))
  {
    hide Lower, LinkChanged, DataChanged, SourcesHeld, DestinationsHeld, GpisHeld;
    LowerTwice(code);
    var key := Key(host, s);
    var data := if key in db.gpos.rows then db.gpos.rows[key].data.(code := Lower(code), name := name)
                else GpoData("", Lower(code), name);
    RowChanged(db.gpos, key, link, data);
    SameOthers(db, host, image, GpoReported(image, s, code, name, link));
  }

  function GpoReported(image: MatrixImage, s: nat, code: string, name: string, link: GpoLink): MatrixImage
    requires s < |image.gpos|
  {
    image.(gpos := image.gpos[s := image.gpos[s].(code := code, name := name, link := link)])
  }

  // ----- Every step -----

  lemma ReportKeepsFaith(plant: Plant, maps: MapSet, step: PlantStep)
    requires maps.Valid() && Faithful(plant, maps) && CanHappen(plant, step) && !step.Found? && !step.Requested?
    ensures Faithful(Happened(plant, maps, step), maps)
  {
    hide Sound, AsReported, Elsewhere, WithNode, WithoutNode, WithSource, WithDestination, WithGpi, WithGpo,
         MatrixImage.Node;
    var m, next := plant.matrices[step.host], Happened(plant, maps, step);
    HandledKeepsSound(plant.db, maps, EventOf(m, step));
    match step {
      case ComesUp(h) => ComesUpAsReported(plant.db, maps, h, m);
      case GoesDown(h) =>
        GoesDownElsewhere(plant.db, h);
        GoneNode(plant.db, h);
      case SourceReports(h, s, source) =>
        SourceAsReported(plant.db, h, m, s, source);
        NodesStay(plant.db, maps, EventOf(m, step));
      case DestinationReports(h, s, d) =>
        DestinationAsReported(plant.db, h, m, s, d);
        NodesStay(plant.db, maps, EventOf(m, step));
      case GpiReports(h, s, code) =>
        GpiAsReported(plant.db, h, m, s, code);
        NodesStay(plant.db, maps, EventOf(m, step));
      case GpoReports(h, s, code, name, link) =>
        GpoAsReported(plant.db, h, m, s, code, name, link);
        NodesStay(plant.db, maps, EventOf(m, step));
    }
    OneHostChanges(plant, next, maps, step.host);
  }

  lemma GoneNode(db: Database, host: IPv4Number)
    ensures host !in WithoutNode(db, host).nodes
  {
  }

  lemma NodesStay(db: Database, maps: MapSet, e: Event)
    requires maps.Loaded() && !e.Connected? && !e.Disconnected?
    ensures Handled(db, maps, e).nodes == db.nodes
  {
  }

  lemma FoundKeepsFaith(plant: Plant, maps: MapSet, host: IPv4Number, image: MatrixImage)
    requires maps.Loaded() && Faithful(plant, maps) && host !in plant.db.nodes
    ensures Faithful(Happened(plant, maps, Found(host, image)), maps)
  {
    hide Sound, AsReported;
  }

  /** A matrix that carries out a call reports like any other. */
  lemma EchoIsReport(plant: Plant, maps: MapSet, call: MatrixCall)
    requires maps.Loaded()
    ensures Echoed(plant, maps, call) == plant ||
            exists step :: CanHappen(plant, step) && !step.Found? && !step.Requested? &&
                           Echoed(plant, maps, call) == Happened(plant, maps, step)
  {
    hide Handled;
    if call.host in plant.matrices {
      var m := plant.matrices[call.host];
      match call {
        case SetDestination(h, s, stream) =>
          if s < |m.destinations| {
            var step := DestinationReports(h, s, m.destinations[s].(stream := stream));
            assert CanHappen(plant, step) && Echoed(plant, maps, call) == Happened(plant, maps, step);
          }
        case SetGpo(h, s, link) =>
          if s < |m.gpos| {
            var step := GpoReports(h, s, m.gpos[s].code, m.gpos[s].name, link);
            assert CanHappen(plant, step) && Echoed(plant, maps, call) == Happened(plant, maps, step);
          }
        case SetGpiCode(h, s, code) =>
          if s < |m.gpis| {
            var step := GpiReports(h, s, code);
            assert CanHappen(plant, step) && Echoed(plant, maps, call) == Happened(plant, maps, step);
          }
        case SetGpoCode(h, s, code) =>
          if s < |m.gpos| {
            var step := GpoReports(h, s, code, m.gpos[s].name, m.gpos[s].link);
            assert CanHappen(plant, step) && Echoed(plant, maps, call) == Happened(plant, maps, step);
          }
      }
    }
  }

  lemma {:induction false} EchoesKeepFaith(plant: Plant, maps: MapSet, calls: seq<MatrixCall>)
    requires maps.Valid() && Faithful(plant, maps)
    ensures Faithful(EchoedAll(plant, maps, calls), maps)
    decreases |calls|
  {
    hide Faithful, Echoed, CanHappen, Happened;
    if calls != [] {
      EchoIsReport(plant, maps, calls[0]);
      if Echoed(plant, maps, calls[0]) != plant {
        var step :| CanHappen(plant, step) && !step.Found? && !step.Requested? &&
                    Echoed(plant, maps, calls[0]) == Happened(plant, maps, step);
        ReportKeepsFaith(plant, maps, step);
      }
      EchoesKeepFaith(Echoed(plant, maps, calls[0]), maps, calls[1..]);
    }
  }

  lemma StepKeepsFaith(plant: Plant, maps: MapSet, step: PlantStep)
    requires maps.Valid() && Faithful(plant, maps) && CanHappen(plant, step)
    ensures Faithful(Happened(plant, maps, step), maps)
  {
    if step.Found? {
      FoundKeepsFaith(plant, maps, step.host, step.image);
    } else if step.Requested? {
      EchoesKeepFaith(plant, maps, Forwarded(true, plant.matrices, step.text));
      hide Faithful, EchoedAll, Forwarded;
    } else {
      ReportKeepsFaith(plant, maps, step);
    }
  }

  lemma {:induction false} RunKeepsFaith(plant: Plant, maps: MapSet, steps: seq<PlantStep>)
    requires maps.Valid() && Faithful(plant, maps) && IsPlantRun(plant, maps, steps)
    ensures Faithful(PlantAfter(plant, maps, steps), maps)
    decreases |steps|
  {
    hide Faithful, CanHappen, Happened;
    if steps != [] {
      StepKeepsFaith(plant, maps, steps[0]);
      RunKeepsFaith(Happened(plant, maps, steps[0]), maps, steps[1..]);
    }
  }

  /** In every reachable plant the rows of each connected host equal its matrix's image, column by column. */
  lemma TablesHoldWhatIsReported(maps: MapSet, steps: seq<PlantStep>)
    requires maps.Valid() && IsPlantRun(NO_PLANT, maps, steps)
    ensures Faithful(PlantAfter(NO_PLANT, maps, steps), maps)
  {
    hide IsPlantRun, PlantAfter;
    RunKeepsFaith(NO_PLANT, maps, steps);
  }

  // ----- The closed loop -----

  function CountAt(n: NodeRow, kind: RouterKind, e: End): nat {
    match (kind, e)
    case (AudioRouter, Input) => n.sources
    case (AudioRouter, Output) => n.destinations
    case (GpioRouter, Input) => n.gpis
    case (GpioRouter, Output) => n.gpos
  }

  /** Entry `n` of a map is the first for a slot that its host, a connected node, has. */
  predicate Online(db: Database, m: RouterMap, e: End, n: nat) {
    && m.Effective(e, n) && m.HostAt(e, n).IPv4? && IsSlot(m.SlotAt(e, n))
    && m.HostAt(e, n).number in db.nodes
    && m.SlotAt(e, n) < CountAt(db.nodes[m.HostAt(e, n).number], m.kind, e)
  }

  lemma OnlineIsLive(plant: Plant, maps: MapSet, m: RouterMap, e: End, n: nat)
    requires Faithful(plant, maps) && Online(plant.db, m, e, n)
    ensures Live(plant, m, e, n)
  {
    assert ShapedAt(plant.db, m.HostAt(e, n).number);
    hide IndexAgreement, StreamsNormal, Shaped, RouterMap.Effective;
    hide SourcesHeld, DestinationsHeld, GpisHeld, GposHeld;
  }

  /** Both ends are slots of connected nodes. */
  predicate RouteOnline(db: Database, m: RouterMap, output: nat, input: nat) {
    Online(db, m, Output, output) && (input == 0 || Online(db, m, Input, input - 1))
  }

  lemma OnlineIsReady(plant: Plant, maps: MapSet, m: RouterMap, output: nat, input: nat)
    requires Faithful(plant, maps) && RouteOnline(plant.db, m, output, input)
    ensures Ready(plant, m, output, input) && Mirrored(plant, m, input)
  {
    hide Faithful, Online, Live;
    OnlineIsLive(plant, maps, m, Output, output);
    if input > 0 {
      OnlineIsLive(plant, maps, m, Input, input - 1);
      if m.kind == AudioRouter {
        OnlineIsMirrored(plant, maps, m, input - 1);
      }
    }
  }

  lemma OnlineIsMirrored(plant: Plant, maps: MapSet, m: RouterMap, n: nat)
    requires Faithful(plant, maps) && Online(plant.db, m, Input, n) && m.kind == AudioRouter && Live(plant, m, Input, n)
    ensures var key := KeyAt(m, Input, n);
            plant.db.sources.rows[key].link == Normalized(plant.matrices[key.host].sources[key.slot].stream)
  {
    hide Sound, RouterMap.Effective, DestinationsHeld, GpisHeld, GposHeld;
    var key := KeyAt(m, Input, n);
    assert AsReported(plant.db, key.host, plant.matrices[key.host]);
  }

  /**
   * In any reachable plant, on the active instance, with both ends connected: once the matrix has echoed the
   * activation, the logged event is finalised as done, and RouteStat reports exactly the activated input (0 for
   * OFF), whatever the order of the answer, unless it is an audio input without a stream: that one reads as OFF.
   */
  lemma ClosedLoop(
      maps: MapSet, steps: seq<PlantStep>, router: int, output: nat, input: nat, q: seq<RouteRow>, ok: bool)
    requires maps.Valid() && IsPlantRun(NO_PLANT, maps, steps) && router in maps.byNumber
    requires RouteOnline(PlantAfter(NO_PLANT, maps, steps).db, maps.byNumber[router], output, input)
    ensures var m, plant := maps.byNumber[router], PlantAfter(NO_PLANT, maps, steps);
            var after := Activated(plant, maps, router, output, input).db;
            && (AnswersOne(q, after, m.kind, router, output)
                && (m.kind == AudioRouter ==> DistinctStreams(plant.db, router)) ==>
                  OneLine(router, q, output) ==
                  Line(router + 1, output + 1, if HasStream(plant.db, m, input) then input else 0))
            && (Finalized(after, m.kind, RouteEvent(router, output, input - 1), ok) ==> ok)
  {
    hide IsPlantRun, PlantAfter, Activated, Ready, Mirrored, RouteOnline, AnswersOne, Finalized, IndexAgreement,
         Connects;
    hide DistinctStreams, OneLine, AsReported, Carries;
    var m, plant := maps.byNumber[router], PlantAfter(NO_PLANT, maps, steps);
    var after := Activated(plant, maps, router, output, input);
    TablesHoldWhatIsReported(maps, steps);
    OnlineIsReady(plant, maps, m, output, input);
    ActivationConnects(plant, maps, router, output, input);
    DistinctStays(plant.db, after.db, router);
    if AnswersOne(q, after.db, m.kind, router, output)
      && (m.kind == AudioRouter ==> DistinctStreams(plant.db, router)) {
      ConnectedIsReported(after, maps, router, output, input, q);
    }
    if Finalized(after.db, m.kind, RouteEvent(router, output, input - 1), ok) {
      ConnectedIsReady(after, m, output, input);
      RouteIsFinalized(after, maps, router, output, input, ok);
    }
  }

  lemma ConnectedIsReady(plant: Plant, m: RouterMap, output: nat, input: nat)
    requires Connects(plant, m, output, input)
    ensures Ready(plant, m, output, input) && Mirrored(plant, m, input) && Carries(plant, m, output, input)
  {
  }

  /**
   * Whatever has happened, an event about connected slots is finalised as done exactly if the output then has what
   * stands for the input, so that an activation which came to nothing is found out.
   */
  lemma LogTellsTheTruth(maps: MapSet, steps: seq<PlantStep>, router: int, output: nat, input: nat, ok: bool)
    requires maps.Valid() && IsPlantRun(NO_PLANT, maps, steps) && router in maps.byNumber
    requires RouteOnline(PlantAfter(NO_PLANT, maps, steps).db, maps.byNumber[router], output, input)
    requires Finalized(PlantAfter(NO_PLANT, maps, steps).db, maps.byNumber[router].kind,
                       RouteEvent(router, output, input - 1), ok)
    ensures var m, plant := maps.byNumber[router], PlantAfter(NO_PLANT, maps, steps);
            Ready(plant, m, output, input) && (ok <==> Carries(plant, m, output, input))
  {
    hide IsPlantRun, PlantAfter, Ready, Mirrored, RouteOnline, Finalized, IndexAgreement, AsReported, Carries;
    var m, plant := maps.byNumber[router], PlantAfter(NO_PLANT, maps, steps);
    TablesHoldWhatIsReported(maps, steps);
    OnlineIsReady(plant, maps, m, output, input);
    RouteIsFinalized(plant, maps, router, output, input, ok);
  }

  lemma DistinctStays(a: Database, b: Database, router: int)
    requires SameSlots(a, b)
    ensures DistinctStreams(a, router) ==> DistinctStreams(b, router)
  {
  }
}
