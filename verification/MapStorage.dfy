/** Saving router maps to files, loading them back, and accepting a set of them. */
module MapStorage {
  import opened Addresses
  import opened Text
  import opened EndPointMaps
  import RoutingDatabase

  // ----- Profiles: files of sections with settings, looked up by first match -----

  datatype Line = Header(section: string) | Setting(key: string, value: string) | Remark(text: string) | Blank

  function Lookup(lines: seq<Line>, current: string, section: string, key: string): Option<string>
    decreases |lines|
  {
    if lines == [] then None
    else
      match lines[0]
      case Header(s) => Lookup(lines[1..], s, section, key)
      case Setting(k, v) =>
        if current == section && k == key then Some(v) else Lookup(lines[1..], current, section, key)
      case _ => Lookup(lines[1..], current, section, key)
  }

  function StringValue(lines: seq<Line>, section: string, key: string): Option<string> {
    Lookup(lines, "", section, key)
  }

  function IntValue(lines: seq<Line>, section: string, key: string): Option<int> {
    match StringValue(lines, section, key)
    case None => None
    case Some(v) => ParseInt(v)
  }

  function AddressValue(lines: seq<Line>, section: string, key: string): Option<HostAddress> {
    match StringValue(lines, section, key)
    case None => None
    case Some(v) => if ParseAddress(v) == Null then None else Some(ParseAddress(v))
  }

  function Default<T>(o: Option<T>, otherwise: T): T {
    match o
    case None => otherwise
    case Some(v) => v
  }

  // ----- Names with a number in them -----

  function Label(l: Line): string {
    match l
    case Header(s) => s
    case Setting(k, _) => k
    case _ => ""
  }

  function Numbered(prefix: string, n: nat, suffix: string): string {
    prefix + PrintNat(n + 1) + suffix
  }

  /** The number in such a name, or -1. */
  function NameNumber(text: string, prefix: string, suffix: string): int {
    if |text| < |prefix| + |suffix| || text[..|prefix|] != prefix || text[|text| - |suffix|..] != suffix then -1
    else
      match ParseNat(text[|prefix|..|text| - |suffix|])
      case None => -1
      case Some(n) => n - 1
  }

  lemma NumberReadsBack(prefix: string, n: nat, suffix: string)
    ensures NameNumber(Numbered(prefix, n, suffix), prefix, suffix) == n
  {
    var text := Numbered(prefix, n, suffix);
    ParsePrintNat(n + 1);
    hide PrintNat, ParseNat;
    assert text[..|prefix|] == prefix && text[|text| - |suffix|..] == suffix;
    assert text[|prefix|..|text| - |suffix|] == PrintNat(n + 1);
  }

  /** The lines whose names carry the number `n` or a higher one: what a counting loop has yet to see. */
  function Remaining(lines: seq<Line>, prefix: string, suffix: string, n: nat): set<nat> {
    set i: nat | i < |lines| && NameNumber(Label(lines[i]), prefix, suffix) >= n
  }

  lemma {:induction false} FoundHasLines(lines: seq<Line>, current: string, section: string, key: string)
    requires Lookup(lines, current, section, key).Some?
    ensures current == section || exists i :: 0 <= i < |lines| && Label(lines[i]) == section
    ensures exists i :: 0 <= i < |lines| && Label(lines[i]) == key
    decreases |lines|
  {
    match lines[0] {
      case Setting(k, v) =>
        if current == section && k == key {
          assert Label(lines[0]) == key;
        } else {
          FoundHasLines(lines[1..], current, section, key);
        }
      case Header(s) =>
        if s == section {
          assert Label(lines[0]) == section;
        }
        FoundHasLines(lines[1..], s, section, key);
      case Remark(_) => FoundHasLines(lines[1..], current, section, key);
      case Blank => FoundHasLines(lines[1..], current, section, key);
    }
    if i :| 0 <= i < |lines[1..]| && Label(lines[1..][i]) == section {
      assert Label(lines[i + 1]) == section;
    }
    if i :| 0 <= i < |lines[1..]| && Label(lines[1..][i]) == key {
      assert Label(lines[i + 1]) == key;
    }
  }

  /** Counting past a name that occurs leaves fewer lines. */
  lemma CountingEnds(lines: seq<Line>, prefix: string, suffix: string, n: nat)
    requires exists i :: 0 <= i < |lines| && Label(lines[i]) == Numbered(prefix, n, suffix)
    ensures Remaining(lines, prefix, suffix, n + 1) < Remaining(lines, prefix, suffix, n)
  {
    hide NameNumber, Numbered;
    var i :| 0 <= i < |lines| && Label(lines[i]) == Numbered(prefix, n, suffix);
    NumberReadsBack(prefix, n, suffix);
    assert i in Remaining(lines, prefix, suffix, n) && i !in Remaining(lines, prefix, suffix, n + 1);
  }

  lemma SectionCounts(lines: seq<Line>, prefix: string, n: nat, key: string)
    requires StringValue(lines, Numbered(prefix, n, ""), key).Some?
    ensures Remaining(lines, prefix, "", n + 1) < Remaining(lines, prefix, "", n)
  {
    assert Numbered(prefix, n, "") != "";
    FoundHasLines(lines, "", Numbered(prefix, n, ""), key);
    CountingEnds(lines, prefix, "", n);
  }

  lemma KeyCounts(lines: seq<Line>, section: string, prefix: string, n: nat, suffix: string)
    requires StringValue(lines, section, Numbered(prefix, n, suffix)).Some?
    ensures Remaining(lines, prefix, suffix, n + 1) < Remaining(lines, prefix, suffix, n)
  {
    FoundHasLines(lines, "", section, Numbered(prefix, n, suffix));
    CountingEnds(lines, prefix, suffix, n);
  }

  // ----- Loading -----

  function TypeString(e: End): string {
    match e
    case Input => "Input"
    case Output => "Output"
  }

  function RouterTypeString(k: RouterKind): string {
    match k
    case AudioRouter => "Audio"
    case GpioRouter => "GPIO"
  }

  function EndSection(e: End, n: nat): string {
    Numbered(TypeString(e), n, "")
  }

  function SnapshotSection(n: nat): string {
    Numbered("Snapshot", n, "")
  }

  function RouteKey(n: nat, side: string): string {
    Numbered("Route", n, side)
  }

  function KindFrom(lines: seq<Line>): RouterKind {
    var name := RoutingDatabase.Lower(Default(StringValue(lines, "Global", "RouterType"), ""));
    if RoutingDatabase.Lower(RouterTypeString(GpioRouter)) == name then GpioRouter else AudioRouter
  }

  function EndFrom(lines: seq<Line>, e: End, n: nat, host: HostAddress): EndPoint {
    var name := StringValue(lines, EndSection(e, n), "Name");
    EndPoint(host, Default(IntValue(lines, EndSection(e, n), "Slot"), 0) - 1, Default(name, ""), name.Some?)
  }

  /** End points are read by number until one is missing. */
  function EndsFrom(lines: seq<Line>, e: End, n: nat): seq<EndPoint>
    decreases Remaining(lines, TypeString(e), "", n)
  {
    match AddressValue(lines, EndSection(e, n), "HostAddress")
    case None => []
    case Some(host) =>
      SectionCounts(lines, TypeString(e), n, "HostAddress");
      [EndFrom(lines, e, n, host)] + EndsFrom(lines, e, n + 1)
  }

  function RoutesFrom(lines: seq<Line>, section: string, n: nat): seq<Route>
    decreases Remaining(lines, "Route", "Output", n)
  {
    match IntValue(lines, section, RouteKey(n, "Output"))
    case None => []
    case Some(output) =>
      KeyCounts(lines, section, "Route", n, "Output");
      [Route(output, Default(IntValue(lines, section, RouteKey(n, "Input")), 0))] + RoutesFrom(lines, section, n + 1)
  }

  function SnapshotsFrom(lines: seq<Line>, n: nat): seq<Snapshot>
    decreases Remaining(lines, "Snapshot", "", n)
  {
    match StringValue(lines, SnapshotSection(n), "Name")
    case None => []
    case Some(name) =>
      SectionCounts(lines, "Snapshot", n, "Name");
      [Snapshot(name, RoutesFrom(lines, SnapshotSection(n), 0))] + SnapshotsFrom(lines, n + 1)
  }

  function Loaded(lines: seq<Line>): RouterMap {
    RouterMap(KindFrom(lines), Default(StringValue(lines, "Global", "RouterName"), "Livewire"),
              Default(IntValue(lines, "Global", "RouterNumber"), 1) - 1,
              EndsFrom(lines, Input, 0), EndsFrom(lines, Output, 0), SnapshotsFrom(lines, 0))
  }

  method LoadEnds(lines: seq<Line>, e: End) returns (l: Lists)
    ensures l.Aligned() && l.Zipped() == EndsFrom(lines, e, 0)
  {
    hide StringValue, AddressValue, IntValue, EndSection, Remaining, EndsFrom;
    l := NO_ENDS;
    var count := 0;
    var addr := AddressValue(lines, EndSection(e, count), "HostAddress");
    assert l.Zipped() == [];
    while addr.Some?
      invariant l.Aligned() && EndsFrom(lines, e, 0) == l.Zipped() + EndsFrom(lines, e, count)
      invariant addr == AddressValue(lines, EndSection(e, count), "HostAddress")
      decreases Remaining(lines, TypeString(e), "", count)
    {
      EndCounts(lines, e, count);
      EndsFromNext(lines, e, count);
      ghost var before := l.Zipped();
      var slot := Default(IntValue(lines, EndSection(e, count), "Slot"), 0) - 1;
      var name := StringValue(lines, EndSection(e, count), "Name");
      l := Lists(l.hosts + [addr.value], l.slots + [slot], l.names + [Default(name, "")], l.customs + [name.Some?]);
      assert l.Zipped() == before + [EndFrom(lines, e, count, addr.value)];
      count := count + 1;
      addr := AddressValue(lines, EndSection(e, count), "HostAddress");
    }
    EndsFromNext(lines, e, count);
  }

  lemma EndsFromNext(lines: seq<Line>, e: End, n: nat)
    ensures EndsFrom(lines, e, n) ==
            match AddressValue(lines, EndSection(e, n), "HostAddress")
            case None => []
            case Some(host) => [EndFrom(lines, e, n, host)] + EndsFrom(lines, e, n + 1)
  {
    hide AddressValue, EndSection, EndFrom, Remaining;
  }

  lemma EndCounts(lines: seq<Line>, e: End, n: nat)
    requires AddressValue(lines, EndSection(e, n), "HostAddress").Some?
    ensures Remaining(lines, TypeString(e), "", n + 1) < Remaining(lines, TypeString(e), "", n)
  {
    SectionCounts(lines, TypeString(e), n, "HostAddress");
  }

  method LoadRoutes(lines: seq<Line>, section: string) returns (routes: seq<Route>)
    ensures routes == RoutesFrom(lines, section, 0)
  {
    hide StringValue, Remaining, RouteKey;
    routes := [];
    var route := 0;
    var output := IntValue(lines, section, RouteKey(route, "Output"));
    while output.Some?
      invariant RoutesFrom(lines, section, 0) == routes + RoutesFrom(lines, section, route)
      invariant output == IntValue(lines, section, RouteKey(route, "Output"))
      decreases Remaining(lines, "Route", "Output", route)
    {
      RouteCounts(lines, section, route);
      routes := routes + [Route(output.value, Default(IntValue(lines, section, RouteKey(route, "Input")), 0))];
      route := route + 1;
      output := IntValue(lines, section, RouteKey(route, "Output"));
    }
  }

  lemma RouteCounts(lines: seq<Line>, section: string, n: nat)
    requires IntValue(lines, section, RouteKey(n, "Output")).Some?
    ensures Remaining(lines, "Route", "Output", n + 1) < Remaining(lines, "Route", "Output", n)
  {
    KeyCounts(lines, section, "Route", n, "Output");
  }

  method LoadSnapshots(lines: seq<Line>) returns (snapshots: seq<Snapshot>)
    ensures snapshots == SnapshotsFrom(lines, 0)
  {
    hide StringValue, Remaining, SnapshotSection, RoutesFrom;
    snapshots := [];
    var snap := 0;
    var name := StringValue(lines, SnapshotSection(snap), "Name");
    while name.Some?
      invariant SnapshotsFrom(lines, 0) == snapshots + SnapshotsFrom(lines, snap)
      invariant name == StringValue(lines, SnapshotSection(snap), "Name")
      decreases Remaining(lines, "Snapshot", "", snap)
    {
      SnapshotCounts(lines, snap);
      var routes := LoadRoutes(lines, SnapshotSection(snap));
      snapshots := snapshots + [Snapshot(name.value, routes)];
      snap := snap + 1;
      name := StringValue(lines, SnapshotSection(snap), "Name");
    }
  }

  lemma SnapshotCounts(lines: seq<Line>, n: nat)
    requires StringValue(lines, SnapshotSection(n), "Name").Some?
    ensures Remaining(lines, "Snapshot", "", n + 1) < Remaining(lines, "Snapshot", "", n)
  {
    SectionCounts(lines, "Snapshot", n, "Name");
  }

  /** Into a map that has not been used before. */
  method Load(m: EndPointMap, lines: seq<Line>)
    requires m.inputs == NO_ENDS && m.outputs == NO_ENDS && m.snapshots == []
    modifies m
    ensures m.Valid() && m.Value() == Loaded(lines)
  {
    hide EndsFrom, SnapshotsFrom, StringValue, IntValue, KindFrom;
    m.routerType := KindFrom(lines);
    m.routerName := Default(StringValue(lines, "Global", "RouterName"), "Livewire");
    m.routerNumber := Default(IntValue(lines, "Global", "RouterNumber"), 1) - 1;
    m.inputs := LoadEnds(lines, Input);
    m.outputs := LoadEnds(lines, Output);
    m.snapshots := LoadSnapshots(lines);
  }

  // ----- Saving -----

  datatype Block = Block(section: string, body: seq<Line>)

  function BlockLines(b: Block): seq<Line> {
    [Header(b.section)] + b.body
  }

  function File(blocks: seq<Block>): seq<Line> {
    if blocks == [] then [] else File(blocks[..|blocks| - 1]) + BlockLines(blocks[|blocks| - 1])
  }

  function GlobalBlock(kind: RouterKind, name: string, number: int): Block {
    Block("Global", [Setting("RouterType", RouterTypeString(kind)), Setting("RouterName", name),
                     Setting("RouterNumber", PrintInt(number + 1)), Blank])
  }

  function EndBlock(e: End, n: nat, p: EndPoint, inclNames: bool): Block {
    Block(EndSection(e, n),
          [Setting("HostAddress", if p.host == Null then "0.0.0.0" else PrintAddress(p.host)),
           Setting("Slot", PrintInt(p.slot + 1)),
           if inclNames then Setting("Name", p.name) else Remark("Name=" + p.name),
           Blank])
  }

  function RouteLines(routes: seq<Route>): seq<Line> {
    if routes == [] then []
    else
      var n := |routes| - 1;
      RouteLines(routes[..n])
      + [Setting(RouteKey(n, "Output"), PrintInt(routes[n].output)),
         Setting(RouteKey(n, "Input"), PrintInt(routes[n].input))]
  }

  function SnapshotBlock(n: nat, s: Snapshot): Block {
    Block(SnapshotSection(n), [Setting("Name", s.name)] + RouteLines(s.routes))
  }

  function EndBlocks(e: End, ends: seq<EndPoint>, inclNames: bool): seq<Block> {
    seq(|ends|, n requires 0 <= n < |ends| => EndBlock(e, n, ends[n], inclNames))
  }

  function SnapshotBlocks(snapshots: seq<Snapshot>): seq<Block> {
    seq(|snapshots|, n requires 0 <= n < |snapshots| => SnapshotBlock(n, snapshots[n]))
  }

  function Blocks(m: RouterMap, inclNames: bool): seq<Block> {
    [GlobalBlock(m.kind, m.name, m.number)] + EndBlocks(Input, m.inputs, inclNames)
    + EndBlocks(Output, m.outputs, inclNames) + SnapshotBlocks(m.snapshots)
  }

  function Saved(m: RouterMap, inclNames: bool): seq<Line> {
    File(Blocks(m, inclNames))
  }

  lemma OneMoreBlock(blocks: seq<Block>, b: Block)
    ensures File(blocks + [b]) == File(blocks) + BlockLines(b)
  {
  }

  method SaveEnd(
      e: End, n: nat, host: HostAddress, slot: int, name: string, ghost custom: bool, inclNames: bool, lines: seq<Line>)
    returns (more: seq<Line>)
    ensures more == lines + BlockLines(EndBlock(e, n, EndPoint(host, slot, name, custom), inclNames))
  {
    hide EndSection, PrintAddress, PrintInt;
    more := lines + [Header(EndSection(e, n))];
    if host == Null {
      more := more + [Setting("HostAddress", "0.0.0.0")];
    } else {
      more := more + [Setting("HostAddress", PrintAddress(host))];
    }
    more := more + [Setting("Slot", PrintInt(slot + 1))];
    if inclNames {
      more := more + [Setting("Name", name)];
    } else {
      more := more + [Remark("Name=" + name)];
    }
    more := more + [Blank];
  }

  method SaveEnds(
      e: End, l: Lists, inclNames: bool, ghost before: seq<Block>, lines: seq<Line>) returns (more: seq<Line>)
    requires l.Aligned() && lines == File(before)
    ensures more == File(before + EndBlocks(e, l.Zipped(), inclNames))
  {
    hide File, EndBlock, BlockLines;
    more := lines;
    ghost var blocks := EndBlocks(e, l.Zipped(), inclNames);
    assert before + blocks[..0] == before;
    for j := 0 to |l.hosts|
      invariant more == File(before + blocks[..j])
    {
      OneMoreBlock(before + blocks[..j], blocks[j]);
      assert before + blocks[..j] + [blocks[j]] == before + blocks[..j + 1];
      more := SaveEnd(e, j, l.hosts[j], l.slots[j], l.names[j], l.customs[j], inclNames, more);
    }
    assert blocks[..|blocks|] == blocks;
  }

  method SaveRoutes(routes: seq<Route>, lines: seq<Line>) returns (more: seq<Line>)
    ensures more == lines + RouteLines(routes)
  {
    hide RouteKey;
    more := lines;
    for j := 0 to |routes|
      invariant more == lines + RouteLines(routes[..j])
    {
      assert routes[..j + 1][..j] == routes[..j];
      more := more + [Setting(RouteKey(j, "Output"), PrintInt(routes[j].output))];
      more := more + [Setting(RouteKey(j, "Input"), PrintInt(routes[j].input))];
    }
    assert routes[..|routes|] == routes;
  }

  method SaveSnapshots(snapshots: seq<Snapshot>, ghost before: seq<Block>, lines: seq<Line>) returns (more: seq<Line>)
    requires lines == File(before)
    ensures more == File(before + SnapshotBlocks(snapshots))
  {
    hide File, SnapshotSection, RouteLines;
    more := lines;
    ghost var blocks := SnapshotBlocks(snapshots);
    assert before + blocks[..0] == before;
    for i := 0 to |snapshots|
      invariant more == File(before + blocks[..i])
    {
      OneMoreBlock(before + blocks[..i], blocks[i]);
      assert before + blocks[..i] + [blocks[i]] == before + blocks[..i + 1];
      var s := snapshots[i];
      more := more + [Header(SnapshotSection(i))];
      more := more + [Setting("Name", s.name)];
      more := SaveRoutes(s.routes, more);
    }
    assert blocks[..|blocks|] == blocks;
  }

  method Save(m: EndPointMap, inclNames: bool) returns (lines: seq<Line>)
    requires m.Valid()
    ensures lines == Saved(m.Value(), inclNames)
  {
    hide File, EndBlocks, SnapshotBlocks;
    ghost var first := GlobalBlock(m.routerType, m.routerName, m.routerNumber);
    lines := [Header("Global")];
    lines := lines + [Setting("RouterType", RouterTypeString(m.routerType))];
    lines := lines + [Setting("RouterName", m.routerName)];
    lines := lines + [Setting("RouterNumber", PrintInt(m.routerNumber + 1))];
    lines := lines + [Blank];
    NoBlocks();
    OneMoreBlock([], first);
    assert [] + [first] == [first] && [] + BlockLines(first) == BlockLines(first);
    ghost var blocks := [first];
    lines := SaveEnds(Input, m.inputs, inclNames, blocks, lines);
    blocks := blocks + EndBlocks(Input, m.inputs.Zipped(), inclNames);
    lines := SaveEnds(Output, m.outputs, inclNames, blocks, lines);
    blocks := blocks + EndBlocks(Output, m.outputs.Zipped(), inclNames);
    lines := SaveSnapshots(m.snapshots, blocks, lines);
  }

  lemma NoBlocks()
    ensures File([]) == []
  {
  }
}
