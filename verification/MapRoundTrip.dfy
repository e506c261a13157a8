/** A saved router map loads back as it was. */
module MapRoundTrip {
  import opened Addresses
  import opened Text
  import opened EndPointMaps
  import opened MapStorage
  import RoutingDatabase

  // ----- Looking up in a file of blocks -----

  predicate NoHeaders(body: seq<Line>) {
    forall i :: 0 <= i < |body| ==> !body[i].Header?
  }

  function InBody(body: seq<Line>, key: string): Option<string>
    decreases |body|
  {
    if body == [] then None
    else if body[0].Setting? && body[0].key == key then Some(body[0].value)
    else InBody(body[1..], key)
  }

  lemma {:induction false} BodyLookup(body: seq<Line>, current: string, section: string, key: string)
    requires NoHeaders(body)
    ensures Lookup(body, current, section, key) == if current == section then InBody(body, key) else None
    decreases |body|
  {
    if body != [] {
      BodyLookup(body[1..], current, section, key);
    }
  }

  lemma {:induction false} LookupAppend(a: seq<Line>, b: seq<Line>, current: string, section: string, key: string)
    requires b == [] || b[0].Header?
    ensures Lookup(a + b, current, section, key) ==
            match Lookup(a, current, section, key)
            case Some(v) => Some(v)
            case None => Lookup(b, "", section, key)
    decreases |a|
  {
    if a == [] {
      assert a + b == b;
    } else {
      assert (a + b)[1..] == a[1..] + b && (a + b)[0] == a[0];
      LookupAppend(a[1..], b, if a[0].Header? then a[0].section else current, section, key);
    }
  }

  lemma BlockLookup(b: Block, section: string, key: string)
    requires NoHeaders(b.body)
    ensures Lookup(BlockLines(b), "", section, key) == if b.section == section then InBody(b.body, key) else None
  {
    BodyLookup(b.body, b.section, section, key);
    assert BlockLines(b)[1..] == b.body;
  }

  ghost predicate Plain(blocks: seq<Block>) {
    forall i :: 0 <= i < |blocks| ==> NoHeaders(blocks[i].body)
  }

  ghost predicate Absent(blocks: seq<Block>, section: string) {
    forall i :: 0 <= i < |blocks| ==> blocks[i].section != section
  }

  ghost predicate OnlyAt(blocks: seq<Block>, n: nat, section: string) {
    n < |blocks| && forall i :: 0 <= i < |blocks| ==> (blocks[i].section == section <==> i == n)
  }

  lemma LastBlockLookup(blocks: seq<Block>, section: string, key: string)
    requires Plain(blocks) && blocks != []
    ensures var n := |blocks| - 1;
            Lookup(File(blocks), "", section, key) ==
            match Lookup(File(blocks[..n]), "", section, key)
            case Some(v) => Some(v)
            case None => if blocks[n].section == section then InBody(blocks[n].body, key) else None
  {
    var n := |blocks| - 1;
    BlockLookup(blocks[n], section, key);
    LookupAppend(File(blocks[..n]), BlockLines(blocks[n]), "", section, key);
  }

  lemma {:induction false} AbsentLookup(blocks: seq<Block>, section: string, key: string)
    requires Plain(blocks) && Absent(blocks, section)
    ensures Lookup(File(blocks), "", section, key) == None
    decreases |blocks|
  {
    hide BlockLines, NoHeaders, InBody;
    if blocks != [] {
      AbsentLookup(blocks[..|blocks| - 1], section, key);
      LastBlockLookup(blocks, section, key);
    }
  }

  /** With only one section of a name, looking up in the file is looking up in its body. */
  lemma {:induction false} FileLookup(blocks: seq<Block>, n: nat, section: string, key: string)
    requires Plain(blocks) && OnlyAt(blocks, n, section)
    ensures Lookup(File(blocks), "", section, key) == InBody(blocks[n].body, key)
    decreases |blocks|
  {
    hide BlockLines, NoHeaders, InBody, File, Lookup;
    var front := blocks[..|blocks| - 1];
    if n == |blocks| - 1 {
      AbsentLookup(front, section, key);
    } else {
      FileLookup(front, n, section, key);
    }
    LastBlockLookup(blocks, section, key);
  }

  // ----- The names in a saved file -----

  lemma NumberedIsInjective(prefix: string, m: nat, n: nat, suffix: string)
    requires Numbered(prefix, m, suffix) == Numbered(prefix, n, suffix)
    ensures m == n
  {
    hide Numbered, NameNumber;
    NumberReadsBack(prefix, m, suffix);
    NumberReadsBack(prefix, n, suffix);
  }

  lemma SectionsDiffer(m: nat, n: nat)
    ensures EndSection(Input, m) == EndSection(Input, n) <==> m == n
    ensures EndSection(Output, m) == EndSection(Output, n) <==> m == n
    ensures SnapshotSection(m) == SnapshotSection(n) <==> m == n
    ensures EndSection(Input, m) != EndSection(Output, n) && EndSection(Input, m) != SnapshotSection(n)
    ensures EndSection(Output, m) != SnapshotSection(n)
    ensures EndSection(Input, m) != "Global" && EndSection(Output, m) != "Global" && SnapshotSection(m) != "Global"
  {
    if EndSection(Input, m) == EndSection(Input, n) {
      NumberedIsInjective("Input", m, n, "");
    }
    if EndSection(Output, m) == EndSection(Output, n) {
      NumberedIsInjective("Output", m, n, "");
    }
    if SnapshotSection(m) == SnapshotSection(n) {
      NumberedIsInjective("Snapshot", m, n, "");
    }
    hide PrintNat;
    assert EndSection(Input, m)[0] == 'I' && EndSection(Output, m)[0] == 'O' && SnapshotSection(m)[0] == 'S';
    assert EndSection(Output, n)[0] == 'O' && SnapshotSection(n)[0] == 'S' && "Global"[0] == 'G';
  }

  lemma RouteKeysDiffer(m: nat, n: nat)
    ensures RouteKey(m, "Output") == RouteKey(n, "Output") <==> m == n
    ensures RouteKey(m, "Input") == RouteKey(n, "Input") <==> m == n
    ensures RouteKey(m, "Output") != RouteKey(n, "Input")
    ensures RouteKey(m, "Output") != "Name" && RouteKey(m, "Input") != "Name"
  {
    if RouteKey(m, "Output") == RouteKey(n, "Output") {
      NumberedIsInjective("Route", m, n, "Output");
    }
    if RouteKey(m, "Input") == RouteKey(n, "Input") {
      NumberedIsInjective("Route", m, n, "Input");
    }
    hide PrintNat;
    var a, b := RouteKey(m, "Output"), RouteKey(n, "Input");
    assert a[|a| - 5] == 'u' && b[|b| - 5] == 'I';
    assert a[0] == 'R' && RouteKey(m, "Input")[0] == 'R' && "Name"[0] == 'N';
  }

  lemma {:induction false} RouteLinesPlain(routes: seq<Route>)
    ensures NoHeaders(RouteLines(routes))
  {
    if routes != [] {
      RouteLinesPlain(routes[..|routes| - 1]);
    }
  }

  lemma BlocksArePlain(m: RouterMap, inclNames: bool)
    ensures Plain(Blocks(m, inclNames))
  {
    forall n | 0 <= n < |m.snapshots|
      ensures NoHeaders(SnapshotBlock(n, m.snapshots[n]).body)
    {
      RouteLinesPlain(m.snapshots[n].routes);
    }
    hide RouteLines, PrintInt, PrintAddress;
  }

  function EndPlace(m: RouterMap, e: End, n: nat): nat {
    if e == Input then 1 + n else 1 + |m.inputs| + n
  }

  lemma EndIsWritten(m: RouterMap, inclNames: bool, e: End, n: nat)
    requires n < |m.Ends(e)|
    ensures EndPlace(m, e, n) < |Blocks(m, inclNames)|
    ensures Blocks(m, inclNames)[EndPlace(m, e, n)] == EndBlock(e, n, m.Ends(e)[n], inclNames)
  {
  }

  lemma SnapshotIsWritten(m: RouterMap, inclNames: bool, n: nat)
    requires n < |m.snapshots|
    ensures var place := 1 + |m.inputs| + |m.outputs| + n;
            place < |Blocks(m, inclNames)| && Blocks(m, inclNames)[place] == SnapshotBlock(n, m.snapshots[n])
  {
  }

  lemma EndNamed(e: End, n: nat, p: EndPoint, inclNames: bool)
    ensures EndBlock(e, n, p, inclNames).section == EndSection(e, n)
  {
  }

  lemma SnapshotNamed(n: nat, s: Snapshot)
    ensures SnapshotBlock(n, s).section == SnapshotSection(n)
  {
  }

  lemma GlobalIsWritten(m: RouterMap, inclNames: bool)
    ensures Blocks(m, inclNames) != [] && Blocks(m, inclNames)[0] == GlobalBlock(m.kind, m.name, m.number)
    ensures GlobalBlock(m.kind, m.name, m.number).section == "Global"
  {
  }

  /** Where the four kinds of sections are. */
  lemma SectionNames(m: RouterMap, inclNames: bool, i: nat)
    requires i < |Blocks(m, inclNames)|
    ensures var a, b := |m.inputs|, |m.outputs|;
            Blocks(m, inclNames)[i].section ==
            if i == 0 then "Global"
            else if i <= a then EndSection(Input, i - 1)
            else if i <= a + b then EndSection(Output, i - 1 - a)
            else SnapshotSection(i - 1 - a - b)
  {
    BlocksCounted(m, inclNames);
    hide Blocks, EndBlock, SnapshotBlock, GlobalBlock, EndSection, SnapshotSection;
    var a, b := |m.inputs|, |m.outputs|;
    if i == 0 {
      GlobalIsWritten(m, inclNames);
    } else if i <= a {
      EndIsWritten(m, inclNames, Input, i - 1);
      EndNamed(Input, i - 1, m.inputs[i - 1], inclNames);
    } else if i <= a + b {
      EndIsWritten(m, inclNames, Output, i - 1 - a);
      EndNamed(Output, i - 1 - a, m.outputs[i - 1 - a], inclNames);
    } else {
      SnapshotIsWritten(m, inclNames, i - 1 - a - b);
      SnapshotNamed(i - 1 - a - b, m.snapshots[i - 1 - a - b]);
    }
  }

  lemma GlobalIsFirst(m: RouterMap, inclNames: bool)
    ensures OnlyAt(Blocks(m, inclNames), 0, "Global")
  {
    var blocks := Blocks(m, inclNames);
    hide Blocks, EndSection, SnapshotSection;
    assert |blocks| > 0 by { BlocksCounted(m, inclNames); }
    forall i | 0 <= i < |blocks|
      ensures blocks[i].section == "Global" <==> i == 0
    {
      SectionNames(m, inclNames, i);
      if i > 0 {
        SectionsDiffer(i - 1, 0);
        if i > |m.inputs| {
          SectionsDiffer(i - 1 - |m.inputs|, 0);
        }
        if i > |m.inputs| + |m.outputs| {
          SectionsDiffer(i - 1 - |m.inputs| - |m.outputs|, 0);
        }
      }
    }
  }

  lemma BlocksCounted(m: RouterMap, inclNames: bool)
    ensures |Blocks(m, inclNames)| == 1 + |m.inputs| + |m.outputs| + |m.snapshots|
  {
  }

  /** Which section, if any, has the name of an end point. */
  lemma EndIsAt(m: RouterMap, inclNames: bool, e: End, n: nat)
    ensures n < |m.Ends(e)| ==> OnlyAt(Blocks(m, inclNames), EndPlace(m, e, n), EndSection(e, n))
    ensures n >= |m.Ends(e)| ==> Absent(Blocks(m, inclNames), EndSection(e, n))
  {
    var blocks := Blocks(m, inclNames);
    BlocksCounted(m, inclNames);
    hide Blocks, EndSection, SnapshotSection;
    forall i | 0 <= i < |blocks|
      ensures blocks[i].section == EndSection(e, n) <==> n < |m.Ends(e)| && i == EndPlace(m, e, n)
    {
      SectionNames(m, inclNames, i);
      SectionsDiffer(n, 0);
      if i == 0 {
      } else if i <= |m.inputs| {
        SectionsDiffer(i - 1, n);
      } else if i <= |m.inputs| + |m.outputs| {
        SectionsDiffer(i - 1 - |m.inputs|, n);
        SectionsDiffer(n, i - 1 - |m.inputs|);
      } else {
        SectionsDiffer(n, i - 1 - |m.inputs| - |m.outputs|);
      }
    }
  }

  lemma SnapshotIsAt(m: RouterMap, inclNames: bool, n: nat)
    ensures n < |m.snapshots| ==>
              OnlyAt(Blocks(m, inclNames), 1 + |m.inputs| + |m.outputs| + n, SnapshotSection(n))
    ensures n >= |m.snapshots| ==> Absent(Blocks(m, inclNames), SnapshotSection(n))
  {
    var blocks := Blocks(m, inclNames);
    BlocksCounted(m, inclNames);
    hide Blocks, EndSection, SnapshotSection;
    forall i | 0 <= i < |blocks|
      ensures blocks[i].section == SnapshotSection(n) <==>
              n < |m.snapshots| && i == 1 + |m.inputs| + |m.outputs| + n
    {
      SectionNames(m, inclNames, i);
      SectionsDiffer(n, 0);
      if i == 0 {
      } else if i <= |m.inputs| {
        SectionsDiffer(i - 1, n);
      } else if i <= |m.inputs| + |m.outputs| {
        SectionsDiffer(i - 1 - |m.inputs|, n);
      } else {
        SectionsDiffer(i - 1 - |m.inputs| - |m.outputs|, n);
      }
    }
  }

  // ----- What loading finds -----

  predicate Fits(n: int) {
    -0x8000_0000 <= n < 0x8000_0000
  }

  /** The numbers written, one more than those kept, fit the file's integers. */
  predicate Storable(m: RouterMap) {
    && Fits(m.number + 1)
    && (forall i :: 0 <= i < |m.inputs| ==> Fits(m.inputs[i].slot + 1))
    && (forall i :: 0 <= i < |m.outputs| ==> Fits(m.outputs[i].slot + 1))
    && (forall i :: 0 <= i < |m.snapshots| ==> RoutesStorable(m.snapshots[i].routes))
  }

  predicate RoutesStorable(routes: seq<Route>) {
    forall i :: 0 <= i < |routes| ==> Fits(routes[i].output) && Fits(routes[i].input)
  }

  /** "No address" comes back as 0.0.0.0, and names only when they were included. */
  function RestoredEnd(p: EndPoint, inclNames: bool): EndPoint {
    EndPoint(if p.host == Null then ZERO_ADDRESS else p.host, p.slot, if inclNames then p.name else "", inclNames)
  }

  function RestoredEnds(ends: seq<EndPoint>, inclNames: bool): seq<EndPoint> {
    seq(|ends|, i requires 0 <= i < |ends| => RestoredEnd(ends[i], inclNames))
  }

  function Restored(m: RouterMap, inclNames: bool): RouterMap {
    m.(inputs := RestoredEnds(m.inputs, inclNames), outputs := RestoredEnds(m.outputs, inclNames))
  }

  lemma ZeroAddressReadsBack()
    ensures ParseAddress("0.0.0.0") == ZERO_ADDRESS
  {
    ParsePrintAddress(ZERO_ADDRESS);
    ZeroAddressPrints();
  }

  lemma EndBodyFound(e: End, n: nat, p: EndPoint, inclNames: bool)
    ensures var body := EndBlock(e, n, p, inclNames).body;
            && InBody(body, "HostAddress") == Some(if p.host == Null then "0.0.0.0" else PrintAddress(p.host))
            && InBody(body, "Slot") == Some(PrintInt(p.slot + 1))
            && InBody(body, "Name") == if inclNames then Some(p.name) else None
  {
    hide PrintAddress, PrintInt, EndSection;
    var body := EndBlock(e, n, p, inclNames).body;
    var rest := body[1..][1..];
    assert rest == [body[2], Blank] && rest[1..] == [Blank] && body[1..][0] == body[1];
    assert InBody([Blank], "Name") == None by {
      assert [Blank][1..] == [];
    }
    assert "HostAddress"[0] == 'H' && "Slot"[0] == 'S' && "Name"[0] == 'N';
    assert InBody(rest, "Name") == if inclNames then Some(p.name) else None;
    assert InBody(body[1..], "Name") == InBody(rest, "Name");
  }

  lemma EndLookup(m: RouterMap, inclNames: bool, e: End, n: nat, key: string)
    requires n < |m.Ends(e)|
    ensures StringValue(Saved(m, inclNames), EndSection(e, n), key)
            == InBody(EndBlock(e, n, m.Ends(e)[n], inclNames).body, key)
  {
    hide Blocks, EndSection, File, Lookup, Plain, OnlyAt, InBody, EndBlock;
    BlocksArePlain(m, inclNames);
    EndIsAt(m, inclNames, e, n);
    EndIsWritten(m, inclNames, e, n);
    FileLookup(Blocks(m, inclNames), EndPlace(m, e, n), EndSection(e, n), key);
  }

  lemma EndFound(m: RouterMap, inclNames: bool, e: End, n: nat)
    requires Storable(m) && n < |m.Ends(e)|
    ensures var file := Saved(m, inclNames);
            && AddressValue(file, EndSection(e, n), "HostAddress") == Some(RestoredEnd(m.Ends(e)[n], inclNames).host)
            && EndFrom(file, e, n, RestoredEnd(m.Ends(e)[n], inclNames).host) == RestoredEnd(m.Ends(e)[n], inclNames)
  {
    assert Fits(m.Ends(e)[n].slot + 1);
    hide EndSection, StringValue, Saved, InBody, Storable, Fits, EndBlock, EndFrom, AddressValue, RestoredEnd;
    EndLookup(m, inclNames, e, n, "HostAddress");
    EndLookup(m, inclNames, e, n, "Slot");
    EndLookup(m, inclNames, e, n, "Name");
    EndParsed(Saved(m, inclNames), e, n, m.Ends(e)[n], inclNames);
  }

  lemma EndParsed(file: seq<Line>, e: End, n: nat, p: EndPoint, inclNames: bool)
    requires Fits(p.slot + 1)
    requires var body := EndBlock(e, n, p, inclNames).body;
             && StringValue(file, EndSection(e, n), "HostAddress") == InBody(body, "HostAddress")
             && StringValue(file, EndSection(e, n), "Slot") == InBody(body, "Slot")
             && StringValue(file, EndSection(e, n), "Name") == InBody(body, "Name")
    ensures AddressValue(file, EndSection(e, n), "HostAddress") == Some(RestoredEnd(p, inclNames).host)
    ensures EndFrom(file, e, n, RestoredEnd(p, inclNames).host) == RestoredEnd(p, inclNames)
  {
    hide EndSection, StringValue, AddressValue, IntValue, PrintAddress, PrintInt, InBody, EndBlock, Fits;
    EndBodyFound(e, n, p, inclNames);
    AddressFound(file, EndSection(e, n), "HostAddress", p.host);
    IntFound(file, EndSection(e, n), "Slot", p.slot + 1);
  }

  lemma IntFound(lines: seq<Line>, section: string, key: string, n: int)
    requires Fits(n) && StringValue(lines, section, key) == Some(PrintInt(n))
    ensures IntValue(lines, section, key) == Some(n)
  {
    ParsePrintInt(n);
    hide PrintInt, ParseInt, StringValue;
  }

  lemma AddressFound(lines: seq<Line>, section: string, key: string, a: HostAddress)
    requires StringValue(lines, section, key) == Some(if a == Null then "0.0.0.0" else PrintAddress(a))
    ensures AddressValue(lines, section, key) == Some(if a == Null then ZERO_ADDRESS else a)
  {
    ParsePrintAddress(a);
    ZeroAddressReadsBack();
    hide PrintAddress, ParseAddress, StringValue;
  }

  lemma EndMissing(m: RouterMap, inclNames: bool, e: End, n: nat)
    requires n >= |m.Ends(e)|
    ensures AddressValue(Saved(m, inclNames), EndSection(e, n), "HostAddress") == None
  {
    BlocksArePlain(m, inclNames);
    EndIsAt(m, inclNames, e, n);
    hide Blocks, EndSection, File, Lookup, Plain, Absent;
    AbsentLookup(Blocks(m, inclNames), EndSection(e, n), "HostAddress");
  }

  lemma {:induction false} EndsReadBack(m: RouterMap, inclNames: bool, e: End, n: nat)
    requires Storable(m) && n <= |m.Ends(e)|
    ensures EndsFrom(Saved(m, inclNames), e, n) == RestoredEnds(m.Ends(e), inclNames)[n..]
    decreases |m.Ends(e)| - n
  {
    hide Saved, AddressValue, EndSection, EndFrom, Storable, RestoredEnd;
    if n == |m.Ends(e)| {
      EndMissing(m, inclNames, e, n);
    } else {
      EndFound(m, inclNames, e, n);
      EndsReadBack(m, inclNames, e, n + 1);
    }
  }

  // ----- Snapshots -----

  lemma {:induction false} InBodyAppend(a: seq<Line>, b: seq<Line>, key: string)
    ensures InBody(a + b, key) == match InBody(a, key) case Some(v) => Some(v) case None => InBody(b, key)
    decreases |a|
  {
    if a == [] {
      assert a + b == b;
    } else {
      assert (a + b)[1..] == a[1..] + b;
      InBodyAppend(a[1..], b, key);
    }
  }

  lemma TwoSettings(k1: string, v1: string, k2: string, v2: string, key: string)
    ensures InBody([Setting(k1, v1), Setting(k2, v2)], key) ==
            if key == k1 then Some(v1) else if key == k2 then Some(v2) else None
  {
    var body := [Setting(k1, v1), Setting(k2, v2)];
    assert body[1..] == [Setting(k2, v2)];
    assert InBody([Setting(k2, v2)], key) == if key == k2 then Some(v2) else None by {
      assert [Setting(k2, v2)][1..] == [];
    }
  }

  lemma {:induction false} RouteFound(routes: seq<Route>, n: nat)
    ensures InBody(RouteLines(routes), RouteKey(n, "Output")) ==
            if n < |routes| then Some(PrintInt(routes[n].output)) else None
    ensures InBody(RouteLines(routes), RouteKey(n, "Input")) ==
            if n < |routes| then Some(PrintInt(routes[n].input)) else None
    decreases |routes|
  {
    hide InBody, RouteKey, PrintInt;
    if routes == [] {
      NothingInBody(RouteKey(n, "Output"));
      NothingInBody(RouteKey(n, "Input"));
    } else {
      var last := |routes| - 1;
      var k, l := RouteKey(last, "Output"), RouteKey(last, "Input");
      var v, w := PrintInt(routes[last].output), PrintInt(routes[last].input);
      RouteFound(routes[..last], n);
      RouteKeysDiffer(n, last);
      RouteKeysDiffer(last, n);
      InBodyAppend(RouteLines(routes[..last]), [Setting(k, v), Setting(l, w)], RouteKey(n, "Output"));
      InBodyAppend(RouteLines(routes[..last]), [Setting(k, v), Setting(l, w)], RouteKey(n, "Input"));
      TwoSettings(k, v, l, w, RouteKey(n, "Output"));
      TwoSettings(k, v, l, w, RouteKey(n, "Input"));
    }
  }

  lemma NothingInBody(key: string)
    ensures InBody([], key) == None
  {
  }

  lemma SnapshotLookup(m: RouterMap, inclNames: bool, n: nat, key: string)
    requires n < |m.snapshots|
    ensures StringValue(Saved(m, inclNames), SnapshotSection(n), key)
            == InBody(SnapshotBlock(n, m.snapshots[n]).body, key)
  {
    hide Blocks, SnapshotSection, File, Lookup, Plain, OnlyAt, InBody, SnapshotBlock;
    var place := 1 + |m.inputs| + |m.outputs| + n;
    BlocksArePlain(m, inclNames);
    SnapshotIsAt(m, inclNames, n);
    SnapshotIsWritten(m, inclNames, n);
    FileLookup(Blocks(m, inclNames), place, SnapshotSection(n), key);
  }

  lemma SnapshotMissing(m: RouterMap, inclNames: bool, n: nat)
    requires n >= |m.snapshots|
    ensures StringValue(Saved(m, inclNames), SnapshotSection(n), "Name") == None
  {
    BlocksArePlain(m, inclNames);
    SnapshotIsAt(m, inclNames, n);
    hide Blocks, SnapshotSection, File, Lookup, Plain, Absent;
    AbsentLookup(Blocks(m, inclNames), SnapshotSection(n), "Name");
  }

  lemma SnapshotBodyFound(n: nat, s: Snapshot, key: string)
    ensures InBody(SnapshotBlock(n, s).body, key) ==
            if key == "Name" then Some(s.name) else InBody(RouteLines(s.routes), key)
  {
  }

  lemma RouteStored(m: RouterMap, inclNames: bool, n: nat, k: nat)
    requires n < |m.snapshots| && RoutesStorable(m.snapshots[n].routes)
    ensures var file, section, routes := Saved(m, inclNames), SnapshotSection(n), m.snapshots[n].routes;
            && IntValue(file, section, RouteKey(k, "Output")) == (if k < |routes| then Some(routes[k].output) else None)
            && IntValue(file, section, RouteKey(k, "Input")) == (if k < |routes| then Some(routes[k].input) else None)
  {
    var s := m.snapshots[n];
    var file, section := Saved(m, inclNames), SnapshotSection(n);
    if k < |s.routes| {
      assert Fits(s.routes[k].output) && Fits(s.routes[k].input);
    }
    hide RouteLines, SnapshotSection, Saved, SnapshotBlock, InBody, RouteKey, StringValue, PrintInt, Fits,
         RoutesStorable;
    RouteKeysDiffer(k, 0);
    RouteFound(s.routes, k);
    SnapshotBodyFound(n, s, RouteKey(k, "Output"));
    SnapshotBodyFound(n, s, RouteKey(k, "Input"));
    SnapshotLookup(m, inclNames, n, RouteKey(k, "Output"));
    SnapshotLookup(m, inclNames, n, RouteKey(k, "Input"));
    if k < |s.routes| {
      IntFound(file, section, RouteKey(k, "Output"), s.routes[k].output);
      IntFound(file, section, RouteKey(k, "Input"), s.routes[k].input);
    }
  }

  lemma {:induction false} RoutesReadBack(m: RouterMap, inclNames: bool, n: nat, k: nat)
    requires n < |m.snapshots| && RoutesStorable(m.snapshots[n].routes) && k <= |m.snapshots[n].routes|
    ensures RoutesFrom(Saved(m, inclNames), SnapshotSection(n), k) == m.snapshots[n].routes[k..]
    decreases |m.snapshots[n].routes| - k
  {
    hide Saved, SnapshotSection, RouteKey, IntValue, RoutesStorable;
    RouteStored(m, inclNames, n, k);
    if k < |m.snapshots[n].routes| {
      RoutesReadBack(m, inclNames, n, k + 1);
    }
  }

  lemma {:induction false} SnapshotsReadBack(m: RouterMap, inclNames: bool, n: nat)
    requires Storable(m) && n <= |m.snapshots|
    ensures SnapshotsFrom(Saved(m, inclNames), n) == m.snapshots[n..]
    decreases |m.snapshots| - n
  {
    if n == |m.snapshots| {
      SnapshotMissing(m, inclNames, n);
    } else {
      SnapshotBodyFound(n, m.snapshots[n], "Name");
      SnapshotLookup(m, inclNames, n, "Name");
      RoutesReadBack(m, inclNames, n, 0);
      SnapshotsReadBack(m, inclNames, n + 1);
    }
    hide Saved, SnapshotSection, RoutesFrom, StringValue, SnapshotBlock, InBody, RoutesStorable;
  }

  // ----- The global section -----

  lemma GlobalLookup(m: RouterMap, inclNames: bool, key: string)
    ensures StringValue(Saved(m, inclNames), "Global", key) == InBody(GlobalBlock(m.kind, m.name, m.number).body, key)
  {
    BlocksArePlain(m, inclNames);
    GlobalIsFirst(m, inclNames);
    assert Blocks(m, inclNames)[0] == GlobalBlock(m.kind, m.name, m.number);
    hide Blocks, File, Lookup, Plain, OnlyAt, InBody, GlobalBlock;
    FileLookup(Blocks(m, inclNames), 0, "Global", key);
  }

  lemma GlobalBodyFound(m: RouterMap)
    ensures var body := GlobalBlock(m.kind, m.name, m.number).body;
            && InBody(body, "RouterType") == Some(RouterTypeString(m.kind))
            && InBody(body, "RouterName") == Some(m.name)
            && InBody(body, "RouterNumber") == Some(PrintInt(m.number + 1))
  {
    hide PrintInt;
    var body := GlobalBlock(m.kind, m.name, m.number).body;
    var rest := body[1..][1..];
    assert rest[0] == body[2] && body[1..][0] == body[1];
    assert "RouterType"[6] == 'T' && "RouterName"[6] == 'N' && "RouterNumber"[6] == 'N'
           && |"RouterName"| != |"RouterNumber"|;
    assert InBody(rest, "RouterNumber") == Some(PrintInt(m.number + 1));
    assert InBody(body[1..], "RouterNumber") == InBody(rest, "RouterNumber");
  }

  lemma KindsDiffer()
    ensures RoutingDatabase.Lower("Audio")[0] == 'a' && RoutingDatabase.Lower("GPIO")[0] == 'g'
  {
  }

  lemma GlobalReadsBack(m: RouterMap, inclNames: bool)
    requires Fits(m.number + 1)
    ensures var file := Saved(m, inclNames);
            && KindFrom(file) == m.kind && StringValue(file, "Global", "RouterName") == Some(m.name)
            && IntValue(file, "Global", "RouterNumber") == Some(m.number + 1)
  {
    hide StringValue, IntValue, Saved, PrintInt, InBody, GlobalBlock, Fits, RoutingDatabase.Lower;
    GlobalBodyFound(m);
    GlobalLookup(m, inclNames, "RouterType");
    GlobalLookup(m, inclNames, "RouterName");
    GlobalLookup(m, inclNames, "RouterNumber");
    IntFound(Saved(m, inclNames), "Global", "RouterNumber", m.number + 1);
    KindsDiffer();
  }

  /**
   * Loading what was saved gives the map back: type, name, number, every end point's address (none becomes
   * 0.0.0.0) and slot in order, names when they were included, and every snapshot with its routes.
   */
  lemma SavedLoadsBack(m: RouterMap, inclNames: bool)
    requires Storable(m)
    ensures Loaded(Saved(m, inclNames)) == Restored(m, inclNames)
  {
    GlobalReadsBack(m, inclNames);
    hide Saved, EndsFrom, SnapshotsFrom, KindFrom, StringValue, IntValue, RestoredEnd;
    EndsReadBack(m, inclNames, Input, 0);
    EndsReadBack(m, inclNames, Output, 0);
    SnapshotsReadBack(m, inclNames, 0);
  }

  /** Saving again what was loaded, with names, writes the same file. */
  lemma SavedTwiceIsSame(m: RouterMap)
    requires Storable(m)
    ensures Saved(Loaded(Saved(m, true)), true) == Saved(m, true)
  {
    SavedLoadsBack(m, true);
    hide File, Loaded, Storable, EndBlocks, RestoredEnds, GlobalBlock, SnapshotBlocks;
    EndBlocksSame(Input, m.inputs);
    EndBlocksSame(Output, m.outputs);
  }

  lemma EndBlocksSame(e: End, ends: seq<EndPoint>)
    ensures EndBlocks(e, RestoredEnds(ends, true), true) == EndBlocks(e, ends, true)
  {
    ZeroAddressPrints();
    hide PrintAddress, PrintInt, EndSection;
  }

  lemma ZeroAddressPrints()
    ensures PrintAddress(ZERO_ADDRESS) == "0.0.0.0"
  {
  }
}
