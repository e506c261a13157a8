/** The text of Protocol D messages: tab-separated records, one a line. */
module ProtocolDText {
  import opened Addresses
  import opened Text
  import opened Lines
  import opened RoutingTables
  import opened RoutingDatabase
  import opened Ipc
  import opened Replication
  import opened ProtocolD

  function Keyword<K, V>(name: string, op: Op<K, V>): string {
    match op
    case Add(_, _) => name + "ADD"
    case Change(_, _) => name
    case Remove(_) => name + "DEL"
  }

  function Place(key: Key): seq<string> {
    [PrintAddress(IPv4(key.host)), PrintInt(key.slot)]
  }

  function Flag(b: bool): string {
    if b then "1" else "0"
  }

  function NodeFields(op: Op<IPv4Number, NodeInfo>): seq<string> {
    [Keyword("NODE", op), PrintAddress(IPv4(op.key))] +
    if op.Remove? then []
    else [op.value.hostName, op.value.deviceName, PrintInt(op.value.sources), PrintInt(op.value.destinations),
          PrintInt(op.value.gpis), PrintInt(op.value.gpos)]
  }

  function SourceFields(op: Op<Key, SourceColumns>): seq<string> {
    [Keyword("SRC", op)] + Place(op.key) +
    if op.Remove? then []
    else
      var d := op.value.data;
      [d.hostName, PrintAddress(op.value.link), d.name, Flag(d.enabled), PrintInt(d.channels), PrintInt(d.blockSize)]
  }

  function DestinationFields(op: Op<Key, DestinationColumns>): seq<string> {
    [Keyword("DST", op)] + Place(op.key) +
    if op.Remove? then []
    else [op.value.data.hostName, PrintAddress(op.value.link), op.value.data.name, PrintInt(op.value.data.channels)]
  }

  function GpiFields(op: Op<Key, GpiColumns>): seq<string> {
    [Keyword("GPI", op)] + Place(op.key) + if op.Remove? then [] else [op.value.data.hostName, op.value.data.code]
  }

  function GpoFields(op: Op<Key, GpoColumns>): seq<string> {
    [Keyword("GPO", op)] + Place(op.key) +
    if op.Remove? then []
    else
      var d := op.value.data;
      [d.hostName, d.code, d.name, PrintAddress(op.value.link.address), PrintInt(op.value.link.slot)]
  }

  function Fields(m: Message): (fields: seq<string>)
    ensures |fields| >= 1
  {
    match m
    case Node(op) => NodeFields(op)
    case Source(op) => SourceFields(op)
    case Destination(op) => DestinationFields(op)
    case GpiPort(op) => GpiFields(op)
    case GpoPort(op) => GpoFields(op)
    case Ok => ["ok"]
    case Pong => ["Pong"]
  }

  function PrintMessage(m: Message): string {
    Join(Fields(m), '\t')
  }

  // ----- Reading -----

  function Tagged<K, V>(keyword: string, name: string, key: K, value: V): Option<Op<K, V>> {
    if keyword == name + "ADD" then Some(Add(key, value))
    else if keyword == name then Some(Change(key, value))
    else None
  }

  /** A count that does not parse reads as zero. */
  function CountOf(s: string): nat {
    if NumberOr0(s) >= 0 then NumberOr0(s) else 0
  }

  function NodeFrom(f: seq<string>): Option<Message>
    requires |f| == 8
  {
    match ParseAddress(f[1])
    case Null => None
    case IPv4(h) =>
      match Tagged(f[0], "NODE", h, NodeInfo(f[2], f[3], CountOf(f[4]), CountOf(f[5]), CountOf(f[6]), CountOf(f[7])))
      case None => None
      case Some(op) => Some(Node(op))
  }

  function NodeRemovalFrom(f: seq<string>): Option<Message>
    requires |f| == 2
  {
    match ParseAddress(f[1])
    case Null => None
    case IPv4(h) => if f[0] == "NODE" + "DEL" then Some(Node(Remove(h))) else None
  }

  function SlotFrom(f: seq<string>, key: Key): Option<Message>
    requires |f| >= 3
  {
    if |f| == 3 then
      if f[0] == "SRC" + "DEL" then Some(Source(Remove(key)))
      else if f[0] == "DST" + "DEL" then Some(Destination(Remove(key)))
      else if f[0] == "GPI" + "DEL" then Some(GpiPort(Remove(key)))
      else if f[0] == "GPO" + "DEL" then Some(GpoPort(Remove(key)))
      else None
    else if |f| == 9 then
      match Tagged(f[0], "SRC", key,
                   Columns(ParseAddress(f[4]), SourceData(f[3], f[5], f[6] != "0", CountOf(f[7]), CountOf(f[8]))))
      case None => None
      case Some(op) => Some(Source(op))
    else if |f| == 7 then
      match Tagged(f[0], "DST", key, Columns(ParseAddress(f[4]), DestinationData(f[3], f[5], CountOf(f[6]))))
      case None => None
      case Some(op) => Some(Destination(op))
    else if |f| == 5 then
      match Tagged(f[0], "GPI", key, Columns((), GpiData(f[3], f[4])))
      case None => None
      case Some(op) => Some(GpiPort(op))
    else if |f| == 8 then
      match Tagged(f[0], "GPO", key, Columns(GpoLink(ParseAddress(f[6]), NumberOr0(f[7])), GpoData(f[3], f[4], f[5])))
      case None => None
      case Some(op) => Some(GpoPort(op))
    else None
  }

  /** A record is read only with its exact number of fields, and a slot record only with a proper address and slot. */
  function FromFields(f: seq<string>): Option<Message>
    requires |f| >= 1
  {
    if |f| == 1 then (if f[0] == "ok" then Some(Ok) else if f[0] == "Pong" then Some(Pong) else None)
    else if |f| == 2 then NodeRemovalFrom(f)
    else if |f| == 8 && (f[0] == "NODE" + "ADD" || f[0] == "NODE") then NodeFrom(f)
    else
      match (ParseAddress(f[1]), ParseInt(f[2]))
      case (IPv4(h), Some(s)) => if s >= 0 then SlotFrom(f, Key(h, s)) else None
      case _ => None
  }

  function ParseMessage(text: string): Option<Message> {
    FromFields(Split(text, '\t'))
  }

  // ----- Which messages survive the journey -----

  /** A name that fits in one field of one line of 7-bit text. */
  predicate Word(s: string) {
    Free(s, '\t') && OneLine(s) && Ascii(s)
  }

  predicate NodeSendable(n: NodeInfo) {
    && Word(n.hostName) && Word(n.deviceName)
    && IsSlot(n.sources) && IsSlot(n.destinations) && IsSlot(n.gpis) && IsSlot(n.gpos)
  }

  predicate SourceSendable(c: SourceColumns) {
    Word(c.data.hostName) && Word(c.data.name) && IsSlot(c.data.channels) && IsSlot(c.data.blockSize)
  }

  predicate DestinationSendable(c: DestinationColumns) {
    Word(c.data.hostName) && Word(c.data.name) && IsSlot(c.data.channels)
  }

  predicate GpiSendable(c: GpiColumns) {
    Word(c.data.hostName) && Word(c.data.code)
  }

  predicate GpoSendable(c: GpoColumns) {
    && Word(c.data.hostName) && Word(c.data.code) && Word(c.data.name)
    && -0x8000_0000 <= c.link.slot < 0x8000_0000
  }

  predicate MessageSendable(m: Message) {
    match m
    case Node(op) => op.Remove? || NodeSendable(op.value)
    case Source(op) => IsSlot(op.key.slot) && (op.Remove? || SourceSendable(op.value))
    case Destination(op) => IsSlot(op.key.slot) && (op.Remove? || DestinationSendable(op.value))
    case GpiPort(op) => IsSlot(op.key.slot) && (op.Remove? || GpiSendable(op.value))
    case GpoPort(op) => IsSlot(op.key.slot) && (op.Remove? || GpoSendable(op.value))
    case Ok => true
    case Pong => true
  }

  // ----- Reading undoes writing -----

  lemma CountReadsBack(n: nat)
    requires IsSlot(n)
    ensures CountOf(PrintInt(n)) == n && ParseInt(PrintInt(n)) == Some(n)
  {
    hide PrintInt, ParseInt;
    ParsePrintInt(n);
  }

  lemma NodeReadsBack(op: Op<IPv4Number, NodeInfo>)
    requires MessageSendable(Node(op))
    ensures FromFields(NodeFields(op)) == Some(Node(op))
  {
    hide PrintAddress, ParseAddress, PrintInt, CountOf, Word;
    ParsePrintAddress(IPv4(op.key));
    if !op.Remove? {
      CountReadsBack(op.value.sources);
      CountReadsBack(op.value.destinations);
      CountReadsBack(op.value.gpis);
      CountReadsBack(op.value.gpos);
    }
  }

  lemma PlaceReadsBack(key: Key)
    requires IsSlot(key.slot)
    ensures ParseAddress(Place(key)[0]) == IPv4(key.host) && ParseInt(Place(key)[1]) == Some(key.slot)
  {
    hide PrintAddress, ParseAddress, PrintInt, ParseInt;
    ParsePrintAddress(IPv4(key.host));
    ParsePrintInt(key.slot);
  }

  lemma RemovalKeywordsDiffer()
    ensures "SRC" + "DEL" != "DST" + "DEL" && "SRC" + "DEL" != "GPI" + "DEL" && "SRC" + "DEL" != "GPO" + "DEL"
    ensures "DST" + "DEL" != "GPI" + "DEL" && "DST" + "DEL" != "GPO" + "DEL" && "GPI" + "DEL" != "GPO" + "DEL"
  {
    assert ("SRC" + "DEL")[0] == 'S' && ("DST" + "DEL")[0] == 'D' && ("GPI" + "DEL")[0] == 'G' == ("GPO" + "DEL")[0];
    assert ("GPI" + "DEL")[2] == 'I' && ("GPO" + "DEL")[2] == 'O';
  }

  lemma SourceReadsBack(op: Op<Key, SourceColumns>)
    requires MessageSendable(Source(op))
    ensures FromFields(SourceFields(op)) == Some(Source(op))
  {
    hide PrintAddress, ParseAddress, PrintInt, ParseInt, CountOf, Word;
    PlaceReadsBack(op.key);
    if !op.Remove? {
      ParsePrintAddress(op.value.link);
      CountReadsBack(op.value.data.channels);
      CountReadsBack(op.value.data.blockSize);
    }
  }

  lemma DestinationReadsBack(op: Op<Key, DestinationColumns>)
    requires MessageSendable(Destination(op))
    ensures FromFields(DestinationFields(op)) == Some(Destination(op))
  {
    hide PrintAddress, ParseAddress, PrintInt, ParseInt, CountOf, Word;
    PlaceReadsBack(op.key);
    RemovalKeywordsDiffer();
    if !op.Remove? {
      ParsePrintAddress(op.value.link);
      CountReadsBack(op.value.data.channels);
    }
  }

  lemma GpiReadsBack(op: Op<Key, GpiColumns>)
    requires MessageSendable(GpiPort(op))
    ensures FromFields(GpiFields(op)) == Some(GpiPort(op))
  {
    hide PrintAddress, ParseAddress, PrintInt, ParseInt, CountOf, Word;
    PlaceReadsBack(op.key);
    RemovalKeywordsDiffer();
    if !op.Remove? {
      assert op.value.link == ();
    }
  }

  lemma GpoReadsBack(op: Op<Key, GpoColumns>)
    requires MessageSendable(GpoPort(op))
    ensures FromFields(GpoFields(op)) == Some(GpoPort(op))
  {
    hide PrintAddress, ParseAddress, PrintInt, ParseInt, CountOf, Word;
    PlaceReadsBack(op.key);
    RemovalKeywordsDiffer();
    assert Keyword("GPO", op)[0] == 'G' && ("NODE" + "ADD")[0] == 'N' == "NODE"[0];
    if !op.Remove? {
      ParsePrintAddress(op.value.link.address);
      ParsePrintInt(op.value.link.slot);
    }
  }

  lemma FieldsReadBack(m: Message)
    requires MessageSendable(m)
    ensures FromFields(Fields(m)) == Some(m)
  {
    hide NodeFields, SourceFields, DestinationFields, GpiFields, GpoFields, MessageSendable;
    match m
    case Node(op) => NodeReadsBack(op);
    case Source(op) => SourceReadsBack(op);
    case Destination(op) => DestinationReadsBack(op);
    case GpiPort(op) => GpiReadsBack(op);
    case GpoPort(op) => GpoReadsBack(op);
    case Ok =>
    case Pong => assert "Pong" != "ok" by { assert |"Pong"| == 4 && |"ok"| == 2; }
  }

  lemma IntIsWord(n: int)
    ensures Word(PrintInt(n))
  {
  }

  lemma {:induction false} JoinIsAscii(parts: seq<string>, sep: char)
    requires |parts| >= 1 && sep as int < 0x80 && forall i :: 0 <= i < |parts| ==> Ascii(parts[i])
    ensures Ascii(Join(parts, sep))
    decreases |parts|
  {
    if |parts| > 1 {
      JoinIsAscii(parts[1..], sep);
    }
  }

  lemma AddressIsWord(a: HostAddress)
    ensures Word(PrintAddress(a))
  {
    PrintAddressFree(a, '\t');
    PrintAddressFree(a, '\r');
    PrintAddressFree(a, '\n');
    if a.IPv4? {
      hide PrintNat, Octet;
      forall i | 0 <= i < 4
        ensures Ascii(Quad(a.number)[i])
      {
        assert AllDigits(Quad(a.number)[i]);
      }
      JoinIsAscii(Quad(a.number), '.');
    }
  }

  lemma KeywordIsWord<K, V>(name: string, op: Op<K, V>)
    requires Word(name)
    ensures Word(Keyword(name, op))
  {
  }

  ghost predicate AllWords(f: seq<string>) {
    forall i :: 0 <= i < |f| ==> Word(f[i])
  }

  lemma PlaceIsWords(key: Key)
    ensures AllWords(Place(key))
  {
    hide PrintAddress, PrintInt, Word;
    AddressIsWord(IPv4(key.host));
    IntIsWord(key.slot);
  }

  lemma NodeFieldsAreWords(op: Op<IPv4Number, NodeInfo>)
    requires MessageSendable(Node(op))
    ensures AllWords(NodeFields(op))
  {
    KeywordIsWord("NODE", op);
    hide PrintAddress, PrintInt, Word, Keyword;
    AddressIsWord(IPv4(op.key));
    if !op.Remove? {
      IntIsWord(op.value.sources);
      IntIsWord(op.value.destinations);
      IntIsWord(op.value.gpis);
      IntIsWord(op.value.gpos);
    }
  }

  lemma SourceFieldsAreWords(op: Op<Key, SourceColumns>)
    requires MessageSendable(Source(op))
    ensures AllWords(SourceFields(op))
  {
    KeywordIsWord("SRC", op);
    assert Word("0") && Word("1");
    hide PrintAddress, PrintInt, Word, Keyword;
    PlaceIsWords(op.key);
    if !op.Remove? {
      AddressIsWord(op.value.link);
      IntIsWord(op.value.data.channels);
      IntIsWord(op.value.data.blockSize);
    }
  }

  lemma DestinationFieldsAreWords(op: Op<Key, DestinationColumns>)
    requires MessageSendable(Destination(op))
    ensures AllWords(DestinationFields(op))
  {
    KeywordIsWord("DST", op);
    hide PrintAddress, PrintInt, Word, Keyword;
    PlaceIsWords(op.key);
    if !op.Remove? {
      AddressIsWord(op.value.link);
      IntIsWord(op.value.data.channels);
    }
  }

  lemma GpiFieldsAreWords(op: Op<Key, GpiColumns>)
    requires MessageSendable(GpiPort(op))
    ensures AllWords(GpiFields(op))
  {
    KeywordIsWord("GPI", op);
    hide PrintAddress, PrintInt, Word, Keyword;
    PlaceIsWords(op.key);
  }

  lemma GpoFieldsAreWords(op: Op<Key, GpoColumns>)
    requires MessageSendable(GpoPort(op))
    ensures AllWords(GpoFields(op))
  {
    KeywordIsWord("GPO", op);
    hide PrintAddress, PrintInt, Word, Keyword;
    PlaceIsWords(op.key);
    if !op.Remove? {
      AddressIsWord(op.value.link.address);
      IntIsWord(op.value.link.slot);
    }
  }

  lemma FieldsAreWords(m: Message)
    requires MessageSendable(m)
    ensures AllWords(Fields(m))
  {
    hide NodeFields, SourceFields, DestinationFields, GpiFields, GpoFields, MessageSendable;
    match m
    case Node(op) => NodeFieldsAreWords(op);
    case Source(op) => SourceFieldsAreWords(op);
    case Destination(op) => DestinationFieldsAreWords(op);
    case GpiPort(op) => GpiFieldsAreWords(op);
    case GpoPort(op) => GpoFieldsAreWords(op);
    case Ok =>
    case Pong =>
  }

  /** A printed message is one line of 7-bit text, and reads back as itself. */
  lemma MessageReadsBack(m: Message)
    requires MessageSendable(m)
    ensures ParseMessage(PrintMessage(m)) == Some(m)
    ensures OneLine(PrintMessage(m)) && Ascii(PrintMessage(m))
  {
    FieldsAreWords(m);
    FieldsReadBack(m);
    hide Fields, FromFields, MessageSendable, Join, Split;
    SplitJoin(Fields(m), '\t');
    JoinFree(Fields(m), '\t', '\r');
    JoinFree(Fields(m), '\t', '\n');
    JoinIsAscii(Fields(m), '\t');
  }

  lemma FieldsSplit(m: Message)
    requires MessageSendable(m)
    ensures Split(PrintMessage(m), '\t') == Fields(m)
  {
    FieldsAreWords(m);
    hide MessageSendable, Fields, Join, Split;
    SplitJoin(Fields(m), '\t');
  }

  // ----- The records on the wire: which columns, in which order, in which form -----

  lemma NodeOnTheWire(op: Op<IPv4Number, NodeInfo>)
    requires MessageSendable(Node(op))
    ensures Split(PrintMessage(Node(op)), '\t') ==
            if op.Remove? then ["NODEDEL", PrintAddress(IPv4(op.key))]
            else
              [if op.Add? then "NODEADD" else "NODE", PrintAddress(IPv4(op.key)),
               op.value.hostName, op.value.deviceName, PrintInt(op.value.sources), PrintInt(op.value.destinations),
               PrintInt(op.value.gpis), PrintInt(op.value.gpos)]
  {
    hide MessageSendable, Word, Join, Split, PrintAddress, PrintInt;
    FieldsSplit(Node(op));
    assert "NODE" + "ADD" == "NODEADD" && "NODE" + "DEL" == "NODEDEL";
  }

  lemma SourceOnTheWire(op: Op<Key, SourceColumns>)
    requires MessageSendable(Source(op))
    ensures Split(PrintMessage(Source(op)), '\t') ==
            if op.Remove? then ["SRCDEL", PrintAddress(IPv4(op.key.host)), PrintInt(op.key.slot)]
            else
              [if op.Add? then "SRCADD" else "SRC", PrintAddress(IPv4(op.key.host)), PrintInt(op.key.slot),
               op.value.data.hostName, PrintAddress(op.value.link), op.value.data.name,
               if op.value.data.enabled then "1" else "0", PrintInt(op.value.data.channels),
               PrintInt(op.value.data.blockSize)]
  {
    hide MessageSendable, Word, Join, Split, PrintAddress, PrintInt;
    FieldsSplit(Source(op));
    assert "SRC" + "ADD" == "SRCADD" && "SRC" + "DEL" == "SRCDEL";
  }

  lemma DestinationOnTheWire(op: Op<Key, DestinationColumns>)
    requires MessageSendable(Destination(op))
    ensures Split(PrintMessage(Destination(op)), '\t') ==
            if op.Remove? then ["DSTDEL", PrintAddress(IPv4(op.key.host)), PrintInt(op.key.slot)]
            else
              [if op.Add? then "DSTADD" else "DST", PrintAddress(IPv4(op.key.host)), PrintInt(op.key.slot),
               op.value.data.hostName, PrintAddress(op.value.link), op.value.data.name,
               PrintInt(op.value.data.channels)]
  {
    hide MessageSendable, Word, Join, Split, PrintAddress, PrintInt;
    FieldsSplit(Destination(op));
    assert "DST" + "ADD" == "DSTADD" && "DST" + "DEL" == "DSTDEL";
  }

  lemma GpiOnTheWire(op: Op<Key, GpiColumns>)
    requires MessageSendable(GpiPort(op))
    ensures Split(PrintMessage(GpiPort(op)), '\t') ==
            if op.Remove? then ["GPIDEL", PrintAddress(IPv4(op.key.host)), PrintInt(op.key.slot)]
            else
              [if op.Add? then "GPIADD" else "GPI", PrintAddress(IPv4(op.key.host)), PrintInt(op.key.slot),
               op.value.data.hostName, op.value.data.code]
  {
    hide MessageSendable, Word, Join, Split, PrintAddress, PrintInt;
    FieldsSplit(GpiPort(op));
    assert "GPI" + "ADD" == "GPIADD" && "GPI" + "DEL" == "GPIDEL";
  }

  lemma GpoOnTheWire(op: Op<Key, GpoColumns>)
    requires MessageSendable(GpoPort(op))
    ensures Split(PrintMessage(GpoPort(op)), '\t') ==
            if op.Remove? then ["GPODEL", PrintAddress(IPv4(op.key.host)), PrintInt(op.key.slot)]
            else
              [if op.Add? then "GPOADD" else "GPO", PrintAddress(IPv4(op.key.host)), PrintInt(op.key.slot),
               op.value.data.hostName, op.value.data.code, op.value.data.name, PrintAddress(op.value.link.address),
               PrintInt(op.value.link.slot)]
  {
    hide MessageSendable, Word, Join, Split, PrintAddress, PrintInt;
    FieldsSplit(GpoPort(op));
    assert "GPO" + "ADD" == "GPOADD" && "GPO" + "DEL" == "GPODEL";
  }

  // ----- Whole streams -----

  function Printed(ms: seq<Message>): seq<string> {
    seq(|ms|, i requires 0 <= i < |ms| => PrintMessage(ms[i]))
  }

  /** The messages among some received lines. */
  function Understood(lines: seq<string>): seq<Message> {
    if lines == [] then []
    else
      Understood(lines[..|lines| - 1]) +
      match ParseMessage(lines[|lines| - 1])
      case None => []
      case Some(m) => [m]
  }

  lemma {:induction false} PrintedIsUnderstood(ms: seq<Message>)
    requires forall i :: 0 <= i < |ms| ==> MessageSendable(ms[i])
    ensures Understood(Printed(ms)) == ms
    ensures forall i :: 0 <= i < |ms| ==> OneLine(Printed(ms)[i]) && Ascii(Printed(ms)[i])
  {
    hide MessageSendable, PrintMessage, ParseMessage, OneLine, Ascii;
    if ms != [] {
      var n := |ms| - 1;
      PrintedIsUnderstood(ms[..n]);
      MessageReadsBack(ms[n]);
      assert Printed(ms)[..n] == Printed(ms[..n]);
      assert ms[..n] + [ms[n]] == ms;
    }
  }

  lemma {:induction false} SentIsAscii(lines: seq<string>)
    requires forall i :: 0 <= i < |lines| ==> Ascii(lines[i])
    ensures Ascii(Sent(lines))
  {
    if lines != [] {
      SentIsAscii(lines[..|lines| - 1]);
    }
  }

  /**
   * Messages written as UTF-8 text arrive, however the bytes are cut into reads, as exactly those messages,
   * with nothing left over.
   */
  lemma StreamArrives(ms: seq<Message>, chunks: seq<string>)
    requires forall i :: 0 <= i < |ms| ==> MessageSendable(ms[i])
    ensures var (rest, lines) := FedInReads("", chunks);
            Concat(chunks) == Utf8(Sent(Printed(ms))) ==> rest == "" && Understood(lines) == ms
  {
    hide MessageSendable, OneLine, Understood, Printed, Fed, FedInReads, Sent, Utf8, Concat;
    PrintedIsUnderstood(ms);
    assert |Printed(ms)| == |ms| by {
      PrintedHasLength(ms);
    }
    SentIsAscii(Printed(ms));
    ReadBackIffAscii(Sent(Printed(ms)));
    CutsDoNotMatter("", chunks);
    SentArrives(Printed(ms));
  }

  lemma PrintedHasLength(ms: seq<Message>)
    ensures |Printed(ms)| == |ms|
  {
  }
}
