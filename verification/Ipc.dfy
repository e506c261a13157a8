/** The messages between the core and its protocol processes: requests going in, notices coming out. */
module Ipc {
  import opened Addresses
  import opened Text

  /** What a protocol process asks of the core. */
  datatype Command =
    | ClearCrosspoint(host: HostAddress, slot: int)
    | ClearGpioCrosspoint(host: HostAddress, slot: int)
    | SetCrosspoint(host: HostAddress, slot: int, sourceHost: HostAddress, sourceSlot: int)
    | SetGpioCrosspoint(host: HostAddress, slot: int, sourceHost: HostAddress, sourceSlot: int)
    | SetGpiState(host: HostAddress, slot: int, code: string)
    | SetGpoState(host: HostAddress, slot: int, code: string)

  function Words(c: Command): seq<string> {
    match c
    case ClearCrosspoint(h, s) => ["ClearCrosspoint", PrintAddress(h), PrintInt(s)]
    case ClearGpioCrosspoint(h, s) => ["ClearGpioCrosspoint", PrintAddress(h), PrintInt(s)]
    case SetCrosspoint(h, s, g, r) => ["SetCrosspoint", PrintAddress(h), PrintInt(s), PrintAddress(g), PrintInt(r)]
    case SetGpioCrosspoint(h, s, g, r) =>
      ["SetGpioCrosspoint", PrintAddress(h), PrintInt(s), PrintAddress(g), PrintInt(r)]
    case SetGpiState(h, s, code) => ["SetGpiState", PrintAddress(h), PrintInt(s), code]
    case SetGpoState(h, s, code) => ["SetGpoState", PrintAddress(h), PrintInt(s), code]
  }

  /** The text before the line end. */
  function PrintCommand(c: Command): string {
    Join(Words(c), ' ')
  }

  function Crosspoint(words: seq<string>, gpio: bool): Option<Command>
    requires |words| == 5
  {
    match (ParseUInt(words[2]), ParseUInt(words[4]))
    case (Some(s), Some(r)) =>
      Some(if gpio then SetGpioCrosspoint(ParseAddress(words[1]), s, ParseAddress(words[3]), r)
           else SetCrosspoint(ParseAddress(words[1]), s, ParseAddress(words[3]), r))
    case _ => None
  }

  function SlotCommand(words: seq<string>): Option<Command>
    requires |words| == 3 || |words| == 4
  {
    match ParseUInt(words[2])
    case None => None
    case Some(s) =>
      var h := ParseAddress(words[1]);
      if |words| == 3 then
        if words[0] == "ClearCrosspoint" then Some(ClearCrosspoint(h, s))
        else if words[0] == "ClearGpioCrosspoint" then Some(ClearGpioCrosspoint(h, s))
        else None
      else if words[0] == "SetGpiState" then Some(SetGpiState(h, s, words[3]))
      else if words[0] == "SetGpoState" then Some(SetGpoState(h, s, words[3]))
      else None
  }

  function FromWords(words: seq<string>): Option<Command>
    requires |words| >= 1
  {
    if |words| == 3 || |words| == 4 then SlotCommand(words)
    else if |words| == 5 && words[0] == "SetCrosspoint" then Crosspoint(words, false)
    else if |words| == 5 && words[0] == "SetGpioCrosspoint" then Crosspoint(words, true)
    else None
  }

  function ParseCommand(text: string): Option<Command> {
    FromWords(Split(text, ' '))
  }

  predicate IsSlot(s: int) {
    0 <= s < 0x8000_0000
  }

  predicate Sendable(c: Command) {
    && IsSlot(c.slot)
    && (c.SetCrosspoint? || c.SetGpioCrosspoint? ==> IsSlot(c.sourceSlot))
    && (c.SetGpiState? || c.SetGpoState? ==> Free(c.code, ' '))
  }

  lemma WordsReadBack(c: Command)
    requires Sendable(c)
    ensures FromWords(Words(c)) == Some(c)
  {
    hide PrintAddress, ParseAddress, PrintInt, ParseUInt, ParseInt;
    ParsePrintAddress(c.host);
    ParsePrintInt(c.slot);
    if c.SetCrosspoint? || c.SetGpioCrosspoint? {
      ParsePrintAddress(c.sourceHost);
      ParsePrintInt(c.sourceSlot);
    }
  }

  lemma WordsFree(c: Command)
    requires Sendable(c)
    ensures forall i :: 0 <= i < |Words(c)| ==> Free(Words(c)[i], ' ')
  {
    hide PrintAddress, PrintInt;
    PrintAddressFree(c.host, ' ');
    PrintIntFree(c.slot, ' ');
    if c.SetCrosspoint? || c.SetGpioCrosspoint? {
      PrintAddressFree(c.sourceHost, ' ');
      PrintIntFree(c.sourceSlot, ' ');
    }
  }

  /** The core reads back exactly the request that was printed. */
  lemma CommandReadsBack(c: Command)
    requires Sendable(c)
    ensures ParseCommand(PrintCommand(c)) == Some(c)
  {
    hide Words, FromWords, Split, Join;
    WordsFree(c);
    WordsReadBack(c);
    assert |Words(c)| >= 1 by {
      NonemptyWords(c);
    }
    SplitJoin(Words(c), ' ');
  }

  /** The request as the handlers write it. */
  lemma RequestOnTheWire(c: Command)
    requires Sendable(c)
    ensures var words := Split(PrintCommand(c), ' ');
            match c
            case ClearCrosspoint(h, s) => words == ["ClearCrosspoint", PrintAddress(h), PrintInt(s)]
            case ClearGpioCrosspoint(h, s) => words == ["ClearGpioCrosspoint", PrintAddress(h), PrintInt(s)]
            case SetCrosspoint(h, s, g, r) =>
              words == ["SetCrosspoint", PrintAddress(h), PrintInt(s), PrintAddress(g), PrintInt(r)]
            case SetGpioCrosspoint(h, s, g, r) =>
              words == ["SetGpioCrosspoint", PrintAddress(h), PrintInt(s), PrintAddress(g), PrintInt(r)]
            case SetGpiState(h, s, code) => words == ["SetGpiState", PrintAddress(h), PrintInt(s), code]
            case SetGpoState(h, s, code) => words == ["SetGpoState", PrintAddress(h), PrintInt(s), code]
  {
    hide Split, Join, PrintAddress, PrintInt;
    WordsFree(c);
    SplitJoin(Words(c), ' ');
  }

  lemma NonemptyWords(c: Command)
    ensures |Words(c)| >= 1
  {
  }

  // ----- Notices -----

  datatype Notice =
    | Tether(active: bool)
    | NodeAdd(host: HostAddress)
    | NodeDel(host: HostAddress, sources: int, destinations: int, gpis: int, gpos: int)
    | Slot(topic: Topic, host: HostAddress, slot: int)

  /** `DstX` and `GpoX` announce a changed crosspoint, `GpiCode` and `GpoCode` a changed state. */
  datatype Topic = Src | Dst | DstX | Gpi | GpiCode | Gpo | GpoX | GpoCode

  function TopicName(t: Topic): string {
    match t
    case Src => "SRC"
    case Dst => "DST"
    case DstX => "DSTX"
    case Gpi => "GPI"
    case GpiCode => "GPICODE"
    case Gpo => "GPO"
    case GpoX => "GPOX"
    case GpoCode => "GPOCODE"
  }

  function NoticeWords(n: Notice): seq<string> {
    match n
    case Tether(active) => ["TETHER", if active then "Y" else "N"]
    case NodeAdd(h) => ["NODEADD", PrintAddress(h)]
    case NodeDel(h, a, b, c, d) => ["NODEDEL", PrintAddress(h), PrintInt(a), PrintInt(b), PrintInt(c), PrintInt(d)]
    case Slot(t, h, s) => [TopicName(t), PrintAddress(h), PrintInt(s)]
  }

  function PrintNotice(n: Notice): string {
    Join(NoticeWords(n), ':')
  }

  /** A number that does not parse reads as zero. */
  function NumberOr0(s: string): int {
    match ParseInt(s)
    case Some(n) => n
    case None => 0
  }

  function TopicNamed(s: string): Option<Topic> {
    if s == "SRC" then Some(Src) else if s == "DST" then Some(Dst) else if s == "DSTX" then Some(DstX)
    else if s == "GPI" then Some(Gpi) else if s == "GPICODE" then Some(GpiCode)
    else if s == "GPO" then Some(Gpo) else if s == "GPOX" then Some(GpoX) else if s == "GPOCODE" then Some(GpoCode)
    else None
  }

  function NoticeFromWords(words: seq<string>): Option<Notice>
    requires |words| >= 1
  {
    if words[0] == "TETHER" && |words| == 2 then Some(Tether(words[1] == "Y"))
    else if words[0] == "NODEADD" && |words| == 2 then Some(NodeAdd(ParseAddress(words[1])))
    else if words[0] == "NODEDEL" && |words| == 6 then
      Some(NodeDel(ParseAddress(words[1]), NumberOr0(words[2]), NumberOr0(words[3]), NumberOr0(words[4]),
                   NumberOr0(words[5])))
    else if |words| == 3 && TopicNamed(words[0]).Some? then
      Some(Slot(TopicNamed(words[0]).value, ParseAddress(words[1]), NumberOr0(words[2])))
    else None
  }

  function ParseNotice(text: string): Option<Notice> {
    NoticeFromWords(Split(text, ':'))
  }

  predicate NoticeSendable(n: Notice) {
    && (n.NodeDel? ==> IsSlot(n.sources) && IsSlot(n.destinations) && IsSlot(n.gpis) && IsSlot(n.gpos))
    && (n.Slot? ==> IsSlot(n.slot))
  }

  lemma NoticeWordsReadBack(n: Notice)
    requires NoticeSendable(n)
    ensures NoticeFromWords(NoticeWords(n)) == Some(n)
  {
    hide PrintAddress, ParseAddress, PrintInt, ParseInt;
    match n
    case Tether(_) =>
    case NodeAdd(h) => ParsePrintAddress(h);
    case NodeDel(h, a, b, c, d) =>
      ParsePrintAddress(h);
      ParsePrintInt(a);
      ParsePrintInt(b);
      ParsePrintInt(c);
      ParsePrintInt(d);
    case Slot(t, h, s) =>
      ParsePrintAddress(h);
      ParsePrintInt(s);
      TopicReadsBack(t);
  }

  lemma TopicReadsBack(t: Topic)
    ensures TopicNamed(TopicName(t)) == Some(t) && Free(TopicName(t), ':')
    ensures TopicName(t) != "TETHER" && TopicName(t) != "NODEADD" && TopicName(t) != "NODEDEL"
  {
  }

  lemma NoticeWordsFree(n: Notice)
    ensures |NoticeWords(n)| >= 1 && forall i :: 0 <= i < |NoticeWords(n)| ==> Free(NoticeWords(n)[i], ':')
  {
    hide PrintAddress, PrintInt, TopicName;
    match n
    case Tether(_) =>
    case NodeAdd(h) => PrintAddressFree(h, ':');
    case NodeDel(h, a, b, c, d) =>
      PrintAddressFree(h, ':');
      PrintIntFree(a, ':');
      PrintIntFree(b, ':');
      PrintIntFree(c, ':');
      PrintIntFree(d, ':');
    case Slot(t, h, s) =>
      PrintAddressFree(h, ':');
      PrintIntFree(s, ':');
      TopicReadsBack(t);
  }

  /** The notice as the core writes it. */
  lemma NoticeOnTheWire(n: Notice)
    ensures var words := Split(PrintNotice(n), ':');
            match n
            case Tether(active) => words == ["TETHER", if active then "Y" else "N"]
            case NodeAdd(h) => words == ["NODEADD", PrintAddress(h)]
            case NodeDel(h, a, b, c, d) =>
              words == ["NODEDEL", PrintAddress(h), PrintInt(a), PrintInt(b), PrintInt(c), PrintInt(d)]
            case Slot(Src, h, s) => words == ["SRC", PrintAddress(h), PrintInt(s)]
            case Slot(Dst, h, s) => words == ["DST", PrintAddress(h), PrintInt(s)]
            case Slot(DstX, h, s) => words == ["DSTX", PrintAddress(h), PrintInt(s)]
            case Slot(Gpi, h, s) => words == ["GPI", PrintAddress(h), PrintInt(s)]
            case Slot(GpiCode, h, s) => words == ["GPICODE", PrintAddress(h), PrintInt(s)]
            case Slot(Gpo, h, s) => words == ["GPO", PrintAddress(h), PrintInt(s)]
            case Slot(GpoX, h, s) => words == ["GPOX", PrintAddress(h), PrintInt(s)]
            case Slot(GpoCode, h, s) => words == ["GPOCODE", PrintAddress(h), PrintInt(s)]
  {
    hide Split, Join, PrintAddress, PrintInt;
    NoticeWordsFree(n);
    SplitJoin(NoticeWords(n), ':');
  }

  /** A protocol process reads back exactly the notice that was printed. */
  lemma NoticeReadsBack(n: Notice)
    requires NoticeSendable(n)
    ensures ParseNotice(PrintNotice(n)) == Some(n)
  {
    hide NoticeWords, NoticeFromWords, Split, Join;
    NoticeWordsFree(n);
    NoticeWordsReadBack(n);
    SplitJoin(NoticeWords(n), ':');
  }
}
