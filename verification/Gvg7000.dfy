/** Framing of commands for the Grass Valley 7000 router: header, checksum, footer, and the receiver. */
module Gvg7000 {
  import opened Text
  import opened Lines

  const SOH := 1 as char
  const EOT := 4 as char

  // ----- Checksum -----

  function Sum(s: string): nat {
    if s == "" then 0 else Sum(s[..|s| - 1]) + s[|s| - 1] as int
  }

  function ChecksumOf(s: string): (sum: nat)
    ensures sum < 256 && (Sum(s) + sum) % 256 == 0
  {
    (256 - Sum(s) % 256) % 256
  }

  lemma WrapsAround(sum: nat, x: nat)
    ensures (sum % 256 + x) % 256 == (sum + x) % 256
  {
  }

  /** The value that brings the bytes to zero modulo 256, computed in one wrapping byte. */
  method GvgChecksum(msg: string) returns (sum: nat)
    ensures sum == ChecksumOf(msg)
  {
    sum := 0;
    for i := 0 to |msg|
      invariant sum == Sum(msg[..i]) % 256
    {
      assert msg[..i + 1][..i] == msg[..i];
      WrapsAround(Sum(msg[..i]), msg[i] as int);
      sum := (sum + msg[i] as int) % 256;
    }
    assert msg[..|msg|] == msg;
    sum := (256 - sum) % 256;
  }

  function HexDigit(d: nat): (c: char)
    requires d < 16
    ensures c != SOH && c != EOT && c as int < 128
  {
    if d < 10 then '0' + d as char else 'A' + (d - 10) as char
  }

  function Hex(n: nat): string
    requires n < 256
  {
    [HexDigit(n / 16), HexDigit(n % 16)]
  }

  lemma HexIsInjective(m: nat, n: nat)
    requires m < 256 && n < 256 && Hex(m) == Hex(n)
    ensures m == n
  {
  }

  function HexDigitValue(c: char): Option<nat> {
    if '0' <= c <= '9' then Some((c - '0') as nat)
    else if 'A' <= c <= 'F' then Some((c - 'A') as nat + 10)
    else None
  }

  /** The value of two upper-case hexadecimal digits. */
  function HexValue(s: string): Option<nat> {
    if |s| != 2 then None
    else
      match (HexDigitValue(s[0]), HexDigitValue(s[1]))
      case (Some(a), Some(b)) => Some(16 * a + b)
      case _ => None
  }

  lemma HexReadsBack(n: nat, s: string)
    requires n < 256
    ensures Hex(n) == s <==> HexValue(s) == Some(n)
  {
    if HexValue(s) == Some(n) {
      assert n / 16 == HexDigitValue(s[0]).value && n % 16 == HexDigitValue(s[1]).value;
    }
  }

  // ----- Sending -----

  function WithTabs(s: string): string {
    seq(|s|, i requires 0 <= i < |s| => if s[i] == ',' then '\t' else s[i])
  }

  /** Commas become tabs, and the last field is terminated by one. */
  function Tabbed(s: string): string {
    var t := WithTabs(s);
    if t != "" && t[|t| - 1] == '\t' then t else t + "\t"
  }

  function ToGvgNative(str: string): string {
    var msg := "N0" + Tabbed(str);
    Utf8([SOH] + msg + Hex(ChecksumOf(Utf8(msg))) + [EOT])
  }

  // ----- Receiving -----

  /** All but the last two bytes; nothing when there are fewer. */
  function Body(msg: string): string {
    if |msg| < 2 then "" else msg[..|msg| - 2]
  }

  function LastTwo(msg: string): string {
    if |msg| < 2 then msg else msg[|msg| - 2..]
  }

  predicate Verifies(msg: string) {
    Hex(ChecksumOf(Body(msg))) == LastTwo(msg)
  }

  /** The data of a message; one of three bytes is too short for its negative length to be noticed. */
  function Payload(msg: string): string
    requires |msg| >= 2
  {
    if |msg| < 4 then msg[2..] else msg[2..|msg| - 2]
  }

  /** The command in a message: none when the checksum is wrong or the protocol unknown. */
  function CommandIn(msg: string): Option<string> {
    if !Verifies(msg) || msg[0] != 'N' then None else Some(Payload(msg))
  }

  /** The bytes since the last header, and the commands processed so far. */
  datatype Receiver = Receiver(raw: string, commands: seq<string>)

  function OnByte(r: Receiver, c: char): Receiver {
    if c == SOH then r.(raw := "")
    else if c == EOT then
      match CommandIn(r.raw)
      case None => r
      case Some(command) => r.(commands := r.commands + [command])
    else r.(raw := r.raw + [c])
  }

  function OnBytes(r: Receiver, bytes: string): Receiver
    decreases |bytes|
  {
    if bytes == "" then r else OnBytes(OnByte(r, bytes[0]), bytes[1..])
  }

  function OnReads(r: Receiver, chunks: seq<string>): Receiver
    decreases |chunks|
  {
    if chunks == [] then r else OnReads(OnBytes(r, chunks[0]), chunks[1..])
  }

  class MatrixGvg7000 {
    var rawAccum: string
    var layer4Accum: string
    ghost var commands: seq<string>

    ghost predicate Valid()
      reads this
    {
      layer4Accum == ""
    }

    ghost function State(): Receiver
      reads this
    {
      Receiver(rawAccum, commands)
    }

    constructor ()
      ensures Valid() && State() == Receiver("", [])
    {
      rawAccum, layer4Accum, commands := "", "", [];
    }

    method ReadyRead(data: string)
      requires Valid()
      modifies this
      ensures Valid() && State() == OnBytes(old(State()), data)
    {
      hide CommandIn;
      for i := 0 to |data|
        invariant Valid() && OnBytes(old(State()), data) == OnBytes(State(), data[i..])
      {
        var c := data[i];
        assert data[i..][1..] == data[i + 1..];
        if c == SOH {
          rawAccum := "";
        } else if c == EOT {
          DispatchGvgCommand(rawAccum);
        } else {
          rawAccum := rawAccum + [c];
        }
      }
    }

    method DispatchGvgCommand(msg: string)
      requires Valid()
      modifies `layer4Accum, `commands
      ensures Valid()
      ensures match CommandIn(msg)
              case None => commands == old(commands)
              case Some(command) => commands == old(commands) + [command]
    {
      var ok := GvgVerifyChecksum(msg);
      if ok {
        if msg[0] == 'N' {
          assert layer4Accum + Payload(msg) == Payload(msg);
          layer4Accum := layer4Accum + Payload(msg);
          ProcessGvgCommand(layer4Accum);
          layer4Accum := "";
        }
      }
    }

    method GvgVerifyChecksum(msg: string) returns (ok: bool)
      ensures ok == Verifies(msg)
    {
      var sum := GvgChecksum(Body(msg));
      ok := Hex(sum) == LastTwo(msg);
    }

    /** What a command does to the matrix is not part of this model; that it is processed is. */
    method ProcessGvgCommand(command: string)
      modifies `commands
      ensures commands == old(commands) + [command]
    {
      commands := commands + [command];
    }
  }

  // ----- The checksum covers everything between header and footer -----

  lemma {:induction false} SumAppend(a: string, b: string)
    ensures Sum(a + b) == Sum(a) + Sum(b)
    decreases |b|
  {
    if b == "" {
      assert a + b == a;
    } else {
      assert (a + b)[..|a + b| - 1] == a + b[..|b| - 1];
      SumAppend(a, b[..|b| - 1]);
    }
  }

  lemma SumAround(s: string, i: nat)
    requires i < |s|
    ensures Sum(s) == Sum(s[..i]) + s[i] as int + Sum(s[i + 1..])
  {
    var rest := s[i..];
    assert rest == [s[i]] + s[i + 1..];
    assert s == s[..i] + rest;
    SumAppend(s[..i], rest);
    SumAppend([s[i]], s[i + 1..]);
    assert [s[i]][..0] == "";
  }

  lemma SumSubstituted(s: string, i: nat, c: char)
    requires i < |s|
    ensures Sum(s[i := c]) == Sum(s) - s[i] as int + c as int
  {
    var t := s[i := c];
    assert t[..i] == s[..i] && t[i + 1..] == s[i + 1..];
    SumAround(s, i);
    SumAround(t, i);
  }

  /** The last two bytes are digits whose value brings the rest to zero modulo 256. */
  predicate SumsToZero(msg: string) {
    match HexValue(LastTwo(msg))
    case None => false
    case Some(v) => (Sum(Body(msg)) + v) % 256 == 0
  }

  /** That is exactly when a message is accepted. */
  lemma AcceptedIffSumIsZero(msg: string)
    ensures Verifies(msg) <==> SumsToZero(msg)
  {
    HexReadsBack(ChecksumOf(Body(msg)), LastTwo(msg));
    if HexValue(LastTwo(msg)).Some? {
      HexValueIsByte(LastTwo(msg));
      hide HexValue, Hex, Body, LastTwo;
      var v := HexValue(LastTwo(msg)).value;
      if (Sum(Body(msg)) + v) % 256 == 0 {
        ChecksumIsUnique(Body(msg), v);
      }
    }
  }

  lemma HexValueIsByte(s: string)
    requires HexValue(s).Some?
    ensures HexValue(s).value < 256
  {
  }

  lemma ChecksumIsUnique(s: string, sum: nat)
    requires sum < 256 && (Sum(s) + sum) % 256 == 0
    ensures sum == ChecksumOf(s)
  {
  }

  /** No single wrong byte, in the body or in the checksum digits, goes unnoticed. */
  lemma SubstitutionIsRejected(msg: string, i: nat, c: char)
    requires IsBytes(msg) && Verifies(msg) && i < |msg| && c as int < 256 && c != msg[i]
    ensures !Verifies(msg[i := c])
  {
    var bad := msg[i := c];
    hide Hex;
    if i < |msg| - 2 {
      assert Body(bad) == Body(msg)[i := c] && LastTwo(bad) == LastTwo(msg);
      SumSubstituted(Body(msg), i, c);
      if Verifies(bad) {
        HexIsInjective(ChecksumOf(Body(bad)), ChecksumOf(Body(msg)));
        SameSumSameByte(Sum(Body(msg)), msg[i] as int, c as int, ChecksumOf(Body(msg)));
      }
    } else {
      assert Body(bad) == Body(msg) && LastTwo(bad)[i + 2 - |msg|] != LastTwo(msg)[i + 2 - |msg|];
    }
  }

  lemma SameSumSameByte(sum: int, x: nat, y: nat, check: nat)
    requires x < 256 && y < 256 && (sum + check) % 256 == 0 && (sum - x + y + check) % 256 == 0
    ensures x == y
  {
  }

  // ----- Frames arrive -----

  /** Neither header nor footer. */
  predicate Plain(s: string) {
    forall i :: 0 <= i < |s| ==> s[i] != SOH && s[i] != EOT
  }

  lemma {:induction false} OnBytesAppend(r: Receiver, a: string, b: string)
    ensures OnBytes(r, a + b) == OnBytes(OnBytes(r, a), b)
    decreases |a|
  {
    hide OnByte;
    if a == "" {
      assert a + b == b;
    } else {
      assert (a + b)[1..] == a[1..] + b;
      OnBytesAppend(OnByte(r, a[0]), a[1..], b);
    }
  }

  /** It does not matter how the bytes are cut into reads. */
  lemma {:induction false} ReadsDoNotMatter(r: Receiver, chunks: seq<string>)
    ensures OnReads(r, chunks) == OnBytes(r, Concat(chunks))
    decreases |chunks|
  {
    hide OnByte;
    if chunks != [] {
      OnBytesAppend(r, chunks[0], Concat(chunks[1..]));
      ReadsDoNotMatter(OnBytes(r, chunks[0]), chunks[1..]);
    }
  }

  lemma {:induction false} PlainAccumulates(r: Receiver, s: string)
    requires Plain(s)
    ensures OnBytes(r, s) == r.(raw := r.raw + s)
    decreases |s|
  {
    if s == "" {
      assert r.raw + s == r.raw;
    } else {
      PlainAccumulates(OnByte(r, s[0]), s[1..]);
      assert r.raw + [s[0]] + s[1..] == r.raw + s;
    }
  }

  lemma OneByte(r: Receiver, c: char)
    ensures OnBytes(r, [c]) == OnByte(r, c)
  {
  }

  /** Whatever came before, a header, plain bytes and a footer bring exactly those bytes to be checked. */
  lemma MessageIsChecked(r: Receiver, gap: string, msg: string)
    requires Plain(gap) && Plain(msg)
    ensures OnBytes(r, gap + ([SOH] + msg + [EOT])) ==
            Receiver(msg, match CommandIn(msg) case None => r.commands case Some(command) => r.commands + [command])
  {
    hide CommandIn;
    PlainAccumulates(r, gap);
    var r1 := OnBytes(r, gap);
    OnBytesAppend(r, gap, [SOH] + msg + [EOT]);
    OneByte(r1, SOH);
    PlainAccumulates(OnByte(r1, SOH), msg);
    assert "" + msg == msg;
    OnBytesAppend(r1, [SOH], msg);
    OnBytesAppend(r1, [SOH] + msg, [EOT]);
    OneByte(OnBytes(r1, [SOH] + msg), EOT);
  }

  lemma {:induction false} Utf8Append(a: string, b: string)
    ensures Utf8(a + b) == Utf8(a) + Utf8(b)
    decreases |a|
  {
    hide Utf8Char;
    if a == "" {
      assert a + b == b;
    } else {
      assert (a + b)[1..] == a[1..] + b && (a + b)[0] == a[0];
      Utf8Append(a[1..], b);
      assert Utf8Char(a[0]) + Utf8(a[1..] + b) == Utf8(a) + Utf8(b);
    }
  }

  lemma Utf8CharIsPlain(c: char)
    requires c != SOH && c != EOT
    ensures Plain(Utf8Char(c)) && IsBytes(Utf8Char(c))
  {
  }

  lemma {:induction false} Utf8IsPlain(s: string)
    requires Plain(s)
    ensures Plain(Utf8(s)) && IsBytes(Utf8(s))
  {
    hide Utf8Char;
    if s != "" {
      Utf8CharIsPlain(s[0]);
      Utf8IsPlain(s[1..]);
    }
  }

  /** What is between the header and the footer of a frame. */
  function Framed(str: string): string {
    var msg := Utf8("N0" + Tabbed(str));
    msg + Hex(ChecksumOf(msg))
  }

  lemma HexIsAscii(n: nat)
    requires n < 256
    ensures Utf8([SOH]) == [SOH] && Utf8([EOT]) == [EOT] && Utf8(Hex(n)) == Hex(n) && Plain(Hex(n)) && IsBytes(Hex(n))
  {
    assert Ascii(Hex(n)) && Ascii([SOH]) && Ascii([EOT]);
    ReadBackIffAscii(Hex(n));
    ReadBackIffAscii([SOH]);
    ReadBackIffAscii([EOT]);
  }

  lemma TabbedIsPlain(str: string)
    requires Plain(str)
    ensures Plain("N0" + Tabbed(str))
  {
  }

  lemma FrameParts(str: string)
    requires Plain(str)
    ensures ToGvgNative(str) == [SOH] + Framed(str) + [EOT] && Plain(Framed(str)) && IsBytes(Framed(str))
  {
    hide Utf8, Hex, Tabbed, ChecksumOf;
    var msg := "N0" + Tabbed(str);
    TabbedIsPlain(str);
    var digits := Hex(ChecksumOf(Utf8(msg)));
    HexIsAscii(ChecksumOf(Utf8(msg)));
    Utf8IsPlain(msg);
    Utf8Append([SOH] + msg + digits, [EOT]);
    Utf8Append([SOH] + msg, digits);
    Utf8Append([SOH], msg);
    assert [SOH] + Utf8(msg) + digits == [SOH] + (Utf8(msg) + digits);
  }

  /** An accepted message of protocol N is its two header bytes, its command and its two digits, and nothing else. */
  lemma CommandIsTheRest(msg: string)
    requires |msg| >= 4
    ensures CommandIn(msg).Some? <==> Verifies(msg) && msg[0] == 'N'
    ensures CommandIn(msg).Some? ==> msg == [msg[0], msg[1]] + CommandIn(msg).value + msg[|msg| - 2..]
  {
    hide Verifies;
    assert msg == [msg[0], msg[1]] + msg[2..|msg| - 2] + msg[|msg| - 2..];
  }

  lemma FrameCommand(str: string)
    ensures Verifies(Framed(str)) && CommandIn(Framed(str)) == Some(Utf8(Tabbed(str)))
  {
    var msg := Utf8("N0" + Tabbed(str));
    assert Ascii("N0");
    ReadBackIffAscii("N0");
    Utf8Append("N0", Tabbed(str));
    TabbedIsNotEmpty(str);
    hide Utf8, Tabbed;
    assert Body(Framed(str)) == msg && LastTwo(Framed(str)) == Hex(ChecksumOf(msg));
    assert msg[0] == 'N' && msg[2..] == Utf8(Tabbed(str));
    assert Framed(str)[2..|Framed(str)| - 2] == msg[2..];
  }

  lemma TabbedIsNotEmpty(str: string)
    ensures Tabbed(str) != "" && Utf8(Tabbed(str)) != ""
  {
  }

  lemma FrameArrives(r: Receiver, gap: string, str: string)
    requires Plain(gap) && Plain(str)
    ensures OnBytes(r, gap + ToGvgNative(str)) == Receiver(Framed(str), r.commands + [Utf8(Tabbed(str))])
  {
    hide ToGvgNative, Framed, CommandIn, OnBytes, Utf8, Tabbed, Verifies, Plain;
    FrameParts(str);
    FrameCommand(str);
    MessageIsChecked(r, gap, Framed(str));
  }

  /** Any bytes before each frame, and the frames of the commands. */
  function Stream(gaps: seq<string>, strs: seq<string>): string
    requires |gaps| == |strs|
  {
    if strs == [] then ""
    else
      var n := |strs| - 1;
      Stream(gaps[..n], strs[..n]) + (gaps[n] + ToGvgNative(strs[n]))
  }

  function Commands(strs: seq<string>): seq<string> {
    seq(|strs|, i requires 0 <= i < |strs| => Utf8(Tabbed(strs[i])))
  }

  lemma {:induction false} FramesArriveWhole(r: Receiver, gaps: seq<string>, strs: seq<string>)
    requires |gaps| == |strs| && forall i :: 0 <= i < |strs| ==> Plain(gaps[i]) && Plain(strs[i])
    ensures OnBytes(r, Stream(gaps, strs)).commands == r.commands + Commands(strs)
    decreases |strs|
  {
    hide ToGvgNative, Framed, OnBytes, Plain, Utf8, Tabbed;
    if strs == [] {
      NothingReceived(r);
      assert r.commands + Commands(strs) == r.commands;
    } else {
      var n := |strs| - 1;
      FramesArriveWhole(r, gaps[..n], strs[..n]);
      OnBytesAppend(r, Stream(gaps[..n], strs[..n]), gaps[n] + ToGvgNative(strs[n]));
      FrameArrives(OnBytes(r, Stream(gaps[..n], strs[..n])), gaps[n], strs[n]);
      assert Commands(strs) == Commands(strs[..n]) + [Utf8(Tabbed(strs[n]))];
    }
  }

  lemma NothingReceived(r: Receiver)
    ensures OnBytes(r, "") == r
  {
  }

  /**
   * Whatever the receiver held before, with any plain bytes before, between and after the frames, and however
   * the stream is cut into reads: exactly the commands with their commas as tabs, in order.
   */
  lemma FramesArrive(r: Receiver, gaps: seq<string>, strs: seq<string>, tail: string, chunks: seq<string>)
    requires |gaps| == |strs| && forall i :: 0 <= i < |strs| ==> Plain(gaps[i]) && Plain(strs[i])
    requires Plain(tail) && Concat(chunks) == Stream(gaps, strs) + tail
    ensures OnReads(r, chunks).commands == r.commands + Commands(strs)
  {
    hide OnBytes, OnReads, Concat, Stream, Commands;
    FramesArriveWhole(r, gaps, strs);
    ReadsDoNotMatter(r, chunks);
    OnBytesAppend(r, Stream(gaps, strs), tail);
    PlainAccumulates(OnBytes(r, Stream(gaps, strs)), tail);
  }

  /** A frame with one wrong byte between header and footer. */
  function Damaged(str: string, i: nat, c: char): string
    requires i < |Framed(str)|
  {
    [SOH] + Framed(str)[i := c] + [EOT]
  }

  lemma DamageIsRejected(str: string, i: nat, c: char)
    requires Plain(str) && i < |Framed(str)| && c as int < 256 && c != Framed(str)[i] && c != SOH && c != EOT
    ensures CommandIn(Framed(str)[i := c]) == None && Plain(Framed(str)[i := c])
  {
    hide ToGvgNative, Framed, Verifies;
    FrameParts(str);
    FrameCommand(str);
    SubstitutionIsRejected(Framed(str), i, c);
  }

  /** It is dropped, and the next frame is unharmed. */
  lemma DamageIsContained(r: Receiver, str: string, i: nat, c: char, gap: string, next: string)
    requires Plain(str) && Plain(gap) && Plain(next)
    requires i < |Framed(str)| && c as int < 256 && c != Framed(str)[i] && c != SOH && c != EOT
    ensures OnBytes(r, Damaged(str, i, c) + (gap + ToGvgNative(next))).commands == r.commands + [Utf8(Tabbed(next))]
  {
    NothingIsPlain();
    hide ToGvgNative, Framed, CommandIn, OnBytes, Utf8, Tabbed, Plain;
    DamageIsRejected(str, i, c);
    MessageIsChecked(r, "", Framed(str)[i := c]);
    assert "" + Damaged(str, i, c) == Damaged(str, i, c);
    OnBytesAppend(r, Damaged(str, i, c), gap + ToGvgNative(next));
    FrameArrives(OnBytes(r, Damaged(str, i, c)), gap, next);
  }

  lemma NothingIsPlain()
    ensures Plain("")
  {
  }

  lemma FramedStarts(str: string, more: string)
    ensures |Framed(str) + more| >= 2 && (Framed(str) + more)[0] == 'N'
  {
    FrameCommand(str);
    hide Framed, Payload;
    AcceptedIffSumIsZero(Framed(str));
  }

  /**
   * The receiver keeps its bytes after a footer. After a frame and some plain bytes, a second footer leaves it at
   * the one command exactly when the frame's bytes and those together do not sum to zero; otherwise it processes
   * their payload as another command.
   */
  lemma SecondFooterExact(r: Receiver, str: string, more: string)
    requires Plain(str) && Plain(more)
    ensures var once := r.commands + [Utf8(Tabbed(str))];
            var all := OnBytes(r, ToGvgNative(str) + more + [EOT]).commands;
            && (all == once <==> !SumsToZero(Framed(str) + more))
            && (all != once ==> all == once + [Payload(Framed(str) + more)])
  {
    NothingIsPlain();
    FramedStarts(str, more);
    hide ToGvgNative, Framed, OnBytes, Utf8, Tabbed, Plain, Verifies, SumsToZero, Payload;
    AcceptedIffSumIsZero(Framed(str) + more);
    FrameArrives(r, "", str);
    assert "" + ToGvgNative(str) == ToGvgNative(str);
    OnBytesAppend(r, ToGvgNative(str), more);
    PlainAccumulates(OnBytes(r, ToGvgNative(str)), more);
    OnBytesAppend(r, ToGvgNative(str) + more, [EOT]);
    OneByte(OnBytes(r, ToGvgNative(str) + more), EOT);
  }

  /** For instance, directly after a frame a second footer always makes it process the command again. */
  lemma StrayFooterRepeats(r: Receiver, str: string)
    requires Plain(str)
    ensures OnBytes(r, ToGvgNative(str) + [EOT]).commands == r.commands + [Utf8(Tabbed(str))] + [Utf8(Tabbed(str))]
  {
    NothingIsPlain();
    FrameCommand(str);
    AcceptedIffSumIsZero(Framed(str));
    hide ToGvgNative, Framed, OnBytes, Utf8, Tabbed, Plain, Verifies, SumsToZero, Payload;
    assert Framed(str) + "" == Framed(str) && ToGvgNative(str) + "" == ToGvgNative(str);
    SecondFooterExact(r, str, "");
  }

  // ----- The fields of a command -----

  lemma {:induction false} WithTabsJoins(fields: seq<string>)
    requires |fields| >= 1 && forall i :: 0 <= i < |fields| ==> Free(fields[i], ',')
    ensures WithTabs(Join(fields, ',')) == Join(fields, '\t')
    decreases |fields|
  {
    if |fields| == 1 {
      assert WithTabs(fields[0]) == fields[0];
    } else {
      WithTabsJoins(fields[1..]);
      assert WithTabs(fields[0]) == fields[0];
      var rest := Join(fields[1..], ',');
      assert WithTabs(fields[0] + [','] + rest) == WithTabs(fields[0]) + ['\t'] + WithTabs(rest);
    }
  }

  lemma {:induction false} JoinOneMore(fields: seq<string>, last: string, sep: char)
    requires |fields| >= 1
    ensures Join(fields + [last], sep) == Join(fields, sep) + [sep] + last
    decreases |fields|
  {
    if |fields| == 1 {
      assert (fields + [last])[1..] == [last];
    } else {
      assert (fields + [last])[1..] == fields[1..] + [last];
      JoinOneMore(fields[1..], last, sep);
      assert fields[0] + [sep] + (Join(fields[1..], sep) + [sep] + last) == Join(fields, sep) + [sep] + last;
    }
  }

  lemma {:induction false} LastCharacter(fields: seq<string>, sep: char)
    requires |fields| >= 1 && fields[|fields| - 1] != ""
    ensures var j, last := Join(fields, sep), fields[|fields| - 1];
            j != "" && j[|j| - 1] == last[|last| - 1]
    decreases |fields|
  {
    if |fields| > 1 {
      LastCharacter(fields[1..], sep);
    }
  }

  /** The receiver splits a command into the fields it was put together from, and an empty last one. */
  lemma FieldsArrive(fields: seq<string>)
    requires |fields| >= 1 && fields[|fields| - 1] != ""
    requires forall i :: 0 <= i < |fields| ==> Free(fields[i], ',') && Free(fields[i], '\t')
    ensures Split(Tabbed(Join(fields, ',')), '\t') == fields + [""]
  {
    WithTabsJoins(fields);
    LastCharacter(fields, '\t');
    JoinOneMore(fields, "", '\t');
    hide Join, Split, WithTabs;
    assert Join(fields, '\t') + ['\t'] + "" == Join(fields, '\t') + "\t";
    var more := fields + [""];
    assert forall i :: 0 <= i < |more| ==> Free(more[i], '\t');
    SplitJoin(more, '\t');
  }
}
