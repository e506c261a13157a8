/**
 * Line framing, as every socket of the program does it: text is sent as UTF-8 with CR LF after each line;
 * bytes are received one by one, a CR completes a line, LF bytes are skipped, and every other byte becomes
 * one character. Bytes are characters below 256 here.
 */
module Lines {
  import opened Text

  predicate IsBytes(s: string) {
    forall i :: 0 <= i < |s| ==> s[i] as int < 256
  }

  /** The unfinished line after some bytes, and the lines completed by them. */
  function Fed(accum: string, bytes: string): (string, seq<string>) {
    if bytes == "" then (accum, [])
    else
      var (a, lines) := Fed(accum, bytes[..|bytes| - 1]);
      var c := bytes[|bytes| - 1];
      if c == '\n' then (a, lines)
      else if c == '\r' then ("", lines + [a])
      else (a + [c], lines)
  }

  lemma NothingFed(accum: string)
    ensures Fed(accum, "") == (accum, [])
  {
  }

  lemma FedByte(accum: string, x: string, c: char)
    ensures var (a, l) := Fed(accum, x);
            Fed(accum, x + [c]) == if c == '\n' then (a, l) else if c == '\r' then ("", l + [a]) else (a + [c], l)
  {
  }

  lemma {:induction false} FedAppend(accum: string, x: string, y: string)
    ensures var (a, l) := Fed(accum, x);
            var (b, m) := Fed(a, y);
            Fed(accum, x + y) == (b, l + m)
  {
    var (a, l) := Fed(accum, x);
    if y == "" {
      assert x + y == x && l + [] == l;
    } else {
      var n, c := |y| - 1, y[|y| - 1];
      FedAppend(accum, x, y[..n]);
      var (b, m) := Fed(a, y[..n]);
      assert x + y == (x + y[..n]) + [c] && y == y[..n] + [c];
      FedByte(accum, x + y[..n], c);
      FedByte(a, y[..n], c);
      assert (l + m) + [b] == l + (m + [b]);
    }
  }

  function FedInReads(accum: string, chunks: seq<string>): (string, seq<string>)
    decreases |chunks|
  {
    if chunks == [] then (accum, [])
    else
      var (a, l) := Fed(accum, chunks[0]);
      var (b, m) := FedInReads(a, chunks[1..]);
      (b, l + m)
  }

  function Concat(chunks: seq<string>): string {
    if chunks == [] then "" else chunks[0] + Concat(chunks[1..])
  }

  /** It does not matter how the bytes are cut into reads. */
  lemma {:induction false} CutsDoNotMatter(accum: string, chunks: seq<string>)
    ensures FedInReads(accum, chunks) == Fed(accum, Concat(chunks))
    decreases |chunks|
  {
    if chunks != [] {
      FedAppend(accum, chunks[0], Concat(chunks[1..]));
      CutsDoNotMatter(Fed(accum, chunks[0]).0, chunks[1..]);
    }
  }

  function Sent(lines: seq<string>): string {
    if lines == [] then "" else Sent(lines[..|lines| - 1]) + lines[|lines| - 1] + "\r\n"
  }

  predicate OneLine(s: string) {
    Free(s, '\r') && Free(s, '\n')
  }

  lemma {:induction false} FedPlain(accum: string, s: string)
    requires OneLine(s)
    ensures Fed(accum, s) == (accum + s, [])
  {
    if s == "" {
      assert accum + s == accum;
    } else {
      FedPlain(accum, s[..|s| - 1]);
      assert accum + s[..|s| - 1] + [s[|s| - 1]] == accum + s;
    }
  }

  lemma FedLine(s: string)
    requires OneLine(s)
    ensures Fed("", s + "\r\n") == ("", [s])
  {
    FedPlain("", s);
    assert "" + s == s;
    FedByte("", s, '\r');
    FedByte("", s + ['\r'], '\n');
    assert s + "\r\n" == (s + ['\r']) + ['\n'];
    var none: seq<string> := [];
    assert none + [s] == [s];
  }

  /** Lines arrive as they were sent. */
  lemma {:induction false} SentArrives(lines: seq<string>)
    requires forall i :: 0 <= i < |lines| ==> OneLine(lines[i])
    ensures Fed("", Sent(lines)) == ("", lines)
  {
    if lines != [] {
      var n := |lines| - 1;
      SentArrives(lines[..n]);
      FedLine(lines[n]);
      FedAppend("", Sent(lines[..n]), lines[n] + "\r\n");
      assert lines[..n] + [lines[n]] == lines;
      assert Sent(lines[..n]) + (lines[n] + "\r\n") == Sent(lines);
    }
  }

  lemma {:induction false} SentArrivesAfter(accum: string, lines: seq<string>)
    requires lines != [] && forall i :: 0 <= i < |lines| ==> OneLine(lines[i])
    ensures Fed(accum, Sent(lines)) == ("", [accum + lines[0]] + lines[1..])
  {
    var n := |lines| - 1;
    if n == 0 {
      FedPlain(accum, lines[0]);
      FedByte(accum, lines[0], '\r');
      FedByte(accum, lines[0] + ['\r'], '\n');
      var none: seq<string> := [];
      assert none + [accum + lines[0]] == [accum + lines[0]] + lines[1..];
      assert Sent(lines) == (lines[0] + ['\r']) + ['\n'];
    } else {
      SentArrivesAfter(accum, lines[..n]);
      FedLine(lines[n]);
      FedAppend(accum, Sent(lines[..n]), lines[n] + "\r\n");
      assert Sent(lines[..n]) + (lines[n] + "\r\n") == Sent(lines);
      assert [accum + lines[0]] + lines[..n][1..] + [lines[n]] == [accum + lines[0]] + lines[1..];
    }
  }

  /** A receiver that starts with an unfinished line gets what was sent only if nothing is sent. */
  lemma ArrivesIffFresh(accum: string, lines: seq<string>)
    requires forall i :: 0 <= i < |lines| ==> OneLine(lines[i])
    ensures Fed(accum, Sent(lines)).1 == lines <==> accum == "" || lines == []
  {
    if lines != [] {
      SentArrivesAfter(accum, lines);
      assert |accum + lines[0]| == |accum| + |lines[0]|;
      if accum == "" {
        assert accum + lines[0] == lines[0];
      }
    }
  }

  // ----- Character encoding -----

  function Utf8Char(c: char): (bytes: string)
    ensures |bytes| >= 1
    ensures c as int < 0x80 ==> bytes == [c]
    ensures c as int >= 0x80 ==> |bytes| >= 2
  {
    var n := c as int;
    if n < 0x80 then [c]
    else if n < 0x800 then [(0xC0 + n / 0x40) as char, (0x80 + n % 0x40) as char]
    else if n < 0x1_0000 then [(0xE0 + n / 0x1000) as char, (0x80 + n / 0x40 % 0x40) as char, (0x80 + n % 0x40) as char]
    else [(0xF0 + n / 0x4_0000) as char, (0x80 + n / 0x1000 % 0x40) as char,
          (0x80 + n / 0x40 % 0x40) as char, (0x80 + n % 0x40) as char]
  }

  /** The bytes of one character as RFC 3629 has them: lead byte, continuation bytes, and the shortest form. */
  lemma Utf8CharIsShortest(c: char)
    ensures var n, b := c as int, Utf8Char(c);
            && |b| == (if n < 0x80 then 1 else if n < 0x800 then 2 else if n < 0x1_0000 then 3 else 4)
            && (forall i :: 0 < i < |b| ==> 0x80 <= b[i] as int < 0xC0)
            && (|b| == 2 ==> 0xC0 <= b[0] as int < 0xE0 && n == (b[0] as int - 0xC0) * 0x40 + (b[1] as int - 0x80))
            && (|b| == 3 ==>
                  && 0xE0 <= b[0] as int < 0xF0
                  && n == (b[0] as int - 0xE0) * 0x1000 + (b[1] as int - 0x80) * 0x40 + (b[2] as int - 0x80))
            && (|b| == 4 ==>
                  && 0xF0 <= b[0] as int < 0xF8
                  && n == (b[0] as int - 0xF0) * 0x4_0000 + (b[1] as int - 0x80) * 0x1000
                          + (b[2] as int - 0x80) * 0x40 + (b[3] as int - 0x80))
  {
    InSixes(c as int);
  }

  /** A number in pieces of six bits. */
  lemma InSixes(n: nat)
    ensures n == n / 0x40 * 0x40 + n % 0x40
    ensures n == n / 0x1000 * 0x1000 + n / 0x40 % 0x40 * 0x40 + n % 0x40
    ensures n == n / 0x4_0000 * 0x4_0000 + n / 0x1000 % 0x40 * 0x1000 + n / 0x40 % 0x40 * 0x40 + n % 0x40
  {
    var a, r := n / 0x40, n % 0x40;
    var b, s := a / 0x40, a % 0x40;
    var c, t := b / 0x40, b % 0x40;
    SixesTwice(n, b, s * 0x40 + r);
    SixesThrice(n, c, t * 0x1000 + s * 0x40 + r);
  }

  lemma SixesTwice(n: nat, q: nat, r: nat)
    requires n == q * 0x1000 + r && r < 0x1000
    ensures n / 0x1000 == q
  {
  }

  lemma SixesThrice(n: nat, q: nat, r: nat)
    requires n == q * 0x4_0000 + r && r < 0x4_0000
    ensures n / 0x4_0000 == q
  {
  }

  /** The bytes sent for a text, read back as one character each. */
  function Utf8(s: string): string {
    if s == "" then "" else Utf8Char(s[0]) + Utf8(s[1..])
  }

  predicate Ascii(s: string) {
    forall i :: 0 <= i < |s| ==> s[i] as int < 0x80
  }

  lemma {:induction false} Utf8Lengths(s: string)
    ensures |Utf8(s)| >= |s|
    ensures Ascii(s) ==> Utf8(s) == s
    ensures !Ascii(s) ==> |Utf8(s)| > |s|
  {
    if s != "" {
      Utf8Lengths(s[1..]);
      assert s == [s[0]] + s[1..];
    }
  }

  /** A text survives the journey exactly when it is 7-bit. */
  lemma ReadBackIffAscii(s: string)
    ensures Utf8(s) == s <==> Ascii(s)
  {
    Utf8Lengths(s);
  }

  /** For instance, a single accented letter arrives as two other characters. */
  lemma AccentIsMangled()
    ensures Utf8([0xE9 as char]) == [0xC3 as char, 0xA9 as char]
  {
  }
}
