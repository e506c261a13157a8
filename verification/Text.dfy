/** The textual forms that travel over the program's sockets, and that reading undoes writing. */
module Text {
  import opened Addresses

  datatype Option<+T> = None | Some(value: T)

  // ----- Splitting on a separator -----

  /** Never empty: a text without the separator is one part. */
  function Split(s: string, sep: char): (parts: seq<string>)
    ensures |parts| >= 1
    decreases |s|
  {
    if s == "" then [""]
    else if s[0] == sep then [""] + Split(s[1..], sep)
    else
      var rest := Split(s[1..], sep);
      [[s[0]] + rest[0]] + rest[1..]
  }

  function Join(parts: seq<string>, sep: char): string
    requires |parts| >= 1
    decreases |parts|
  {
    if |parts| == 1 then parts[0] else parts[0] + [sep] + Join(parts[1..], sep)
  }

  predicate Free(s: string, c: char) {
    c !in s
  }

  lemma {:induction false} SplitOne(s: string, sep: char)
    requires Free(s, sep)
    ensures Split(s, sep) == [s]
    decreases |s|
  {
    if s != "" {
      SplitOne(s[1..], sep);
      assert [s[0]] + s[1..] == s;
    }
  }

  lemma {:induction false} SplitFirst(s: string, rest: string, sep: char)
    requires Free(s, sep)
    ensures Split(s + [sep] + rest, sep) == [s] + Split(rest, sep)
    decreases |s|
  {
    var whole := s + [sep] + rest;
    if s == "" {
      assert whole[1..] == rest;
    } else {
      assert whole[1..] == s[1..] + [sep] + rest;
      SplitFirst(s[1..], rest, sep);
      assert [s[0]] + s[1..] == s;
    }
  }

  lemma {:induction false} SplitJoin(parts: seq<string>, sep: char)
    requires |parts| >= 1 && forall i :: 0 <= i < |parts| ==> Free(parts[i], sep)
    ensures Split(Join(parts, sep), sep) == parts
    decreases |parts|
  {
    if |parts| == 1 {
      SplitOne(parts[0], sep);
    } else {
      SplitJoin(parts[1..], sep);
      SplitFirst(parts[0], Join(parts[1..], sep), sep);
    }
  }

  lemma {:induction false} JoinFree(parts: seq<string>, sep: char, c: char)
    requires |parts| >= 1 && sep != c && forall i :: 0 <= i < |parts| ==> Free(parts[i], c)
    ensures Free(Join(parts, sep), c)
    decreases |parts|
  {
    if |parts| > 1 {
      JoinFree(parts[1..], sep, c);
    }
  }

  // ----- Decimal numbers -----

  predicate IsDigit(c: char) {
    '0' <= c <= '9'
  }

  function Digit(d: nat): (c: char)
    requires d < 10
    ensures IsDigit(c)
  {
    '0' + (d as char)
  }

  function DigitValue(c: char): (d: nat)
    requires IsDigit(c)
    ensures d < 10
  {
    (c - '0') as nat
  }

  predicate AllDigits(s: string) {
    forall i :: 0 <= i < |s| ==> IsDigit(s[i])
  }

  function PrintNat(n: nat): (s: string)
    ensures |s| >= 1 && AllDigits(s)
  {
    if n < 10 then [Digit(n)] else PrintNat(n / 10) + [Digit(n % 10)]
  }

  function DigitsValue(s: string): nat
    requires AllDigits(s)
  {
    if s == "" then 0 else 10 * DigitsValue(s[..|s| - 1]) + DigitValue(s[|s| - 1])
  }

  function ParseNat(s: string): Option<nat> {
    if s != "" && AllDigits(s) then Some(DigitsValue(s)) else None
  }

  lemma {:induction false} ParsePrintNat(n: nat)
    ensures ParseNat(PrintNat(n)) == Some(n)
  {
    var s := PrintNat(n);
    if n < 10 {
      assert DigitsValue(s) == 10 * DigitsValue(s[..0]) + DigitValue(s[0]);
    } else {
      ParsePrintNat(n / 10);
      assert s[..|s| - 1] == PrintNat(n / 10);
    }
  }

  function PrintInt(n: int): string {
    if n < 0 then ['-'] + PrintNat(-n) else PrintNat(n)
  }

  /** A signed 32-bit number. */
  function ParseInt(s: string): (n: Option<int>)
    ensures n.Some? ==> -0x8000_0000 <= n.value < 0x8000_0000
  {
    var (negative, digits) := if s != "" && s[0] == '-' then (true, s[1..]) else (false, s);
    match ParseNat(digits)
    case None => None
    case Some(n) =>
      var v: int := if negative then -(n as int) else n;
      if -0x8000_0000 <= v < 0x8000_0000 then Some(v) else None
  }

  /** An unsigned 32-bit number. */
  function ParseUInt(s: string): (n: Option<nat>)
    ensures n.Some? ==> n.value < 0x1_0000_0000
  {
    match ParseNat(s)
    case None => None
    case Some(n) => if n < 0x1_0000_0000 then Some(n) else None
  }

  lemma ParsePrintInt(n: int)
    requires -0x8000_0000 <= n < 0x8000_0000
    ensures ParseInt(PrintInt(n)) == Some(n)
    ensures n >= 0 ==> ParseUInt(PrintInt(n)) == Some(n)
  {
    if n < 0 {
      ParsePrintNat(-n);
      assert PrintInt(n)[1..] == PrintNat(-n);
    } else {
      ParsePrintNat(n);
      assert IsDigit(PrintNat(n)[0]);
    }
  }

  lemma PrintIntFree(n: int, c: char)
    requires !IsDigit(c) && c != '-'
    ensures Free(PrintInt(n), c)
  {
  }

  // ----- Dotted-quad addresses -----

  function Octet(n: IPv4Number, k: nat): (octet: nat)
    requires k < 4
    ensures octet < 256
  {
    match k
    case 0 => n / 0x100_0000
    case 1 => n / 0x1_0000 % 256
    case 2 => n / 0x100 % 256
    case 3 => n % 256
  }

  function Quad(n: IPv4Number): seq<string> {
    [PrintNat(Octet(n, 0)), PrintNat(Octet(n, 1)), PrintNat(Octet(n, 2)), PrintNat(Octet(n, 3))]
  }

  function PrintAddress(a: HostAddress): string {
    match a
    case Null => ""
    case IPv4(n) => Join(Quad(n), '.')
  }

  /** `Null` for anything that is not a dotted quad. */
  function ParseAddress(s: string): HostAddress {
    var parts := Split(s, '.');
    if |parts| != 4 then Null
    else
      match (ParseNat(parts[0]), ParseNat(parts[1]), ParseNat(parts[2]), ParseNat(parts[3]))
      case (Some(a), Some(b), Some(c), Some(d)) =>
        if a < 256 && b < 256 && c < 256 && d < 256 then IPv4(a * 0x100_0000 + b * 0x1_0000 + c * 0x100 + d) else Null
      case _ => Null
  }

  lemma PrintNatFree(n: nat, c: char)
    requires !IsDigit(c)
    ensures Free(PrintNat(n), c)
  {
  }

  lemma OctetsMakeTheNumber(n: IPv4Number)
    ensures Octet(n, 0) * 0x100_0000 + Octet(n, 1) * 0x1_0000 + Octet(n, 2) * 0x100 + Octet(n, 3) == n
  {
    assert n == n / 0x100 * 0x100 + n % 0x100;
    assert n / 0x100 == n / 0x1_0000 * 0x100 + n / 0x100 % 0x100;
    assert n / 0x1_0000 == n / 0x100_0000 * 0x100 + n / 0x1_0000 % 0x100;
  }

  lemma ParsePrintAddress(a: HostAddress)
    ensures ParseAddress(PrintAddress(a)) == a
  {
    hide Octet;
    if a.IPv4? {
      var n := a.number;
      forall i | 0 <= i < 4
        ensures Free(Quad(n)[i], '.') && ParseNat(Quad(n)[i]) == Some(Octet(n, i))
      {
        PrintNatFree(Octet(n, i), '.');
        ParsePrintNat(Octet(n, i));
      }
      SplitJoin(Quad(n), '.');
      OctetsMakeTheNumber(n);
    }
  }

  lemma PrintAddressFree(a: HostAddress, c: char)
    requires !IsDigit(c) && c != '.'
    ensures Free(PrintAddress(a), c)
  {
    if a.IPv4? {
      forall i | 0 <= i < 4
        ensures Free(Quad(a.number)[i], c)
      {
        PrintNatFree(Octet(a.number, i), c);
      }
      JoinFree(Quad(a.number), '.', c);
    }
  }
}
