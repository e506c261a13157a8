/** Base64, as in section 4 of RFC 4648, on bytes held as characters below 256. */
module Base64 {
  import opened Lines
  import opened Text

  function Symbol(v: nat): (c: char)
    requires v < 64
    ensures c != '=' && c != '\r' && c != '\n'
  {
    if v < 26 then 'A' + v as char
    else if v < 52 then 'a' + (v - 26) as char
    else if v < 62 then '0' + (v - 52) as char
    else if v == 62 then '+' else '/'
  }

  function Value(c: char): (v: nat)
    ensures v < 64
  {
    if 'A' <= c <= 'Z' then (c - 'A') as nat
    else if 'a' <= c <= 'z' then (c - 'a') as nat + 26
    else if '0' <= c <= '9' then (c - '0') as nat + 52
    else if c == '+' then 62 else 63
  }

  lemma SymbolReadsBack(v: nat)
    requires v < 64
    ensures Value(Symbol(v)) == v
  {
  }

  /** Three bytes, of which the missing ones count as zero, as four symbols. */
  function Four(a: nat, b: nat, c: nat): (f: string)
    requires a < 256 && b < 256 && c < 256
    ensures |f| == 4
  {
    [Symbol(a / 4), Symbol(a % 4 * 16 + b / 16), Symbol(b % 16 * 4 + c / 64), Symbol(c % 64)]
  }

  function Encode(s: string): string
    requires IsBytes(s)
    decreases |s|
  {
    if s == "" then ""
    else if |s| == 1 then Four(s[0] as int, 0, 0)[..2] + "=="
    else if |s| == 2 then Four(s[0] as int, s[1] as int, 0)[..3] + "="
    else Four(s[0] as int, s[1] as int, s[2] as int) + Encode(s[3..])
  }

  /** The three bytes of four symbols. */
  function Three(v: nat, w: nat, x: nat, y: nat): (bytes: string)
    requires v < 64 && w < 64 && x < 64 && y < 64
    ensures |bytes| == 3
  {
    [(v * 4 + w / 16) as char, (w % 16 * 16 + x / 4) as char, (x % 4 * 64 + y) as char]
  }

  function Decode(s: string): string
    decreases |s|
  {
    if |s| < 4 then ""
    else
      var all := Three(Value(s[0]), Value(s[1]), Value(s[2]), Value(s[3]));
      if s[2] == '=' then all[..1]
      else if s[3] == '=' then all[..2]
      else all + Decode(s[4..])
  }

  lemma SextetsReadBack(a: nat, b: nat, c: nat)
    requires a < 256 && b < 256 && c < 256
    ensures Three(a / 4, a % 4 * 16 + b / 16, b % 16 * 4 + c / 64, c % 64) == [a as char, b as char, c as char]
  {
    var v, w, x, y := a / 4, a % 4 * 16 + b / 16, b % 16 * 4 + c / 64, c % 64;
    assert v * 4 + w / 16 == a;
    assert w % 16 * 16 + x / 4 == b;
    assert x % 4 * 64 + y == c;
  }

  lemma FourReadsBack(a: nat, b: nat, c: nat)
    requires a < 256 && b < 256 && c < 256
    ensures var f := Four(a, b, c);
            Three(Value(f[0]), Value(f[1]), Value(f[2]), Value(f[3])) == [a as char, b as char, c as char]
  {
    SymbolReadsBack(a / 4);
    SymbolReadsBack(a % 4 * 16 + b / 16);
    SymbolReadsBack(b % 16 * 4 + c / 64);
    SymbolReadsBack(c % 64);
    hide Symbol, Value, Three;
    SextetsReadBack(a, b, c);
  }

  lemma DecodeFour(a: char, b: char, c: char, rest: string)
    requires a as int < 256 && b as int < 256 && c as int < 256
    ensures Decode(Four(a as int, b as int, c as int) + rest) == [a, b, c] + Decode(rest)
  {
    hide Symbol, Value, Three;
    var f := Four(a as int, b as int, c as int);
    FourReadsBack(a as int, b as int, c as int);
    assert (f + rest)[4..] == rest && (f + rest)[..4] == f;
  }

  lemma DecodeOne(a: char)
    requires a as int < 256
    ensures Decode(Four(a as int, 0, 0)[..2] + "==") == [a]
  {
    var n := a as int;
    SymbolReadsBack(n / 4);
    SymbolReadsBack(n % 4 * 16);
    hide Symbol;
    assert n / 4 * 4 + n % 4 * 16 / 16 == n;
  }

  lemma DecodeTwo(a: char, b: char)
    requires a as int < 256 && b as int < 256
    ensures Decode(Four(a as int, b as int, 0)[..3] + "=") == [a, b]
  {
    var m, n := a as int, b as int;
    SymbolReadsBack(m / 4);
    SymbolReadsBack(m % 4 * 16 + n / 16);
    SymbolReadsBack(n % 16 * 4);
    TwoReadBack(m, n);
    hide Symbol;
  }

  lemma TwoReadBack(m: nat, n: nat)
    requires m < 256 && n < 256
    ensures m / 4 * 4 + (m % 4 * 16 + n / 16) / 16 == m
    ensures (m % 4 * 16 + n / 16) % 16 * 16 + n % 16 * 4 / 4 == n
  {
  }

  /** Decoding undoes encoding. */
  lemma {:induction false} EncodedReadsBack(s: string)
    requires IsBytes(s)
    ensures Decode(Encode(s)) == s
    decreases |s|
  {
    hide Four, Symbol, Value, Three;
    if |s| == 1 {
      DecodeOne(s[0]);
    } else if |s| == 2 {
      DecodeTwo(s[0], s[1]);
    } else if |s| > 2 {
      EncodedReadsBack(s[3..]);
      DecodeFour(s[0], s[1], s[2], Encode(s[3..]));
      assert s == [s[0], s[1], s[2]] + s[3..];
    }
  }

  /** Whole groups of three can be encoded on their own. */
  lemma {:induction false} EncodeAppend(a: string, b: string)
    requires IsBytes(a) && IsBytes(b) && |a| % 3 == 0
    ensures IsBytes(a + b) && Encode(a + b) == Encode(a) + Encode(b)
    decreases |a|
  {
    hide Four;
    if a == "" {
      assert a + b == b;
    } else {
      EncodeAppend(a[3..], b);
      assert (a + b)[3..] == a[3..] + b;
    }
  }

  lemma {:induction false} EncodedLength(s: string)
    requires IsBytes(s)
    ensures |Encode(s)| == (|s| + 2) / 3 * 4
    decreases |s|
  {
    hide Four;
    if |s| > 2 {
      EncodedLength(s[3..]);
      assert (|s| + 2) / 3 == (|s| - 1) / 3 + 1;
    }
  }

  lemma {:induction false} EncodedIsOneLine(s: string)
    requires IsBytes(s)
    ensures Free(Encode(s), '\r') && Free(Encode(s), '\n')
    decreases |s|
  {
    if |s| > 2 {
      EncodedIsOneLine(s[3..]);
    }
    hide Symbol;
  }
}
