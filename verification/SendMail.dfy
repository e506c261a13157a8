/** Encoding of mail bodies: line ends of 7-bit text repaired in place, anything else in base64 lines. */
module SendMail {
  import opened Text
  import opened Lines
  import opened Base64

  // ----- Searching -----

  predicate At(s: string, pattern: string, i: nat) {
    i + |pattern| <= |s| && s[i..i + |pattern|] == pattern
  }

  /** The first occurrence from a position on, or -1. */
  function IndexOf(s: string, pattern: string, from: nat): (n: int)
    ensures n < 0 ==> n == -1 && forall i: nat :: from <= i ==> !At(s, pattern, i)
    ensures n >= 0 ==> from <= n && At(s, pattern, n) && forall i: nat :: from <= i < n ==> !At(s, pattern, i)
    decreases |s| - from
  {
    if from + |pattern| > |s| then -1
    else if s[from..from + |pattern|] == pattern then from
    else IndexOf(s, pattern, from + 1)
  }

  function Inserted(s: string, i: nat, t: string): string
    requires i <= |s|
  {
    s[..i] + t + s[i..]
  }

  method IsAscii(str: string) returns (ascii: bool)
    ensures ascii == Ascii(str)
  {
    for i := 0 to |str|
      invariant Ascii(str[..i])
    {
      if str[i] as int > 127 {
        return false;
      }
    }
    return true;
  }

  // ----- The first loop looks for a slash and an r, not for a carriage return -----

  const SLASH_R := "/r"

  /** Every `/r` becomes `//nr`. */
  function Mangled(s: string): string
    decreases |s|
  {
    if s == "" then ""
    else if At(s, SLASH_R, 0) then "//nr" + Mangled(s[2..])
    else [s[0]] + Mangled(s[1..])
  }

  lemma {:induction false} MangledSkips(s: string, from: nat, upTo: nat)
    requires from <= upTo <= |s| && forall i: nat :: from <= i < upTo ==> !At(s, SLASH_R, i)
    ensures Mangled(s[from..]) == s[from..upTo] + Mangled(s[upTo..])
    decreases upTo - from
  {
    if from < upTo {
      assert s[from..][1..] == s[from + 1..];
      assert At(s[from..], SLASH_R, 0) ==> At(s, SLASH_R, from) by {
        if At(s[from..], SLASH_R, 0) {
          assert s[from..from + 2] == s[from..][0..2];
        }
      }
      MangledSkips(s, from + 1, upTo);
      assert [s[from]] + s[from + 1..upTo] == s[from..upTo];
    } else {
      assert s[from..upTo] == "";
    }
  }

  /** What one insertion achieves: the slash and the r are dealt with, the search can go on behind them. */
  lemma OneMangled(s: string, i: nat)
    requires At(s, SLASH_R, i)
    ensures var t := Inserted(s, i + 1, "/n");
            && Mangled(s[i..]) == t[i..i + 4] + Mangled(t[i + 4..])
            && t[..i] == s[..i] && t[i + 4..] == s[i + 2..]
            && !At(t, SLASH_R, i + 1) && !At(t, SLASH_R, i + 2) && !At(t, SLASH_R, i + 3)
  {
    var t := Inserted(s, i + 1, "/n");
    AtSlashR(s, i);
    assert s[i..i + 2] == SLASH_R;
    assert s[i..][0..2] == SLASH_R && s[i..][2..] == s[i + 2..];
    assert t[i..i + 4] == "//nr" && t[i + 4..] == s[i + 2..];
    assert t[i + 1] == '/' && t[i + 2] == 'n' && t[i + 3] == 'r';
    AtSlashR(t, i + 1);
    AtSlashR(t, i + 2);
    AtSlashR(t, i + 3);
  }

  lemma AtSlashR(s: string, i: nat)
    ensures At(s, SLASH_R, i) <==> i + 1 < |s| && s[i] == '/' && s[i + 1] == 'r'
  {
  }

  /** The loop as written: the byte after the slash never equals a text of two bytes, so it always inserts. */
  method RepairReturns(body: string) returns (ret: string)
    ensures ret == Mangled(body)
  {
    hide At, Mangled, IndexOf, Inserted;
    ret := body;
    var index := IndexOf(ret, SLASH_R, 0);
    SearchGoesOn(body, "", body, 0, index);
    while index >= 0
      invariant index >= 0 ==> index < |ret| && At(ret, SLASH_R, index)
      invariant index >= 0 ==> Mangled(body) == ret[..index] + Mangled(ret[index..])
      invariant index < 0 ==> ret == Mangled(body)
      decreases if index >= 0 then |ret| - index else 0
    {
      ghost var before, found := ret, index;
      AtFits(ret, index);
      assert |ret[index + 1..index + 2]| != |"/n"|;
      if ret[index + 1..index + 2] != "/n" {
        OneMangled(ret, index);
        ret := Inserted(ret, index + 1, "/n");
        index := index + 1;
      }
      InsertedLength(before, found + 1, "/n");
      assert ret[..found + 4] == before[..found] + ret[found..found + 4];
      index := IndexOf(ret, SLASH_R, index);
      SearchGoesOn(body, ret[..found + 4], ret, found + 4, index);
    }
  }

  lemma AtFits(s: string, i: nat)
    requires At(s, SLASH_R, i)
    ensures i + 2 <= |s|
  {
  }

  lemma InsertedLength(s: string, i: nat, t: string)
    requires i <= |s|
    ensures |Inserted(s, i, t)| == |s| + |t|
  {
  }

  lemma NothingMangled()
    ensures Mangled("") == ""
  {
  }

  /** From a search that starts at `from`, or at places before it that do not match. */
  lemma SearchGoesOn(body: string, done: string, s: string, from: nat, index: int)
    requires from <= |s| && done == s[..from] && Mangled(body) == done + Mangled(s[from..])
    requires index < 0 ==> forall i: nat :: from <= i ==> !At(s, SLASH_R, i)
    requires index >= 0 ==>
               from <= index && At(s, SLASH_R, index) && forall i: nat :: from <= i < index ==> !At(s, SLASH_R, i)
    ensures index >= 0 ==> index < |s| && Mangled(body) == s[..index] + Mangled(s[index..])
    ensures index < 0 ==> s == Mangled(body)
  {
    hide Mangled;
    if index >= 0 {
      AtFits(s, index);
      MangledSkips(s, from, index);
      assert s[..index] == s[..from] + s[from..index];
    } else {
      MangledSkips(s, from, |s|);
      NothingMangled();
      assert s[|s|..] == "" && s == s[..from] + s[from..|s|];
    }
  }

  lemma {:induction false} MangledLength(s: string)
    ensures |Mangled(s)| >= |s|
    ensures |Mangled(s)| == |s| ==> Mangled(s) == s
    ensures Mangled(s) == s <==> forall i: nat :: !At(s, SLASH_R, i)
    decreases |s|
  {
    if s == "" {
      assert forall i: nat :: !At(s, SLASH_R, i);
    } else if At(s, SLASH_R, 0) {
      MangledLength(s[2..]);
    } else {
      MangledLength(s[1..]);
      assert s == [s[0]] + s[1..];
      forall i: nat
        ensures i > 0 ==> (At(s, SLASH_R, i) <==> At(s[1..], SLASH_R, i - 1))
      {
        if 0 < i && i + 2 <= |s| {
          assert s[i..i + 2] == s[1..][i - 1..i + 1];
        }
      }
      if j: nat :| At(s[1..], SLASH_R, j) {
        assert At(s, SLASH_R, j + 1);
      }
    }
  }

  /** The body passes the first loop unharmed exactly when it has no `/r`. */
  lemma MangledIffSlashR(body: string)
    ensures Mangled(body) == body <==> forall i: nat :: !At(body, SLASH_R, i)
  {
    MangledLength(body);
  }

  // ----- The second loop gives every line feed its carriage return -----

  /** A carriage return before each line feed that has none; `cr` tells whether one went before. */
  function WithReturns(s: string, cr: bool): string
    decreases |s|
  {
    if s == "" then ""
    else (if s[0] == '\n' && !cr then "\r\n" else [s[0]]) + WithReturns(s[1..], s[0] == '\r')
  }

  predicate EndsWithReturn(s: string) {
    s != "" && s[|s| - 1] == '\r'
  }

  predicate NoLineFeed(s: string) {
    Free(s, '\n')
  }

  lemma FirstReturns(s: string, cr: bool)
    requires s != "" && s[0] != '\n'
    ensures WithReturns(s, cr) == [s[0]] + WithReturns(s[1..], s[0] == '\r')
  {
  }

  lemma {:induction false} ReturnsSkip(s: string, t: string, cr: bool)
    requires NoLineFeed(s)
    ensures WithReturns(s + t, cr) == s + WithReturns(t, if s == "" then cr else EndsWithReturn(s))
    decreases |s|
  {
    hide WithReturns;
    if s == "" {
      assert s + t == t;
    } else {
      assert (s + t)[1..] == s[1..] + t;
      FirstReturns(s + t, cr);
      ReturnsSkip(s[1..], t, s[0] == '\r');
      assert [s[0]] + s[1..] == s;
    }
  }

  /** Line feeds are found one byte at a time. */
  lemma FoundLineFeed(s: string, from: nat, index: int)
    requires from <= |s|
    requires index < 0 ==> forall i: nat :: from <= i ==> !At(s, "\n", i)
    requires index >= 0 ==>
               from <= index && At(s, "\n", index) && forall i: nat :: from <= i < index ==> !At(s, "\n", i)
    ensures index < 0 ==> NoLineFeed(s[from..])
    ensures index >= 0 ==> from <= index < |s| && s[index] == '\n' && NoLineFeed(s[from..index])
  {
    var end := if index < 0 then |s| else index;
    if index >= 0 {
      assert s[index..index + 1][0] == '\n';
    }
    forall i | from <= i < end
      ensures s[i] != '\n'
    {
      assert !At(s, "\n", i);
      assert s[i..i + 1] == [s[i]] && "\n" == ['\n'];
    }
  }

  /** Up to `n`, the result is there; the rest is as it was. */
  ghost predicate DoneUpTo(body: string, s: string, n: nat) {
    1 <= n <= |s| && WithReturns(body, false) == s[..n] + WithReturns(s[n..], s[n - 1] == '\r')
  }

  lemma Skipped(body: string, s: string, from: nat, end: nat)
    requires DoneUpTo(body, s, from) && from <= end <= |s| && NoLineFeed(s[from..end])
    ensures DoneUpTo(body, s, end)
  {
    hide WithReturns, NoLineFeed;
    ReturnsSkip(s[from..end], s[end..], s[from - 1] == '\r');
    assert s[from..end] + s[end..] == s[from..];
    assert s[..from] + s[from..end] == s[..end];
  }

  lemma AllDone(body: string, s: string)
    requires DoneUpTo(body, s, |s|)
    ensures s == WithReturns(body, false)
  {
    hide WithReturns;
    NothingReturned(s[|s| - 1] == '\r');
    assert s[|s|..] == "" && s[..|s|] == s;
  }

  lemma SkippedTo(body: string, s: string, from: nat, index: int)
    requires DoneUpTo(body, s, from)
    requires index < 0 ==> NoLineFeed(s[from..])
    requires index >= 0 ==> from <= index <= |s| && NoLineFeed(s[from..index])
    ensures index < 0 ==> s == WithReturns(body, false)
    ensures index >= 0 ==> DoneUpTo(body, s, index)
  {
    hide WithReturns, NoLineFeed, DoneUpTo;
    DoneFits(body, s, from);
    if index < 0 {
      assert s[from..|s|] == s[from..];
      Skipped(body, s, from, |s|);
      AllDone(body, s);
    } else {
      Skipped(body, s, from, index);
    }
  }

  lemma NothingReturned(cr: bool)
    ensures WithReturns("", cr) == ""
  {
  }

  lemma LineFeedDone(body: string, s: string, n: nat)
    requires DoneUpTo(body, s, n) && n < |s| && s[n] == '\n'
    ensures s[n - 1] == '\r' ==> DoneUpTo(body, s, n + 1)
    ensures s[n - 1] != '\r' ==> DoneUpTo(body, Inserted(s, n, "\r"), n + 2)
  {
    assert s[n..][1..] == s[n + 1..];
    if s[n - 1] == '\r' {
      assert s[..n + 1] == s[..n] + [s[n]];
    } else {
      var t := Inserted(s, n, "\r");
      assert t[..n + 2] == s[..n] + "\r\n" && t[n + 2..] == s[n + 1..];
    }
  }

  lemma FirstDone(body: string)
    requires body != ""
    ensures body[0] == '\n' ==> DoneUpTo(body, "\r" + body, 2)
    ensures body[0] != '\n' ==> DoneUpTo(body, body, 1)
  {
    if body[0] == '\n' {
      assert ("\r" + body)[..2] == "\r\n" && ("\r" + body)[2..] == body[1..];
    } else {
      assert body[..1] == [body[0]];
    }
  }

  /** The loop as written; it looks at the first byte, so there must be one. */
  method RepairLineFeeds(body: string) returns (ret: string)
    requires body != ""
    ensures ret == WithReturns(body, false)
  {
    hide At, IndexOf, WithReturns, DoneUpTo, NoLineFeed;
    ret := body;
    var index := 1;
    FirstDone(body);
    if ret[0] == '\n' {
      ret := "\r" + ret;
      index := 2;
    }
    DoneFits(body, ret, index);
    var from := index;
    index := IndexOf(ret, "\n", from);
    FoundLineFeed(ret, from, index);
    SkippedTo(body, ret, from, index);
    while index >= 0
      invariant index >= 0 ==> index < |ret| && ret[index] == '\n' && DoneUpTo(body, ret, index)
      invariant index < 0 ==> ret == WithReturns(body, false)
      decreases if index >= 0 then |ret| - index else 0
    {
      DoneFits(body, ret, index);
      LineFeedDone(body, ret, index);
      if ret[index - 1] != '\r' {
        ret := Inserted(ret, index, "\r");
        index := index + 1;
      }
      index := index + 1;
      from := index;
      DoneFits(body, ret, index);
      index := IndexOf(ret, "\n", from);
      FoundLineFeed(ret, from, index);
      SkippedTo(body, ret, from, index);
    }
  }

  lemma DoneFits(body: string, s: string, n: nat)
    requires DoneUpTo(body, s, n)
    ensures 1 <= n <= |s|
  {
  }

  // ----- What the second loop means -----

  predicate Paired(s: string, cr: bool) {
    && (s != "" && s[0] == '\n' ==> cr)
    && forall i :: 0 < i < |s| && s[i] == '\n' ==> s[i - 1] == '\r'
  }

  /** Every line feed ends up with a carriage return before it. */
  lemma {:induction false} EveryLineFeedIsPaired(s: string, cr: bool)
    ensures Paired(WithReturns(s, cr), cr)
    decreases |s|
  {
    if s != "" {
      var rest := WithReturns(s[1..], s[0] == '\r');
      EveryLineFeedIsPaired(s[1..], s[0] == '\r');
      var head := if s[0] == '\n' && !cr then "\r\n" else [s[0]];
      var all := head + rest;
      forall i | 0 < i < |all| && all[i] == '\n'
        ensures all[i - 1] == '\r'
      {
        if i >= |head| {
          assert rest[i - |head|] == '\n';
          assert i == |head| ==> s[0] == '\r' && all[i - 1] == s[0];
        }
      }
    }
  }

  /** Nothing is inserted exactly when there was nothing to repair. */
  lemma {:induction false} PairedIffUnchanged(s: string, cr: bool)
    ensures |WithReturns(s, cr)| >= |s|
    ensures Paired(s, cr) <==> WithReturns(s, cr) == s
    decreases |s|
  {
    if s != "" {
      PairedIffUnchanged(s[1..], s[0] == '\r');
      assert s == [s[0]] + s[1..];
      if s[0] == '\n' && !cr {
        assert WithReturns(s, cr)[0] == '\r' != s[0];
      } else {
        assert ([s[0]] + WithReturns(s[1..], s[0] == '\r'))[1..] == WithReturns(s[1..], s[0] == '\r');
        PairedFirst(s, cr);
      }
    }
  }

  lemma PairedFirst(s: string, cr: bool)
    requires s != "" && !(s[0] == '\n' && !cr)
    ensures Paired(s, cr) <==> Paired(s[1..], s[0] == '\r')
  {
  }

  /** Which bytes of the result were inserted. */
  function Marks(s: string, cr: bool): seq<bool>
    decreases |s|
  {
    if s == "" then [] else (if s[0] == '\n' && !cr then [true, false] else [false]) + Marks(s[1..], s[0] == '\r')
  }

  function Unmarked(s: string, marks: seq<bool>): string
    requires |s| == |marks|
    decreases |s|
  {
    if s == "" then "" else (if marks[0] then "" else [s[0]]) + Unmarked(s[1..], marks[1..])
  }

  lemma {:induction false} MarksAreReturns(s: string, cr: bool)
    ensures |Marks(s, cr)| == |WithReturns(s, cr)|
    ensures forall i :: 0 <= i < |Marks(s, cr)| && Marks(s, cr)[i] ==>
              WithReturns(s, cr)[i] == '\r' && i + 1 < |Marks(s, cr)| && WithReturns(s, cr)[i + 1] == '\n'
    decreases |s|
  {
    if s != "" {
      var rest, marks := WithReturns(s[1..], s[0] == '\r'), Marks(s[1..], s[0] == '\r');
      MarksAreReturns(s[1..], s[0] == '\r');
      assert WithReturns(s, cr) == (if s[0] == '\n' && !cr then "\r\n" else [s[0]]) + rest;
      assert Marks(s, cr) == (if s[0] == '\n' && !cr then [true, false] else [false]) + marks;
      hide WithReturns, Marks;
    }
  }

  /** The marked bytes are carriage returns in front of line feeds, and without them the input is back. */
  lemma {:induction false} InsertionsUndone(s: string, cr: bool)
    ensures |Marks(s, cr)| == |WithReturns(s, cr)| && Unmarked(WithReturns(s, cr), Marks(s, cr)) == s
    ensures forall i :: 0 <= i < |Marks(s, cr)| && Marks(s, cr)[i] ==>
              WithReturns(s, cr)[i] == '\r' && i + 1 < |Marks(s, cr)| && WithReturns(s, cr)[i + 1] == '\n'
    decreases |s|
  {
    MarksAreReturns(s, cr);
    if s != "" {
      var rest, marks := WithReturns(s[1..], s[0] == '\r'), Marks(s[1..], s[0] == '\r');
      InsertionsUndone(s[1..], s[0] == '\r');
      if s[0] == '\n' && !cr {
        UnmarkedPair(rest, marks);
      } else {
        assert ([s[0]] + rest)[1..] == rest && ([false] + marks)[1..] == marks;
      }
    }
  }

  lemma UnmarkedPair(rest: string, marks: seq<bool>)
    requires |rest| == |marks|
    ensures Unmarked("\r\n" + rest, [true, false] + marks) == "\n" + Unmarked(rest, marks)
  {
    var all, allMarks := "\r\n" + rest, [true, false] + marks;
    assert all[1..][1..] == rest && allMarks[1..][1..] == marks && all[1..][0] == '\n' && !allMarks[1..][0];
    assert Unmarked(all[1..], allMarks[1..]) == ['\n'] + Unmarked(rest, marks);
  }

  // ----- Anything else goes out in base64 -----

  const CHUNK: nat := 48

  function ChunkLines(raw: string): seq<string>
    requires IsBytes(raw)
    decreases |raw|
  {
    if raw == "" then []
    else if |raw| <= CHUNK then [Encode(raw)]
    else [Encode(raw[..CHUNK])] + ChunkLines(raw[CHUNK..])
  }

  lemma {:induction false} SentFirst(line: string, lines: seq<string>)
    ensures Sent([line] + lines) == line + "\r\n" + Sent(lines)
    decreases |lines|
  {
    var all := [line] + lines;
    if lines == [] {
      assert all[..0] == [] && all[0] == line;
      assert "" + line + "\r\n" == line + "\r\n" + "";
    } else {
      var n := |lines| - 1;
      SentFirst(line, lines[..n]);
      assert all[..|all| - 1] == [line] + lines[..n] && all[|all| - 1] == lines[n];
    }
  }

  method EncodeChunks(raw: string) returns (ret: string)
    requires IsBytes(raw)
    ensures ret == Sent(ChunkLines(raw))
  {
    hide Encode, Sent;
    ret := "";
    var i := 0;
    NothingSent();
    while i < |raw|
      invariant 0 <= i
      invariant Sent(ChunkLines(raw)) == ret + if i < |raw| then Sent(ChunkLines(raw[i..])) else ""
      decreases |raw| - i
    {
      var chunk := if i + CHUNK <= |raw| then raw[i..i + CHUNK] else raw[i..];
      ChunkTaken(raw, i);
      ret := ret + (Encode(chunk) + "\r\n");
      i := i + CHUNK;
    }
  }

  lemma NothingSent()
    ensures Sent([]) == ""
  {
  }

  lemma ChunkTaken(raw: string, i: nat)
    requires IsBytes(raw) && i < |raw|
    ensures var chunk := if i + CHUNK <= |raw| then raw[i..i + CHUNK] else raw[i..];
            Sent(ChunkLines(raw[i..])) ==
            Encode(chunk) + "\r\n" + if i + CHUNK < |raw| then Sent(ChunkLines(raw[i + CHUNK..])) else ""
  {
    hide Encode, Sent;
    NothingSent();
    if i + CHUNK < |raw| {
      assert raw[i..][..CHUNK] == raw[i..i + CHUNK] && raw[i..][CHUNK..] == raw[i + CHUNK..];
      SentFirst(Encode(raw[i..i + CHUNK]), ChunkLines(raw[i + CHUNK..]));
    } else {
      var chunk := if i + CHUNK <= |raw| then raw[i..i + CHUNK] else raw[i..];
      assert chunk == raw[i..] && [Encode(chunk)] + [] == [Encode(chunk)];
      SentFirst(Encode(chunk), []);
    }
  }

  /**
   * The lines together are the base64 of the whole; each is of at most 64 symbols, within the 76 of section 6.8
   * of RFC 2045, and free of line ends.
   */
  lemma {:induction false} ChunksMakeTheWhole(raw: string)
    requires IsBytes(raw)
    ensures Concat(ChunkLines(raw)) == Encode(raw)
    ensures forall i :: 0 <= i < |ChunkLines(raw)| ==> |ChunkLines(raw)[i]| <= 64 <= 76 && OneLine(ChunkLines(raw)[i])
    decreases |raw|
  {
    hide Encode;
    if raw == "" {
      NothingEncoded();
    } else if |raw| <= CHUNK {
      EncodedLength(raw);
      EncodedIsOneLine(raw);
      assert Concat([Encode(raw)]) == Encode(raw) + Concat([Encode(raw)][1..]);
    } else {
      var first := raw[..CHUNK];
      EncodedLength(first);
      EncodedIsOneLine(first);
      ChunksMakeTheWhole(raw[CHUNK..]);
      EncodeAppend(first, raw[CHUNK..]);
      assert first + raw[CHUNK..] == raw;
    }
  }

  lemma NothingEncoded()
    ensures Encode("") == ""
  {
  }

  // ----- The whole body -----

  const BASE64_HEADER := "Content-Transfer-Encoding: base64\r\n"

  lemma {:induction false} Utf8IsBytes(s: string)
    ensures IsBytes(Utf8(s))
    decreases |s|
  {
    hide Utf8Char;
    if s != "" {
      Utf8IsBytes(s[1..]);
      Utf8CharIsBytes(s[0]);
    }
  }

  lemma Utf8CharIsBytes(c: char)
    ensures IsBytes(Utf8Char(c))
  {
  }

  method EncodeBody(str: string) returns (charset: string, encoding: string, ret: string)
    requires str != ""
    ensures Ascii(str) ==> charset == "" && encoding == "" && ret == WithReturns(Mangled(str), false)
    ensures !Ascii(str) ==>
              && charset == ";charset=utf8" && encoding == BASE64_HEADER && IsBytes(Utf8(str))
              && ret == Sent(ChunkLines(Utf8(str)))
  {
    hide Utf8, Mangled, WithReturns, ChunkLines, Sent;
    var ascii := IsAscii(str);
    if ascii {
      ReadBackIffAscii(str);
      charset, encoding := "", "";
      MangledLength(str);
      ret := RepairReturns(Utf8(str));
      ret := RepairLineFeeds(ret);
    } else {
      charset, encoding := ";charset=utf8", BASE64_HEADER;
      Utf8IsBytes(str);
      ret := EncodeChunks(Utf8(str));
    }
  }

  /** A receiver that puts the received lines together and decodes them has the text's bytes again. */
  lemma EncodedBodyReadsBack(str: string)
    requires str != ""
    ensures IsBytes(Utf8(str))
    ensures var (rest, lines) := Fed("", Sent(ChunkLines(Utf8(str))));
            rest == "" && Decode(Concat(lines)) == Utf8(str)
  {
    hide Utf8, Fed, Sent, ChunkLines, Encode, Decode, Concat, OneLine;
    Utf8IsBytes(str);
    ChunksMakeTheWhole(Utf8(str));
    SentArrives(ChunkLines(Utf8(str)));
    EncodedReadsBack(Utf8(str));
  }

  // ----- Carriage returns -----

  /** Every carriage return is followed by a line feed, which is what the first loop is there for. */
  predicate Completed(s: string) {
    forall i :: 0 <= i < |s| && s[i] == '\r' ==> i + 1 < |s| && s[i + 1] == '\n'
  }

  lemma CompletedFirst(c: char, t: string)
    ensures Completed([c] + t) <==> (c == '\r' ==> t != "" && t[0] == '\n') && Completed(t)
  {
    var s := [c] + t;
    assert s[0] == c && forall i :: 0 <= i < |t| ==> t[i] == s[i + 1];
    if Completed(s) {
      assert c == '\r' ==> s[0 + 1] == '\n';
      forall i | 0 <= i < |t| && t[i] == '\r'
        ensures i + 1 < |t| && t[i + 1] == '\n'
      {
        assert s[i + 1] == '\r' && s[i + 1 + 1] == '\n';
      }
    }
  }

  lemma {:induction false} MangledKeepsReturns(s: string)
    ensures Completed(Mangled(s)) <==> Completed(s)
    ensures |Mangled(s)| >= |s| && (s != "" ==> Mangled(s)[0] == s[0])
    decreases |s|
  {
    hide Completed;
    if s != "" {
      assert s == [s[0]] + s[1..];
      AtSlashR(s, 0);
      if At(s, SLASH_R, 0) {
        var rest := s[2..];
        MangledKeepsReturns(rest);
        assert s[1..] == ['r'] + rest;
        CompletedFirst('r', rest);
        CompletedFirst('/', ['r'] + rest);
        CompletedFirst('r', Mangled(rest));
        CompletedFirst('n', ['r'] + Mangled(rest));
        CompletedFirst('/', ['n'] + (['r'] + Mangled(rest)));
        CompletedFirst('/', ['/'] + (['n'] + (['r'] + Mangled(rest))));
        assert "//nr" + Mangled(rest) == ['/'] + (['/'] + (['n'] + (['r'] + Mangled(rest))));
      } else {
        MangledKeepsReturns(s[1..]);
        CompletedFirst(s[0], s[1..]);
        CompletedFirst(s[0], Mangled(s[1..]));
      }
    }
  }

  lemma {:induction false} WithReturnsKeepsReturns(s: string, cr: bool)
    ensures Completed(WithReturns(s, cr)) <==> Completed(s)
    ensures |WithReturns(s, cr)| >= |s|
    ensures s != "" && (cr || s[0] != '\n') ==> WithReturns(s, cr)[0] == s[0]
    ensures s != "" && s[0] != '\n' ==> WithReturns(s, cr)[0] != '\n'
    decreases |s|
  {
    hide Completed;
    if s != "" {
      assert s == [s[0]] + s[1..];
      var rest := WithReturns(s[1..], s[0] == '\r');
      WithReturnsKeepsReturns(s[1..], s[0] == '\r');
      CompletedFirst(s[0], s[1..]);
      CompletedFirst(s[0], rest);
      CompletedFirst('\r', ['\n'] + rest);
      assert ['\r'] + (['\n'] + rest) == "\r\n" + rest;
    }
  }

  /** Neither loop completes a carriage return: the sent body has every one completed exactly when the text had. */
  lemma ReturnsAreLeftAlone(body: string)
    ensures Completed(WithReturns(Mangled(body), false)) <==> Completed(body)
  {
    MangledKeepsReturns(body);
    WithReturnsKeepsReturns(Mangled(body), false);
  }

  /** For instance, a carriage return on its own stays as it is, though it was to be completed. */
  lemma NakedReturnStays()
    ensures WithReturns(Mangled("a\rb"), false) == "a\rb" && !Completed("a\rb")
  {
    assert "a\rb"[1] == '\r';
  }
}
