/**
 * Reading the crosspoints back: the RouteStat query over the index tables, and the two ways of listing it.
 *
 * A query answer is any sequence that lists the joined rows once each in order of output; rows of the same
 * output may come in either order.
 */
module RouteStat {
  import opened Addresses
  import opened Text
  import opened EndPointMaps
  import opened RoutingTables
  import opened RoutingDatabase

  /** One joined row: the index rows it comes from, and the numbers they carry. */
  datatype RouteRow = RouteRow(destination: nat, source: Option<nat>, output: int, input: Option<int>)

  predicate Routable(a: HostAddress) {
    a != NULL_STREAM_ADDRESS && a != ZERO_ADDRESS && a != BROADCAST_ADDRESS && a != Null
  }

  /** A destination joined with a source of the same router and the same, routable stream. */
  predicate AudioRow(db: Database, router: int, r: RouteRow) {
    && r.source.Some?
    && r.destination in db.destinations.index && r.source.value in db.sources.index
    && var d := db.destinations.index[r.destination];
       var s := db.sources.index[r.source.value];
       && d.router == router && s.router == router && d.link == s.link && Routable(s.link)
       && r.output == d.number && r.input == Some(s.number)
  }

  predicate Follows(d: IndexRow<GpoLink>, s: IndexRow<()>) {
    s.router == d.router && d.link == GpoLink(IPv4(s.key.host), s.key.slot)
  }

  /** A GPO joined with the GPI it follows, or with nothing when it follows none of the router's. */
  ghost predicate GpioRow(db: Database, router: int, r: RouteRow) {
    && r.destination in db.gpos.index
    && var d := db.gpos.index[r.destination];
       && d.router == router && r.output == d.number
       && match r.source
          case Some(i) => i in db.gpis.index && Follows(d, db.gpis.index[i]) && r.input == Some(db.gpis.index[i].number)
          case None => r.input == None && forall i :: i in db.gpis.index ==> !Follows(d, db.gpis.index[i])
  }

  ghost predicate Joins(db: Database, kind: RouterKind, router: int, r: RouteRow) {
    if kind == AudioRouter then AudioRow(db, router, r) else GpioRow(db, router, r)
  }

  predicate Ordered(q: seq<RouteRow>) {
    forall i, j :: 0 <= i < j < |q| ==> q[i].output <= q[j].output && q[i] != q[j]
  }

  ghost predicate AnswersAll(q: seq<RouteRow>, db: Database, kind: RouterKind, router: int) {
    Ordered(q) && forall r :: r in q <==> Joins(db, kind, router, r)
  }

  ghost predicate AnswersOne(q: seq<RouteRow>, db: Database, kind: RouterKind, router: int, output: int) {
    Ordered(q) && forall r :: r in q <==> Joins(db, kind, router, r) && r.output == output
  }

  // ----- Lines -----

  /** `RouteStat <router> <output> <input> False`, counted from 1; input 0 is OFF. */
  datatype Line = Line(router: int, output: int, input: int)

  function RowLine(router: int, r: RouteRow): Line {
    Line(router + 1, r.output + 1, if r.input.Some? then r.input.value + 1 else 0)
  }

  function OffLine(router: int, output: int): Line {
    Line(router + 1, output + 1, 0)
  }

  /** The single-output listing. */
  function OneLine(router: int, q: seq<RouteRow>, output: int): Line {
    if q != [] then RowLine(router, q[0]) else OffLine(router, output)
  }

  /** The full listing: one cursor over the answer, one line per output from `i` to `n`. */
  function CursorLines(router: int, q: seq<RouteRow>, pos: nat, i: nat, n: nat): seq<Line>
    requires i <= n
    decreases n - i
  {
    if i == n then []
    else if pos < |q| && q[pos].output == i then [RowLine(router, q[pos])] + CursorLines(router, q, pos + 1, i + 1, n)
    else [OffLine(router, i)] + CursorLines(router, q, pos, i + 1, n)
  }

  lemma {:induction false} OneLinePerOutput(router: int, q: seq<RouteRow>, pos: nat, i: nat, n: nat)
    requires i <= n
    ensures |CursorLines(router, q, pos, i, n)| == n - i
    ensures forall k :: 0 <= k < n - i ==> CursorLines(router, q, pos, i, n)[k].output == i + k + 1
    decreases n - i
  {
    if i < n {
      var next := if pos < |q| && q[pos].output == i then pos + 1 else pos;
      OneLinePerOutput(router, q, next, i + 1, n);
    }
  }

  // ----- When the full listing is right -----

  /** The rows of one output, in the order of the answer. */
  function Of(q: seq<RouteRow>, output: int): seq<RouteRow> {
    if q == [] then []
    else if q[0].output == output then [q[0]] + Of(q[1..], output)
    else Of(q[1..], output)
  }

  function SingleLines(router: int, q: seq<RouteRow>, i: nat, n: nat): seq<Line>
    requires i <= n
    decreases n - i
  {
    if i == n then [] else [OneLine(router, Of(q, i), i)] + SingleLines(router, q, i + 1, n)
  }

  predicate Off(router: int, q: seq<RouteRow>, output: int) {
    OneLine(router, Of(q, output), output).input == 0
  }

  lemma {:induction false} OfLater(q: seq<RouteRow>, output: int)
    requires Ordered(q) && forall k :: 0 <= k < |q| ==> output < q[k].output
    ensures Of(q, output) == []
    decreases |q|
  {
    if q != [] {
      OfLater(q[1..], output);
    }
  }

  predicate AllOff(router: int, lines: seq<Line>, i: int) {
    forall k :: 0 <= k < |lines| ==> lines[k] == OffLine(router, i + k)
  }

  predicate AreSingles(router: int, q: seq<RouteRow>, lines: seq<Line>, i: int) {
    forall k :: 0 <= k < |lines| ==> lines[k] == OneLine(router, Of(q, i + k), i + k)
  }

  /** A cursor left on an earlier output never moves again. */
  lemma {:induction false} StuckCursor(router: int, q: seq<RouteRow>, pos: nat, i: nat, n: nat)
    requires i <= n && pos < |q| && q[pos].output < i
    ensures |CursorLines(router, q, pos, i, n)| == n - i && AllOff(router, CursorLines(router, q, pos, i, n), i)
    decreases n - i
  {
    if i < n {
      StuckCursor(router, q, pos, i + 1, n);
    }
  }

  /** Once two rows of one output have gone by, every later output is listed as off. */
  lemma {:induction false} RepeatStopsCursor(router: int, q: seq<RouteRow>, pos: nat, i: nat, n: nat, x: nat, y: nat)
    requires Ordered(q) && i <= n && pos <= x < y < |q| && q[x].output == q[y].output && i <= q[x].output
    ensures |CursorLines(router, q, pos, i, n)| == n - i
    ensures forall k :: q[x].output < k < n ==> CursorLines(router, q, pos, i, n)[k - i] == OffLine(router, k)
    decreases n - i
  {
    OneLinePerOutput(router, q, pos, i, n);
    if i < n {
      if q[pos].output < i {
        StuckCursor(router, q, pos, i, n);
      } else if i == q[x].output {
        StuckCursor(router, q, pos + 1, i + 1, n);
      } else {
        RepeatStopsCursor(router, q, if q[pos].output == i then pos + 1 else pos, i + 1, n, x, y);
      }
    }
  }

  lemma {:induction false} SingleLinesAre(router: int, q: seq<RouteRow>, i: nat, n: nat)
    requires i <= n
    ensures |SingleLines(router, q, i, n)| == n - i && AreSingles(router, q, SingleLines(router, q, i, n), i)
    decreases n - i
  {
    if i < n {
      SingleLinesAre(router, q, i + 1, n);
    }
  }

  /** No output with several rows is followed by an output that is on. */
  predicate NoneAfterRepeat(router: int, q: seq<RouteRow>, i: nat, n: nat) {
    forall o, j :: i <= o < j < n && |Of(q, o)| > 1 ==> Off(router, q, j)
  }

  lemma {:induction false} OfHasOutput(q: seq<RouteRow>, output: int)
    ensures forall k :: 0 <= k < |Of(q, output)| ==> Of(q, output)[k].output == output && Of(q, output)[k] in q
    decreases |q|
  {
    if q != [] {
      OfHasOutput(q[1..], output);
    }
  }

  lemma {:induction false} FromCursor(router: int, q: seq<RouteRow>, pos: nat, i: nat, n: nat)
    requires i <= n && pos <= |q| && Ordered(q)
    requires forall k :: 0 <= k < pos ==> q[k].output < i
    requires forall k :: pos <= k < |q| ==> i <= q[k].output
    ensures CursorLines(router, q, pos, i, n) == SingleLines(router, q, i, n) <==> NoneAfterRepeat(router, q, i, n)
    decreases n - i
  {
    hide CursorLines, SingleLines, NoneAfterRepeat, Of, OneLine, RowLine, OffLine, AllOff, AreSingles;
    if i == n {
      NothingLeft(router, q, pos, n);
    } else {
      OfFrom(q, pos, i);
      SingleLinesAre(router, q, i + 1, n);
      if pos < |q| && q[pos].output == i {
        if pos + 1 < |q| && q[pos + 1].output == i {
          StuckCursor(router, q, pos + 1, i + 1, n);
          AfterRepeat(router, q, pos, i, n);
        } else {
          FromCursor(router, q, pos + 1, i + 1, n);
          NotRepeated(router, q, pos, i, n);
        }
      } else {
        FromCursor(router, q, pos, i + 1, n);
        NoRow(router, q, pos, i, n);
      }
    }
  }

  /** The rows of output `i` start at the first row that is not before it. */
  lemma {:induction false} OfFrom(q: seq<RouteRow>, pos: nat, i: int)
    requires pos <= |q| && Ordered(q)
    requires forall k :: 0 <= k < pos ==> q[k].output < i
    requires forall k :: pos <= k < |q| ==> i <= q[k].output
    ensures pos == |q| || q[pos].output != i ==> Of(q, i) == []
    ensures pos < |q| && q[pos].output == i ==> |Of(q, i)| >= 1 && Of(q, i)[0] == q[pos]
    ensures pos < |q| && q[pos].output == i ==>
              (|Of(q, i)| > 1 <==> pos + 1 < |q| && q[pos + 1].output == i)
    decreases |q|
  {
    if q != [] {
      if pos > 0 {
        OfFrom(q[1..], pos - 1, i);
      } else if q[0].output == i {
        if |q| > 1 && q[1].output != i {
          OfLater(q[1..], i);
        }
      } else {
        OfLater(q, i);
      }
    }
  }

  lemma AfterRepeat(router: int, q: seq<RouteRow>, pos: nat, i: nat, n: nat)
    requires i < n && pos + 1 < |q| && q[pos].output == i == q[pos + 1].output
    requires |Of(q, i)| > 1 && Of(q, i)[0] == q[pos]
    requires |CursorLines(router, q, pos + 1, i + 1, n)| == |SingleLines(router, q, i + 1, n)| == n - i - 1
    requires AllOff(router, CursorLines(router, q, pos + 1, i + 1, n), i + 1)
    requires AreSingles(router, q, SingleLines(router, q, i + 1, n), i + 1)
    ensures CursorLines(router, q, pos, i, n) == SingleLines(router, q, i, n) <==> NoneAfterRepeat(router, q, i, n)
  {
    var c, s := CursorLines(router, q, pos + 1, i + 1, n), SingleLines(router, q, i + 1, n);
    var line := [RowLine(router, q[pos])];
    assert CursorLines(router, q, pos, i, n) == line + c && SingleLines(router, q, i, n) == line + s;
    assert line + c == line + s <==> c == s by {
      assert (line + c)[1..] == c && (line + s)[1..] == s;
    }
    forall j | i < j < n
      ensures c[j - i - 1] == s[j - i - 1] <==> Off(router, q, j)
    {
      OfHasOutput(q, j);
    }
    if c == s {
      forall j | i < j < n
        ensures Off(router, q, j)
      {
        assert c[j - i - 1] == s[j - i - 1];
      }
    }
    if NoneAfterRepeat(router, q, i, n) {
      forall k | 0 <= k < n - i - 1
        ensures c[k] == s[k]
      {
        assert Off(router, q, i + 1 + k);
      }
    }
  }

  lemma NotRepeated(router: int, q: seq<RouteRow>, pos: nat, i: nat, n: nat)
    requires i < n && pos < |q| && q[pos].output == i && |Of(q, i)| == 1 && Of(q, i)[0] == q[pos]
    requires CursorLines(router, q, pos + 1, i + 1, n) == SingleLines(router, q, i + 1, n) <==>
             NoneAfterRepeat(router, q, i + 1, n)
    ensures CursorLines(router, q, pos, i, n) == SingleLines(router, q, i, n) <==> NoneAfterRepeat(router, q, i, n)
  {
    var c, s := CursorLines(router, q, pos + 1, i + 1, n), SingleLines(router, q, i + 1, n);
    var line := [RowLine(router, q[pos])];
    assert CursorLines(router, q, pos, i, n) == line + c && SingleLines(router, q, i, n) == line + s;
    assert (line + c)[1..] == c && (line + s)[1..] == s;
  }

  lemma NoRow(router: int, q: seq<RouteRow>, pos: nat, i: nat, n: nat)
    requires i < n && (pos < |q| ==> q[pos].output != i) && Of(q, i) == []
    requires CursorLines(router, q, pos, i + 1, n) == SingleLines(router, q, i + 1, n) <==>
             NoneAfterRepeat(router, q, i + 1, n)
    ensures CursorLines(router, q, pos, i, n) == SingleLines(router, q, i, n) <==> NoneAfterRepeat(router, q, i, n)
  {
    var c, s := CursorLines(router, q, pos, i + 1, n), SingleLines(router, q, i + 1, n);
    var line := [OffLine(router, i)];
    assert CursorLines(router, q, pos, i, n) == line + c && SingleLines(router, q, i, n) == line + s;
    assert (line + c)[1..] == c && (line + s)[1..] == s;
  }

  lemma NothingLeft(router: int, q: seq<RouteRow>, pos: nat, n: nat)
    ensures CursorLines(router, q, pos, n, n) == SingleLines(router, q, n, n) && NoneAfterRepeat(router, q, n, n)
  {
  }

  /**
   * The full listing is the concatenation of the single ones exactly when no output that joins several
   * sources comes before an output that is on: a second row for an output stops the cursor for good.
   */
  lemma FullListingExact(router: int, q: seq<RouteRow>, n: nat)
    requires Ordered(q) && forall k :: 0 <= k < |q| ==> 0 <= q[k].output
    ensures CursorLines(router, q, 0, 0, n) == SingleLines(router, q, 0, n) <==> NoneAfterRepeat(router, q, 0, n)
  {
    FromCursor(router, q, 0, 0, n);
  }

  // ----- At most one row per output -----

  /** Distinct inputs of the router carry distinct streams, as far as they carry any. */
  ghost predicate DistinctStreams(db: Database, router: int) {
    forall i, j | i in db.sources.index && j in db.sources.index ::
      SameStream(router, db.sources.index[i], db.sources.index[j]) ==> i == j
  }

  predicate SameStream(router: int, r: IndexRow<HostAddress>, s: IndexRow<HostAddress>) {
    r.router == router && s.router == router && Routable(r.link) && r.link == s.link
  }

  /** A number identifies one row of an index within a router. */
  lemma NumberIsUnique<L, D>(t: Table<L, D>, maps: MapSet, role: Role, i: nat, j: nat)
    requires Agrees(t, maps, role) && i in t.index && j in t.index
    requires t.index[i].router == t.index[j].router && t.index[i].number == t.index[j].number
    ensures i == j
  {
  }

  lemma OneAudioRow(db: Database, maps: MapSet, router: int, r: RouteRow, s: RouteRow)
    requires IndexAgreement(db, maps) && DistinctStreams(db, router)
    ensures AudioRow(db, router, r) && AudioRow(db, router, s) && r.output == s.output ==> r == s
  {
    hide Agrees;
    if AudioRow(db, router, r) && AudioRow(db, router, s) && r.output == s.output {
      NumberIsUnique(db.destinations, maps, DESTINATIONS, r.destination, s.destination);
      assert SameStream(router, db.sources.index[r.source.value], db.sources.index[s.source.value]);
    }
  }

  lemma SameGpiRow(db: Database, maps: MapSet, d: IndexRow<GpoLink>, i: nat, j: nat)
    requires Agrees(db.gpis, maps, GPIS) && i in db.gpis.index && j in db.gpis.index
    requires Follows(d, db.gpis.index[i]) && Follows(d, db.gpis.index[j])
    ensures i == j
  {
  }

  lemma OneGpioRow(db: Database, maps: MapSet, router: int, r: RouteRow, s: RouteRow)
    requires IndexAgreement(db, maps)
    ensures GpioRow(db, router, r) && GpioRow(db, router, s) && r.output == s.output ==> r == s
  {
    hide Agrees;
    if GpioRow(db, router, r) && GpioRow(db, router, s) && r.output == s.output {
      NumberIsUnique(db.gpos, maps, GPOS, r.destination, s.destination);
      if r.source.Some? && s.source.Some? {
        SameGpiRow(db, maps, db.gpos.index[r.destination], r.source.value, s.source.value);
      }
    }
  }

  lemma OneRowPerOutput(db: Database, maps: MapSet, kind: RouterKind, router: int, r: RouteRow, s: RouteRow)
    requires IndexAgreement(db, maps) && (kind == AudioRouter ==> DistinctStreams(db, router))
    ensures Joins(db, kind, router, r) && Joins(db, kind, router, s) && r.output == s.output ==> r == s
  {
    hide IndexAgreement, DistinctStreams, AudioRow, GpioRow;
    if kind == AudioRouter {
      OneAudioRow(db, maps, router, r, s);
    } else {
      OneGpioRow(db, maps, router, r, s);
    }
  }

  lemma JoinsIsNumbered(db: Database, maps: MapSet, kind: RouterKind, router: int, r: RouteRow)
    requires IndexAgreement(db, maps) && Joins(db, kind, router, r)
    ensures r.output >= 0
  {
  }

  lemma {:induction false} OfIsShort(q: seq<RouteRow>, output: int)
    requires Ordered(q)
    requires forall r, s :: r in q && s in q && r.output == output && s.output == output ==> r == s
    ensures |Of(q, output)| <= 1
    decreases |q|
  {
    if q != [] {
      OfIsShort(q[1..], output);
      OfHasOutput(q[1..], output);
    }
  }

  lemma {:induction false} OfIsComplete(q: seq<RouteRow>, output: int, r: RouteRow)
    requires r in q && r.output == output
    ensures r in Of(q, output)
    decreases |q|
  {
    if q[0] != r {
      assert r in q[1..];
      OfIsComplete(q[1..], output, r);
    }
  }

  /**
   * With the indexes in agreement and distinct input streams, whatever answers the database gives, the full
   * listing is the concatenation of the single-output listings.
   */
  lemma FullListingIsSingles(
      db: Database, maps: MapSet, kind: RouterKind, router: int, q: seq<RouteRow>, n: nat, ones: nat -> seq<RouteRow>)
    requires IndexAgreement(db, maps) && (kind == AudioRouter ==> DistinctStreams(db, router))
    requires AnswersAll(q, db, kind, router)
    requires forall o: nat :: o < n ==> AnswersOne(ones(o), db, kind, router, o)
    ensures |CursorLines(router, q, 0, 0, n)| == n
    ensures forall o :: 0 <= o < n ==> CursorLines(router, q, 0, 0, n)[o] == OneLine(router, ones(o), o)
  {
    hide IndexAgreement, DistinctStreams, Joins;
    forall r | r in q
      ensures r.output >= 0
    {
      JoinsIsNumbered(db, maps, kind, router, r);
    }
    forall o: nat | o < n
      ensures |Of(q, o)| <= 1 && OneLine(router, Of(q, o), o) == OneLine(router, ones(o), o)
    {
      SameSingleLine(db, maps, kind, router, q, ones(o), o);
    }
    FullListingExact(router, q, n);
    SingleLinesAre(router, q, 0, n);
  }

  lemma SameSingleLine(
      db: Database, maps: MapSet, kind: RouterKind, router: int, q: seq<RouteRow>, one: seq<RouteRow>, o: nat)
    requires IndexAgreement(db, maps) && (kind == AudioRouter ==> DistinctStreams(db, router))
    requires AnswersAll(q, db, kind, router) && AnswersOne(one, db, kind, router, o)
    ensures |Of(q, o)| <= 1 && OneLine(router, Of(q, o), o) == OneLine(router, one, o)
  {
    hide IndexAgreement, DistinctStreams, Joins;
    forall r, s | r in q && s in q && r.output == o && s.output == o
      ensures r == s
    {
      OneRowPerOutput(db, maps, kind, router, r, s);
    }
    OfIsShort(q, o);
    OfHasOutput(q, o);
    if one != [] {
      assert one[0] in one;
      OfIsComplete(q, o, one[0]);
      assert Of(q, o) == [one[0]];
    }
  }

  // ----- Inputs that share a stream -----

  /** Where two inputs feed one output, every later output that is on is reported so by itself, but off in full. */
  lemma SharedStreamHidesLater(
      db: Database, maps: MapSet, router: int, q: seq<RouteRow>, one: seq<RouteRow>, n: nat, a: RouteRow, b: RouteRow,
      c: RouteRow)
    requires IndexAgreement(db, maps) && AnswersAll(q, db, AudioRouter, router)
    requires AudioRow(db, router, a) && AudioRow(db, router, b) && AudioRow(db, router, c)
    requires a != b && a.output == b.output < c.output < n && AnswersOne(one, db, AudioRouter, router, c.output)
    ensures |CursorLines(router, q, 0, 0, n)| == n
    ensures CursorLines(router, q, 0, 0, n)[c.output] == OffLine(router, c.output)
    ensures OneLine(router, one, c.output) != OffLine(router, c.output)
  {
    JoinsIsNumbered(db, maps, AudioRouter, router, a);
    hide IndexAgreement, AudioRow, CursorLines, OneLine;
    assert a in q && b in q;
    RepeatHidesLater(router, q, n, a, b);
    OutputIsOn(db, maps, router, one, c);
  }

  lemma RepeatHidesLater(router: int, q: seq<RouteRow>, n: nat, a: RouteRow, b: RouteRow)
    requires Ordered(q) && a in q && b in q && a != b && 0 <= a.output == b.output
    ensures |CursorLines(router, q, 0, 0, n)| == n
    ensures forall o :: a.output < o < n ==> CursorLines(router, q, 0, 0, n)[o] == OffLine(router, o)
  {
    hide CursorLines, OffLine;
    var x :| 0 <= x < |q| && q[x] == a;
    var y :| 0 <= y < |q| && q[y] == b;
    if x < y {
      RepeatStopsCursor(router, q, 0, 0, n, x, y);
    } else {
      RepeatStopsCursor(router, q, 0, 0, n, y, x);
    }
  }

  lemma OutputIsOn(db: Database, maps: MapSet, router: int, one: seq<RouteRow>, c: RouteRow)
    requires IndexAgreement(db, maps) && AudioRow(db, router, c) && AnswersOne(one, db, AudioRouter, router, c.output)
    ensures OneLine(router, one, c.output) != OffLine(router, c.output)
  {
    hide IndexAgreement, AudioRow;
    assert c in one && one[0] in one;
    AudioRowIsOn(db, maps, router, one[0]);
  }

  lemma AudioRowIsOn(db: Database, maps: MapSet, router: int, r: RouteRow)
    requires IndexAgreement(db, maps) && AudioRow(db, router, r)
    ensures r.input.Some? && r.input.value >= 0
  {
    assert RowRight(db.sources, maps, SOURCES, db.sources.index[r.source.value]);
  }
}
