/**
 * Keeping a copy of a table in step when the table is looked at late.
 *
 * Whoever keeps the table announces an event by leaving a question, to be asked of the table at some later time:
 * all rows of a host, or one row. The answer shows the table as it is when the question is asked. A copy is in step
 * when every difference from the table is owed to a question still waiting, or to a host that has departed.
 */
module Replication {
  import opened Addresses

  // ----- Copies -----

  datatype Op<K, V> = Add(key: K, value: V) | Change(key: K, value: V) | Remove(key: K)

  function Applied<K, V>(m: map<K, V>, op: Op<K, V>): map<K, V> {
    match op
    case Add(k, v) => m[k := v]
    case Change(k, v) => m[k := v]
    case Remove(k) => map j | j in m && j != k :: m[j]
  }

  /** A copy that does not renew ignores the addition of what it knows. */
  function Taken<K, V>(m: map<K, V>, op: Op<K, V>, renews: bool): map<K, V> {
    if op.Add? && op.key in m && !renews then m else Applied(m, op)
  }

  /** Nothing unknown is changed or removed. */
  predicate Known<K, V>(m: map<K, V>, op: Op<K, V>) {
    op.Add? || op.key in m
  }

  function TakenAll<K, V>(m: map<K, V>, ops: seq<Op<K, V>>, renews: bool): map<K, V>
    decreases |ops|
  {
    if ops == [] then m else TakenAll(Taken(m, ops[0], renews), ops[1..], renews)
  }

  ghost predicate KnownAll<K, V>(m: map<K, V>, ops: seq<Op<K, V>>, renews: bool)
    decreases |ops|
  {
    ops == [] || (Known(m, ops[0]) && KnownAll(Taken(m, ops[0], renews), ops[1..], renews))
  }

  lemma TakeOne<K, V>(m: map<K, V>, op: Op<K, V>, renews: bool)
    ensures TakenAll(m, [op], renews) == Taken(m, op, renews) && (KnownAll(m, [op], renews) <==> Known(m, op))
  {
  }

  lemma {:induction false} TakenAppend<K, V>(m: map<K, V>, a: seq<Op<K, V>>, b: seq<Op<K, V>>, renews: bool)
    ensures TakenAll(m, a + b, renews) == TakenAll(TakenAll(m, a, renews), b, renews)
    ensures KnownAll(m, a + b, renews) <==> KnownAll(m, a, renews) && KnownAll(TakenAll(m, a, renews), b, renews)
    decreases |a|
  {
    hide Known, Taken;
    if a == [] {
      assert a + b == b;
    } else {
      assert (a + b)[1..] == a[1..] + b;
      TakenAppend(Taken(m, a[0], renews), a[1..], b, renews);
    }
  }

  ghost predicate NoRemovals<K, V>(ops: seq<Op<K, V>>) {
    forall i :: 0 <= i < |ops| ==> !ops[i].Remove?
  }

  ghost predicate NamesKey<K, V>(ops: seq<Op<K, V>>, k: K) {
    exists i :: 0 <= i < |ops| && ops[i].key == k
  }

  ghost predicate AddsOf<K, V>(ops: seq<Op<K, V>>, whole: map<K, V>) {
    forall i :: 0 <= i < |ops| ==> ops[i].Add? && ops[i].key in whole && ops[i].value == whole[ops[i].key]
  }

  /** Additions read from a table, repeated or not, add exactly their keys, and renew exactly if the copy does. */
  lemma {:induction false} TakeAdds<K, V>(m: map<K, V>, whole: map<K, V>, ops: seq<Op<K, V>>, renews: bool)
    requires AddsOf(ops, whole)
    ensures KnownAll(m, ops, renews)
    ensures forall k :: k in TakenAll(m, ops, renews) <==> k in m || NamesKey(ops, k)
    ensures forall k :: k in m && (!renews || !NamesKey(ops, k)) ==> TakenAll(m, ops, renews)[k] == m[k]
    ensures forall k :: NamesKey(ops, k) && (renews || k !in m) ==>
              k in whole && TakenAll(m, ops, renews)[k] == whole[k]
    decreases |ops|
  {
    if ops != [] {
      var next := Taken(m, ops[0], renews);
      TakeAdds(next, whole, ops[1..], renews);
      forall k
        ensures NamesKey(ops, k) <==> ops[0].key == k || NamesKey(ops[1..], k)
      {
        if NamesKey(ops, k) {
          var i :| 0 <= i < |ops| && ops[i].key == k;
          assert i == 0 || ops[1..][i - 1].key == k;
        }
        if NamesKey(ops[1..], k) {
          var i :| 0 <= i < |ops[1..]| && ops[1..][i].key == k;
          assert ops[i + 1].key == k;
        }
      }
      hide NamesKey;
    }
  }

  lemma {:induction false} TakeGrows<K, V>(m: map<K, V>, ops: seq<Op<K, V>>, renews: bool)
    requires NoRemovals(ops)
    ensures m.Keys <= TakenAll(m, ops, renews).Keys
    decreases |ops|
  {
    if ops != [] {
      assert m.Keys <= Taken(m, ops[0], renews).Keys;
      TakeGrows(Taken(m, ops[0], renews), ops[1..], renews);
    }
  }

  ghost predicate Removes<K, V>(ops: seq<Op<K, V>>) {
    && (forall i :: 0 <= i < |ops| ==> ops[i].Remove?)
    && (forall i, j :: 0 <= i < j < |ops| ==> ops[i].key != ops[j].key)
  }

  /** Removing distinct known keys leaves exactly the rest. */
  lemma {:induction false} TakeRemovals<K, V>(m: map<K, V>, ops: seq<Op<K, V>>, renews: bool)
    requires Removes(ops) && forall i :: 0 <= i < |ops| ==> ops[i].key in m
    ensures KnownAll(m, ops, renews)
    ensures forall k :: k in TakenAll(m, ops, renews) <==> k in m && forall i :: 0 <= i < |ops| ==> ops[i].key != k
    ensures forall k :: k in TakenAll(m, ops, renews) ==> TakenAll(m, ops, renews)[k] == m[k]
    decreases |ops|
  {
    if ops != [] {
      var next := Taken(m, ops[0], renews);
      TakeRemovals(next, ops[1..], renews);
      forall k
        ensures (k in next && forall i :: 0 <= i < |ops[1..]| ==> ops[1..][i].key != k) <==>
                (k in m && forall i :: 0 <= i < |ops| ==> ops[i].key != k)
      {
        if i :| 0 <= i < |ops| && ops[i].key == k {
          assert i == 0 || ops[1..][i - 1].key == k;
        }
      }
    }
  }

  // ----- Questions that wait -----

  datatype Ask<K> = Whole(host: IPv4Number) | Single(key: K)

  /** Before its own row is asked for, all rows of its host will be. */
  predicate Due<K(==)>(asks: seq<Ask<K>>, k: K, home: IPv4Number)
    decreases |asks|
  {
    asks != [] && (asks[0] == Whole(home) || (asks[0] != Single(k) && Due(asks[1..], k, home)))
  }

  lemma {:induction false} DueStays<K>(asks: seq<Ask<K>>, more: seq<Ask<K>>, k: K, home: IPv4Number)
    requires Due(asks, k, home)
    ensures Due(asks + more, k, home)
    decreases |asks|
  {
    assert (asks + more)[1..] == asks[1..] + more;
    if asks[0] != Whole(home) {
      DueStays(asks[1..], more, k, home);
    }
  }

  lemma {:induction false} DueAtEnd<K>(asks: seq<Ask<K>>, more: seq<Ask<K>>, k: K, home: IPv4Number)
    requires Single(k) !in asks && more != [] && more[0] == Whole(home)
    ensures Due(asks + more, k, home)
    decreases |asks|
  {
    if asks == [] {
      assert asks + more == more;
    } else {
      assert (asks + more)[1..] == asks[1..] + more;
      DueAtEnd(asks[1..], more, k, home);
    }
  }

  /** A row that waiting questions will still show. */
  ghost predicate Awaited<K>(asks: seq<Ask<K>>, k: K, home: IPv4Number, renews: bool) {
    Single(k) in asks || (renews && Whole(home) in asks)
  }

  /**
   * What is missing is due; what differs is awaited, except that a copy that does not renew may hold the rows of a
   * departed host for good; and only entries of departed hosts are there in excess.
   */
  ghost predicate InStep<K(!new), V>(
    held: map<K, V>, shown: map<K, V>, asks: seq<Ask<K>>, gone: set<IPv4Number>, home: K -> IPv4Number, renews: bool)
  {
    && (forall k :: k in shown && k !in held ==> Due(asks, k, home(k)))
    && (forall k :: k in shown && k in held && held[k] != shown[k] ==>
          Awaited(asks, k, home(k), renews) || (!renews && home(k) in gone))
    && (forall k :: k in held && k !in shown ==> home(k) in gone)
  }

  /** With no question left: every row is there, as it is unless its host departed and the copy does not renew. */
  ghost predicate Accurate<K(!new), V>(
    held: map<K, V>, shown: map<K, V>, gone: set<IPv4Number>, home: K -> IPv4Number, renews: bool)
  {
    && (forall k :: k in shown ==> k in held && (held[k] == shown[k] || (!renews && home(k) in gone)))
    && (forall k :: k in held && k !in shown ==> home(k) in gone)
  }

  lemma AtRest<K(!new), V>(
      held: map<K, V>, shown: map<K, V>, gone: set<IPv4Number>, home: K -> IPv4Number, renews: bool)
    ensures InStep(held, shown, [], gone, home, renews) <==> Accurate(held, shown, gone, home, renews)
    ensures Accurate(held, shown, {}, home, renews) <==> held == shown
  {
    forall k
      ensures !Due([], k, home(k)) && !Awaited([], k, home(k), renews)
    {
    }
  }

  // ----- Asking -----

  /** All rows of a host as they are now, and nothing else. */
  ghost predicate AnswersWhole<K(!new), V>(
    ops: seq<Op<K, V>>, shown: map<K, V>, host: IPv4Number, home: K -> IPv4Number)
  {
    && AddsOf(ops, shown) && (forall i :: 0 <= i < |ops| ==> home(ops[i].key) == host)
    && (forall k :: k in shown && home(k) == host ==> NamesKey(ops, k))
  }

  lemma WholeAsked<K(!new), V>(
      held: map<K, V>, shown: map<K, V>, asks: seq<Ask<K>>, ops: seq<Op<K, V>>, gone: set<IPv4Number>,
      home: K -> IPv4Number, renews: bool)
    requires asks != [] && asks[0].Whole? && AnswersWhole(ops, shown, asks[0].host, home)
    requires InStep(held, shown, asks, gone, home, renews)
    ensures KnownAll(held, ops, renews) && InStep(TakenAll(held, ops, renews), shown, asks[1..], gone, home, renews)
  {
    TakeAdds(held, shown, ops, renews);
    forall k | NamesKey(ops, k)
      ensures home(k) == asks[0].host && k in shown
    {
    }
    assert asks == [asks[0]] + asks[1..];
    hide KnownAll, TakenAll, NamesKey, AddsOf;
  }

  /** The row as it is now, if it is there. */
  function SingleAnswer<K, V>(shown: map<K, V>, k: K): seq<Op<K, V>> {
    if k in shown then [Change(k, shown[k])] else []
  }

  lemma SingleAsked<K(!new), V>(
      held: map<K, V>, shown: map<K, V>, asks: seq<Ask<K>>, gone: set<IPv4Number>, home: K -> IPv4Number, renews: bool)
    requires asks != [] && asks[0].Single? && InStep(held, shown, asks, gone, home, renews)
    ensures var ops := SingleAnswer(shown, asks[0].key);
            KnownAll(held, ops, renews) && InStep(TakenAll(held, ops, renews), shown, asks[1..], gone, home, renews)
  {
    var k := asks[0].key;
    assert asks == [asks[0]] + asks[1..];
    if k in shown {
      assert !Due(asks, k, home(k));
      TakeOne(held, Change(k, shown[k]), renews);
    }
    hide KnownAll, TakenAll;
  }

  // ----- Events -----

  lemma MoreAsked<K(!new), V>(
      held: map<K, V>, shown: map<K, V>, asks: seq<Ask<K>>, more: seq<Ask<K>>, gone: set<IPv4Number>,
      home: K -> IPv4Number, renews: bool)
    requires InStep(held, shown, asks, gone, home, renews)
    ensures InStep(held, shown, asks + more, gone, home, renews)
  {
    forall k | Due(asks, k, home(k))
      ensures Due(asks + more, k, home(k))
    {
      DueStays(asks, more, k, home(k));
    }
  }

  /** One row may have become another, and will be asked for. */
  lemma RowChanges<K(!new), V>(
      held: map<K, V>, shown: map<K, V>, after: map<K, V>, asks: seq<Ask<K>>, k: K, gone: set<IPv4Number>,
      home: K -> IPv4Number, renews: bool)
    requires InStep(held, shown, asks, gone, home, renews)
    requires shown.Keys == after.Keys && forall j :: j in shown && j != k ==> shown[j] == after[j]
    ensures InStep(held, after, asks + [Single(k)], gone, home, renews)
  {
    MoreAsked(held, shown, asks, [Single(k)], gone, home, renews);
    hide Due;
  }

  /** A host comes up that nothing was waiting to be asked about; its rows will be asked for. */
  lemma HostComes<K(!new), V>(
      held: map<K, V>, shown: map<K, V>, after: map<K, V>, asks: seq<Ask<K>>, more: seq<Ask<K>>, host: IPv4Number,
      gone: set<IPv4Number>, home: K -> IPv4Number, renews: bool)
    requires InStep(held, shown, asks, gone, home, renews) && more != [] && more[0] == Whole(host)
    requires forall k :: Single(k) in asks ==> home(k) != host
    requires forall k :: k in shown <==> k in after && home(k) != host
    requires forall k :: k in shown ==> shown[k] == after[k]
    ensures InStep(held, after, asks + more, gone, home, renews)
  {
    MoreAsked(held, shown, asks, more, gone, home, renews);
    forall k | home(k) == host
      ensures Due(asks + more, k, host)
    {
      DueAtEnd(asks, more, k, host);
    }
    hide Due;
  }

  lemma HostGoes<K(!new), V>(
      held: map<K, V>, shown: map<K, V>, after: map<K, V>, asks: seq<Ask<K>>, host: IPv4Number,
      gone: set<IPv4Number>, home: K -> IPv4Number, renews: bool)
    requires InStep(held, shown, asks, gone, home, renews)
    requires forall k :: k in after <==> k in shown && home(k) != host
    requires forall k :: k in after ==> shown[k] == after[k]
    ensures InStep(held, after, asks, gone + {host}, home, renews)
  {
    hide Due;
  }
}
