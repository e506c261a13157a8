/**
 * A live table of slots and the router index derived from it.
 *
 * The rows of one live table (SOURCES, DESTINATIONS, GPIS or GPOS) are unique by host and slot. Its index
 * (the SA_ table of the same name) repeats, for every router map that lists the slot, the number the slot has
 * there and the columns that decide crosspoints: the link. Index rows are identified by their auto-increment
 * number, so that duplicates are possible and must be excluded by proof.
 */
module RoutingTables {
  import opened Addresses
  import opened EndPointMaps

  datatype Key = Key(host: IPv4Number, slot: nat)

  datatype Row<L, D> = Row(id: nat, link: L, data: D)

  datatype IndexRow<L> = IndexRow(router: int, number: int, rowId: nat, link: L, key: Key)

  datatype Table<L, D> =
    Table(rows: map<Key, Row<L, D>>, index: map<nat, IndexRow<L>>, nextRow: nat, nextIndex: nat)

  function NoRows<L, D>(): Table<L, D> {
    Table(map[], map[], 0, 0)
  }

  /** The loaded maps by router number, with the order in which they are visited. */
  datatype MapSet = MapSet(keys: seq<int>, byNumber: map<int, RouterMap>) {
    predicate Loaded() {
      forall i :: 0 <= i < |keys| ==> keys[i] in byNumber
    }

    ghost predicate Valid() {
      && Loaded()
      && (forall i, j :: 0 <= i < j < |keys| ==> keys[i] != keys[j])
      && (forall k :: k in byNumber ==> k in keys)
      && (forall k :: k in byNumber ==> byNumber[k].number == k)
    }
  }

  /** Which index a table feeds: the kind of router and the side of it. */
  datatype Role = Role(kind: RouterKind, end: End)

  const SOURCES := Role(AudioRouter, Input)
  const DESTINATIONS := Role(AudioRouter, Output)
  const GPIS := Role(GpioRouter, Input)
  const GPOS := Role(GpioRouter, Output)

  function NumberIn(m: RouterMap, role: Role, key: Key): int {
    if m.kind == role.kind then m.NumberOf(role.end, IPv4(key.host), key.slot) else -1
  }

  // ----- The operations -----

  function WithIndexRow<L, D>(t: Table<L, D>, m: RouterMap, role: Role, key: Key, id: nat, link: L): Table<L, D> {
    var n := NumberIn(m, role, key);
    if n < 0 then t
    else t.(index := t.index[t.nextIndex := IndexRow(m.number, n, id, link, key)], nextIndex := t.nextIndex + 1)
  }

  /** Visit the first `n` maps. */
  function Indexed<L, D>(t: Table<L, D>, maps: MapSet, role: Role, key: Key, id: nat, link: L, n: nat): Table<L, D>
    requires maps.Loaded() && n <= |maps.keys|
  {
    if n == 0 then t
    else WithIndexRow(Indexed(t, maps, role, key, id, link, n - 1), maps.byNumber[maps.keys[n - 1]], role, key, id,
                      link)
  }

  function WithRow<L, D>(t: Table<L, D>, key: Key, link: L, data: D): Table<L, D> {
    t.(rows := t.rows[key := Row(t.nextRow, link, data)], nextRow := t.nextRow + 1)
  }

  function SlotAdded<L, D>(t: Table<L, D>, maps: MapSet, role: Role, key: Key, link: L, data: D): Table<L, D>
    requires maps.Loaded()
  {
    Indexed(WithRow(t, key, link, data), maps, role, key, t.nextRow, link, |maps.keys|)
  }

  /** Insert the slots of a host, numbered from zero. */
  function HostAdded<L, D>(t: Table<L, D>, maps: MapSet, role: Role, host: IPv4Number, slots: seq<(L, D)>): Table<L, D>
    requires maps.Loaded()
  {
    if slots == [] then t
    else
      var last := |slots| - 1;
      SlotAdded(HostAdded(t, maps, role, host, slots[..last]), maps, role, Key(host, last), slots[last].0,
                slots[last].1)
  }

  function HostRemoved<L, D>(t: Table<L, D>, host: IPv4Number): Table<L, D> {
    t.(index := map i | i in t.index && t.index[i].key.host != host :: t.index[i],
       rows := map k | k in t.rows && k.host != host :: t.rows[k])
  }

  function DataChanged<L, D>(t: Table<L, D>, key: Key, data: D): Table<L, D> {
    if key in t.rows then t.(rows := t.rows[key := t.rows[key].(data := data)]) else t
  }

  function LinkChanged<L, D>(t: Table<L, D>, key: Key, link: L): Table<L, D> {
    (if key in t.rows then t.(rows := t.rows[key := t.rows[key].(link := link)]) else t)
    .(index := map i | i in t.index :: if t.index[i].key == key then t.index[i].(link := link) else t.index[i])
  }

  // ----- Agreement: the index is the join of the rows with the maps -----

  predicate Listed(maps: MapSet, role: Role, router: int, key: Key) {
    router in maps.byNumber && NumberIn(maps.byNumber[router], role, key) >= 0
  }

  ghost predicate RowRight<L, D>(t: Table<L, D>, maps: MapSet, role: Role, r: IndexRow<L>) {
    && Listed(maps, role, r.router, r.key)
    && r.number == NumberIn(maps.byNumber[r.router], role, r.key)
    && r.key in t.rows && r.rowId == t.rows[r.key].id && r.link == t.rows[r.key].link
  }

  ghost predicate AllRight<L, D>(t: Table<L, D>, maps: MapSet, role: Role) {
    forall i :: i in t.index ==> RowRight(t, maps, role, t.index[i])
  }

  predicate SamePlace<L>(r: IndexRow<L>, s: IndexRow<L>) {
    r.router == s.router && r.key == s.key
  }

  ghost predicate NoneTwice<L, D>(t: Table<L, D>) {
    forall i, j :: i in t.index && j in t.index && SamePlace(t.index[i], t.index[j]) ==> i == j
  }

  ghost predicate HasRow<L, D>(t: Table<L, D>, router: int, key: Key) {
    exists i :: i in t.index && t.index[i].router == router && t.index[i].key == key
  }

  ghost predicate NoneMissing<L, D>(t: Table<L, D>, maps: MapSet, role: Role) {
    forall key, router :: key in t.rows && Listed(maps, role, router, key) ==> HasRow(t, router, key)
  }

  ghost predicate Numbered<L, D>(t: Table<L, D>) {
    && (forall i :: i in t.index ==> i < t.nextIndex)
    && (forall k :: k in t.rows ==> t.rows[k].id < t.nextRow)
    && (forall k, l :: k in t.rows && l in t.rows && t.rows[k].id == t.rows[l].id ==> k == l)
  }

  /**
   * Exactly one index row per live row and map that lists it, carrying the number the map gives it, the
   * identifier of the live row and the live row's link; and nothing else.
   */
  ghost predicate Agrees<L, D>(t: Table<L, D>, maps: MapSet, role: Role) {
    AllRight(t, maps, role) && NoneTwice(t) && NoneMissing(t, maps, role) && Numbered(t)
  }

  // ----- Insertion -----

  /** Agreement except that the slot `key` has been entered for the first `n` maps only. */
  ghost predicate AgreesUpTo<L, D>(t: Table<L, D>, maps: MapSet, role: Role, key: Key, n: nat)
    requires n <= |maps.keys|
  {
    && AllRight(t, maps, role) && NoneTwice(t) && Numbered(t)
    && (forall k, router :: k in t.rows && Listed(maps, role, router, k) && (k == key ==> router in maps.keys[..n]) ==>
          HasRow(t, router, k))
    && (forall i :: i in t.index && t.index[i].key == key ==> t.index[i].router in maps.keys[..n])
  }

  lemma RowEntered<L, D>(t: Table<L, D>, maps: MapSet, role: Role, key: Key, link: L, data: D)
    requires Agrees(t, maps, role) && key !in t.rows
    ensures AgreesUpTo(WithRow(t, key, link, data), maps, role, key, 0)
  {
    hide NumberIn, Listed, NoneTwice;
    var u := WithRow(t, key, link, data);
    assert NoneTwice(u) by {
      PlacesKept(t, u);
    }
    forall i | i in u.index
      ensures RowRight(u, maps, role, u.index[i]) && u.index[i].key != key
    {
      assert RowRight(t, maps, role, t.index[i]);
    }
    assert forall k, router :: HasRow(t, router, k) ==> HasRow(u, router, k);
  }

  lemma MapVisited<L, D>(t: Table<L, D>, maps: MapSet, role: Role, key: Key, n: nat)
    requires maps.Valid() && n < |maps.keys| && key in t.rows && AgreesUpTo(t, maps, role, key, n)
    ensures AgreesUpTo(WithIndexRow(t, maps.byNumber[maps.keys[n]], role, key, t.rows[key].id, t.rows[key].link),
                       maps, role, key, n + 1)
  {
    hide AllRight, HasRow, Listed, NoneTwice, NumberIn;
    assert maps.byNumber[maps.keys[n]].number == maps.keys[n];
    var u := WithIndexRow(t, maps.byNumber[maps.keys[n]], role, key, t.rows[key].id, t.rows[key].link);
    assert maps.keys[..n + 1] == maps.keys[..n] + [maps.keys[n]];
    VisitRight(t, u, maps, role, key, n);
    VisitMissesNone(t, u, maps, role, key, n);
    VisitNoneTwice(t, u, maps, role, key, n);
  }

  lemma VisitRight<L, D>(t: Table<L, D>, u: Table<L, D>, maps: MapSet, role: Role, key: Key, n: nat)
    requires maps.Valid() && n < |maps.keys| && key in t.rows && AllRight(t, maps, role) && Numbered(t)
    requires u == WithIndexRow(t, maps.byNumber[maps.keys[n]], role, key, t.rows[key].id, t.rows[key].link)
    ensures AllRight(u, maps, role)
  {
    hide NumberIn;
    assert maps.byNumber[maps.keys[n]].number == maps.keys[n];
    forall i | i in u.index
      ensures RowRight(u, maps, role, u.index[i])
    {
      assert i in t.index ==> RowRight(t, maps, role, t.index[i]);
    }
  }

  lemma VisitNoneTwice<L, D>(t: Table<L, D>, u: Table<L, D>, maps: MapSet, role: Role, key: Key, n: nat)
    requires maps.Valid() && n < |maps.keys| && key in t.rows && NoneTwice(t)
    requires forall i :: i in t.index && t.index[i].key == key ==> t.index[i].router in maps.keys[..n]
    requires u == WithIndexRow(t, maps.byNumber[maps.keys[n]], role, key, t.rows[key].id, t.rows[key].link)
    ensures NoneTwice(u)
  {
  }

  lemma VisitMissesNone<L, D>(t: Table<L, D>, u: Table<L, D>, maps: MapSet, role: Role, key: Key, n: nat)
    requires maps.Valid() && n < |maps.keys| && key in t.rows && AgreesUpTo(t, maps, role, key, n)
    requires u == WithIndexRow(t, maps.byNumber[maps.keys[n]], role, key, t.rows[key].id, t.rows[key].link)
    ensures forall k, router ::
              k in u.rows && Listed(maps, role, router, k) && (k == key ==> router in maps.keys[..n + 1]) ==>
                HasRow(u, router, k)
  {
    hide AllRight, NoneTwice;
    assert maps.keys[..n + 1] == maps.keys[..n] + [maps.keys[n]];
    hide NumberIn;
    forall k, router | k in u.rows && Listed(maps, role, router, k) && (k == key ==> router in maps.keys[..n + 1])
      ensures HasRow(u, router, k)
    {
      if k == key && router == maps.keys[n] {
        assert t.nextIndex in u.index && u.index[t.nextIndex].key == key;
      } else {
        assert HasRow(t, router, k);
        var i :| i in t.index && t.index[i].router == router && t.index[i].key == k;
        assert i in u.index && u.index[i] == t.index[i];
      }
    }
  }

  lemma {:induction false} IndexedAgrees<L, D>(t: Table<L, D>, maps: MapSet, role: Role, key: Key, n: nat)
    requires maps.Valid() && n <= |maps.keys| && key in t.rows && AgreesUpTo(t, maps, role, key, 0)
    ensures var u := Indexed(t, maps, role, key, t.rows[key].id, t.rows[key].link, n);
            u.rows == t.rows && u.nextRow == t.nextRow && AgreesUpTo(u, maps, role, key, n)
  {
    hide AgreesUpTo;
    if n > 0 {
      IndexedAgrees(t, maps, role, key, n - 1);
      MapVisited(Indexed(t, maps, role, key, t.rows[key].id, t.rows[key].link, n - 1), maps, role, key, n - 1);
    }
  }

  lemma AllMapsVisited<L, D>(t: Table<L, D>, maps: MapSet, role: Role, key: Key)
    requires maps.Valid() && AgreesUpTo(t, maps, role, key, |maps.keys|)
    ensures Agrees(t, maps, role)
  {
  }

  lemma SlotAddedAgrees<L, D>(t: Table<L, D>, maps: MapSet, role: Role, key: Key, link: L, data: D)
    requires maps.Valid() && Agrees(t, maps, role) && key !in t.rows
    ensures Agrees(SlotAdded(t, maps, role, key, link, data), maps, role)
    ensures SlotAdded(t, maps, role, key, link, data).rows == t.rows[key := Row(t.nextRow, link, data)]
  {
    hide Agrees, AgreesUpTo, Indexed;
    var u := WithRow(t, key, link, data);
    RowEntered(t, maps, role, key, link, data);
    IndexedAgrees(u, maps, role, key, |maps.keys|);
    AllMapsVisited(Indexed(u, maps, role, key, t.nextRow, link, |maps.keys|), maps, role, key);
  }

  /** What a table holds for a host: one row per slot, with that slot's columns. */
  ghost predicate Holds<L, D>(t: Table<L, D>, host: IPv4Number, slots: seq<(L, D)>) {
    forall s: nat ::
      (Key(host, s) in t.rows <==> s < |slots|) &&
      (s < |slots| ==> t.rows[Key(host, s)].link == slots[s].0 && t.rows[Key(host, s)].data == slots[s].1)
  }

  ghost predicate SameElsewhere<L, D>(t: Table<L, D>, u: Table<L, D>, host: IPv4Number) {
    forall k: Key :: k.host != host ==> (k in t.rows <==> k in u.rows) && (k in t.rows ==> t.rows[k] == u.rows[k])
  }

  lemma {:induction false} HostAddedAgrees<L, D>(
      t: Table<L, D>, maps: MapSet, role: Role, host: IPv4Number, slots: seq<(L, D)>)
    requires maps.Valid() && Agrees(t, maps, role) && Holds(t, host, [])
    ensures Agrees(HostAdded(t, maps, role, host, slots), maps, role)
    ensures Holds(HostAdded(t, maps, role, host, slots), host, slots)
    ensures SameElsewhere(t, HostAdded(t, maps, role, host, slots), host)
    decreases |slots|
  {
    hide Agrees, SlotAdded;
    if slots != [] {
      var last := |slots| - 1;
      HostAddedAgrees(t, maps, role, host, slots[..last]);
      SlotAddedAgrees(HostAdded(t, maps, role, host, slots[..last]), maps, role, Key(host, last), slots[last].0,
                      slots[last].1);
    }
  }

  // ----- Removal and change -----

  /** Index rows that stay where they are keep being distinct. */
  lemma PlacesKept<L, D>(t: Table<L, D>, u: Table<L, D>)
    requires NoneTwice(t) && forall i :: i in u.index ==> i in t.index && SamePlace(u.index[i], t.index[i])
    ensures NoneTwice(u)
  {
  }

  lemma NumbersKept<L, D>(t: Table<L, D>, u: Table<L, D>)
    requires Numbered(t) && u.nextRow == t.nextRow && u.nextIndex == t.nextIndex
    requires forall k :: k in u.rows ==> k in t.rows && u.rows[k].id == t.rows[k].id
    requires forall i :: i in u.index ==> i in t.index
    ensures Numbered(u)
  {
  }

  lemma HostRemovedRight<L, D>(t: Table<L, D>, maps: MapSet, role: Role, host: IPv4Number)
    requires AllRight(t, maps, role)
    ensures AllRight(HostRemoved(t, host), maps, role)
  {
  }

  lemma HostRemovedMissesNone<L, D>(t: Table<L, D>, maps: MapSet, role: Role, host: IPv4Number)
    requires NoneMissing(t, maps, role)
    ensures NoneMissing(HostRemoved(t, host), maps, role)
  {
    hide Listed;
    var u := HostRemoved(t, host);
    forall k, router | k in u.rows && Listed(maps, role, router, k)
      ensures HasRow(u, router, k)
    {
      assert HasRow(t, router, k);
      var i :| i in t.index && t.index[i].router == router && t.index[i].key == k;
      assert i in u.index;
    }
  }

  lemma HostRemovedAgrees<L, D>(t: Table<L, D>, maps: MapSet, role: Role, host: IPv4Number)
    requires Agrees(t, maps, role)
    ensures Agrees(HostRemoved(t, host), maps, role)
    ensures Holds(HostRemoved(t, host), host, [])
    ensures SameElsewhere(t, HostRemoved(t, host), host)
    ensures forall i :: i in HostRemoved(t, host).index ==> HostRemoved(t, host).index[i].key.host != host
  {
    hide AllRight, NoneMissing, NoneTwice, Numbered;
    HostRemovedRight(t, maps, role, host);
    HostRemovedMissesNone(t, maps, role, host);
    PlacesKept(t, HostRemoved(t, host));
    NumbersKept(t, HostRemoved(t, host));
  }

  lemma DataChangedRight<L, D>(t: Table<L, D>, maps: MapSet, role: Role, key: Key, data: D)
    requires AllRight(t, maps, role) && NoneMissing(t, maps, role)
    ensures AllRight(DataChanged(t, key, data), maps, role) && NoneMissing(DataChanged(t, key, data), maps, role)
  {
  }

  lemma DataChangedAgrees<L, D>(t: Table<L, D>, maps: MapSet, role: Role, key: Key, data: D)
    requires Agrees(t, maps, role)
    ensures Agrees(DataChanged(t, key, data), maps, role)
  {
    hide AllRight, NoneMissing, NoneTwice, Numbered;
    DataChangedRight(t, maps, role, key, data);
    PlacesKept(t, DataChanged(t, key, data));
    NumbersKept(t, DataChanged(t, key, data));
  }

  lemma LinkChangedRight<L, D>(t: Table<L, D>, maps: MapSet, role: Role, key: Key, link: L)
    requires AllRight(t, maps, role)
    ensures AllRight(LinkChanged(t, key, link), maps, role)
  {
  }

  lemma LinkChangedMissesNone<L, D>(t: Table<L, D>, maps: MapSet, role: Role, key: Key, link: L)
    requires NoneMissing(t, maps, role)
    ensures NoneMissing(LinkChanged(t, key, link), maps, role)
  {
    hide Listed;
    var u := LinkChanged(t, key, link);
    forall k, router | k in u.rows && Listed(maps, role, router, k)
      ensures HasRow(u, router, k)
    {
      assert HasRow(t, router, k);
      var i :| i in t.index && t.index[i].router == router && t.index[i].key == k;
      assert i in u.index && u.index[i].key == k;
    }
  }

  lemma LinkChangedAgrees<L, D>(t: Table<L, D>, maps: MapSet, role: Role, key: Key, link: L)
    requires Agrees(t, maps, role)
    ensures Agrees(LinkChanged(t, key, link), maps, role)
  {
    hide AllRight, NoneMissing, NoneTwice, Numbered;
    LinkChangedRight(t, maps, role, key, link);
    LinkChangedMissesNone(t, maps, role, key, link);
    PlacesKept(t, LinkChanged(t, key, link));
    NumbersKept(t, LinkChanged(t, key, link));
  }
}
