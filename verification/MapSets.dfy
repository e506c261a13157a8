/** Loading a directory of router maps, accepted only as a whole. */
module MapSets {
  import opened Addresses
  import opened EndPointMaps
  import opened MapRoundTrip
  import opened MapStorage
  import opened RoutingTables

  /** A file of the directory; `unused` are the lines that the profile reader could not place. */
  datatype MapFile = MapFile(readable: bool, lines: seq<Line>, unused: seq<string>)

  predicate SnapshotNamesDistinct(m: RouterMap) {
    forall i, j :: 0 <= i < j < |m.snapshots| ==> m.snapshots[i].name != m.snapshots[j].name
  }

  /** Routes count from one, yet their numbers must stay below the quantities: the last of each is out of reach. */
  predicate RoutesInRange(m: RouterMap) {
    forall i, k :: 0 <= i < |m.snapshots| && 0 <= k < |m.snapshots[i].routes| ==>
      RouteInRange(m, m.snapshots[i].routes[k])
  }

  predicate RouteInRange(m: RouterMap, r: Route) {
    r.output < m.Quantity(Output) && r.input < m.Quantity(Input)
  }

  predicate FileOk(f: MapFile) {
    f.unused == [] && SnapshotNamesDistinct(Loaded(f.lines)) && RoutesInRange(Loaded(f.lines))
  }

  predicate Compatible(m: RouterMap, n: RouterMap) {
    m.number != n.number && m.name != n.name
  }

  /** All readable files are good, and their maps differ in number and in name. */
  predicate Acceptable(files: seq<MapFile>) {
    && (forall i :: 0 <= i < |files| && files[i].readable ==> FileOk(files[i]))
    && (forall i, j :: 0 <= i < j < |files| && files[i].readable && files[j].readable ==>
          Compatible(Loaded(files[i].lines), Loaded(files[j].lines)))
  }

  /** The maps of the readable files, each under its number. */
  ghost predicate Collects(maps: MapSet, files: seq<MapFile>) {
    && maps.Valid()
    && (forall i :: 0 <= i < |files| && files[i].readable ==> Collected(maps, Loaded(files[i].lines)))
    && (forall k :: k in maps.byNumber ==> FromFile(files, maps.byNumber[k]))
  }

  predicate Collected(maps: MapSet, m: RouterMap) {
    m.number in maps.byNumber && maps.byNumber[m.number] == m
  }

  predicate FromFile(files: seq<MapFile>, m: RouterMap) {
    exists i :: 0 <= i < |files| && files[i].readable && Loaded(files[i].lines) == m
  }

  /** The keys are kept in ascending order. */
  function WithKey(keys: seq<int>, k: int): (more: seq<int>)
    ensures |more| == |keys| + 1 && forall j :: j in more <==> j == k || j in keys
  {
    if keys == [] || k < keys[0] then [k] + keys
    else
      var rest := WithKey(keys[1..], k);
      assert keys == [keys[0]] + keys[1..];
      [keys[0]] + rest
  }

  predicate Distinct(keys: seq<int>) {
    forall i, j :: 0 <= i < j < |keys| ==> keys[i] != keys[j]
  }

  lemma {:induction false} WithKeyDistinct(keys: seq<int>, k: int)
    requires Distinct(keys) && k !in keys
    ensures Distinct(WithKey(keys, k))
  {
    if keys != [] && k >= keys[0] {
      WithKeyDistinct(keys[1..], k);
      var rest := WithKey(keys[1..], k);
      assert keys[0] !in keys[1..];
      assert keys[0] !in rest;
      forall i, j | 0 <= i < j < |rest| + 1
        ensures ([keys[0]] + rest)[i] != ([keys[0]] + rest)[j]
      {
        assert rest[j - 1] in rest;
      }
    }
  }

  method SnapshotsGood(m: RouterMap) returns (ok: bool)
    ensures ok == (SnapshotNamesDistinct(m) && RoutesInRange(m))
  {
    for j := 0 to |m.snapshots|
      invariant forall i, k :: 0 <= i < j && i < k < |m.snapshots| ==> m.snapshots[i].name != m.snapshots[k].name
      invariant forall i, k :: 0 <= i < j && 0 <= k < |m.snapshots[i].routes| ==>
                  RouteInRange(m, m.snapshots[i].routes[k])
    {
      for k := j + 1 to |m.snapshots|
        invariant forall l :: j < l < k ==> m.snapshots[j].name != m.snapshots[l].name
      {
        if m.snapshots[j].name == m.snapshots[k].name {
          return false;
        }
      }
      var routes := m.snapshots[j].routes;
      for k := 0 to |routes|
        invariant forall l :: 0 <= l < k ==> RouteInRange(m, routes[l])
      {
        if routes[k].output >= m.Quantity(Output) || routes[k].input >= m.Quantity(Input) {
          assert !RouteInRange(m, m.snapshots[j].routes[k]);
          return false;
        }
      }
    }
    return true;
  }

  ghost predicate CompatibleWithAll(maps: MapSet, m: RouterMap) {
    forall k :: k in maps.byNumber ==> Compatible(maps.byNumber[k], m)
  }

  method NewNumberAndName(maps: MapSet, m: RouterMap) returns (ok: bool)
    requires maps.Valid()
    ensures ok == CompatibleWithAll(maps, m)
  {
    for i := 0 to |maps.keys|
      invariant forall l :: 0 <= l < i ==> Compatible(maps.byNumber[maps.keys[l]], m)
    {
      var it := maps.byNumber[maps.keys[i]];
      if maps.keys[i] == m.number || it.name == m.name {
        assert !Compatible(maps.byNumber[maps.keys[i]], m);
        return false;
      }
    }
    return true;
  }

  lemma AddedIsValid(maps: MapSet, m: RouterMap)
    requires maps.Valid() && CompatibleWithAll(maps, m)
    ensures m.number !in maps.byNumber
    ensures MapSet(WithKey(maps.keys, m.number), maps.byNumber[m.number := m]).Valid()
  {
    var more := MapSet(WithKey(maps.keys, m.number), maps.byNumber[m.number := m]);
    assert forall k :: k in maps.byNumber ==> Compatible(maps.byNumber[k], m) && maps.byNumber[k].number == k;
    forall i | 0 <= i < |maps.keys|
      ensures maps.keys[i] != m.number
    {
      assert maps.keys[i] in maps.byNumber;
    }
    WithKeyDistinct(maps.keys, m.number);
    hide WithKey;
    forall i | 0 <= i < |more.keys|
      ensures more.keys[i] in more.byNumber
    {
      assert more.keys[i] in more.keys;
    }
    assert Distinct(more.keys);
  }

  lemma MapAdded(maps: MapSet, files: seq<MapFile>, f: MapFile)
    requires Collects(maps, files) && f.readable && CompatibleWithAll(maps, Loaded(f.lines))
    ensures var m := Loaded(f.lines);
            Collects(MapSet(WithKey(maps.keys, m.number), maps.byNumber[m.number := m]), files + [f])
  {
    hide Loaded;
    var m, all := Loaded(f.lines), files + [f];
    AddedIsValid(maps, m);
    hide WithKey, CompatibleWithAll, Compatible;
    var more := MapSet(WithKey(maps.keys, m.number), maps.byNumber[m.number := m]);
    assert all[|files|] == f && FromFile(all, m);
    forall k | k in more.byNumber
      ensures FromFile(all, more.byNumber[k])
    {
      if k != m.number {
        assert FromFile(files, maps.byNumber[k]);
        var i :| 0 <= i < |files| && files[i].readable && Loaded(files[i].lines) == maps.byNumber[k];
        assert all[i] == files[i];
      }
    }
    forall i | 0 <= i < |all| && all[i].readable
      ensures Collected(more, Loaded(all[i].lines))
    {
      if i < |files| {
        assert Collected(maps, Loaded(files[i].lines));
      }
    }
  }

  /** One readable file more is acceptable exactly when it is good and differs from all collected maps. */
  lemma AcceptableMore(maps: MapSet, files: seq<MapFile>, f: MapFile)
    requires Collects(maps, files) && Acceptable(files) && f.readable
    ensures Acceptable(files + [f]) <==> FileOk(f) && CompatibleWithAll(maps, Loaded(f.lines))
  {
    hide Loaded, FileOk;
    var all := files + [f];
    assert all[|files|] == f && forall i :: 0 <= i < |files| ==> all[i] == files[i];
    if Acceptable(all) {
      forall k | k in maps.byNumber
        ensures Compatible(maps.byNumber[k], Loaded(f.lines))
      {
        assert FromFile(files, maps.byNumber[k]);
        var i :| 0 <= i < |files| && files[i].readable && Loaded(files[i].lines) == maps.byNumber[k];
        assert Compatible(Loaded(all[i].lines), Loaded(all[|files|].lines));
      }
    }
    if FileOk(f) && CompatibleWithAll(maps, Loaded(f.lines)) {
      forall i, j | 0 <= i < j < |all| && all[i].readable && all[j].readable
        ensures Compatible(Loaded(all[i].lines), Loaded(all[j].lines))
      {
        assert Collected(maps, Loaded(all[i].lines));
      }
    }
  }

  lemma SkippedFile(maps: MapSet, files: seq<MapFile>, f: MapFile)
    requires Collects(maps, files) && Acceptable(files) && !f.readable
    ensures Collects(maps, files + [f]) && Acceptable(files + [f])
  {
    hide Loaded, FileOk;
    var all := files + [f];
    forall k | k in maps.byNumber
      ensures FromFile(all, maps.byNumber[k])
    {
      assert FromFile(files, maps.byNumber[k]);
      var i :| 0 <= i < |files| && files[i].readable && Loaded(files[i].lines) == maps.byNumber[k];
      assert all[i] == files[i];
    }
  }

  lemma StaysUnacceptable(files: seq<MapFile>, n: nat)
    requires n <= |files| && !Acceptable(files[..n])
    ensures !Acceptable(files)
  {
  }

  method LoadSet(files: seq<MapFile>) returns (ok: bool, maps: MapSet)
    ensures ok == Acceptable(files)
    ensures ok ==> Collects(maps, files)
    ensures maps.Valid()
  {
    hide Loaded, FileOk, Acceptable, Collects, WithKey, SnapshotNamesDistinct, RoutesInRange;
    maps := MapSet([], map[]);
    NothingCollected();
    for i := 0 to |files|
      invariant Collects(maps, files[..i]) && Acceptable(files[..i]) && maps.Valid()
    {
      assert files[..i + 1] == files[..i] + [files[i]];
      ok := true;
      if files[i].readable {
        var routerMap := new EndPointMap();
        Load(routerMap, files[i].lines);
        var m := routerMap.Value();
        AcceptableMore(maps, files[..i], files[i]);
        ok := MapGood(maps, files[i], m);
        if ok {
          MapAdded(maps, files[..i], files[i]);
          maps := MapSet(WithKey(maps.keys, m.number), maps.byNumber[m.number := m]);
          CollectsIsValid(maps, files[..i + 1]);
        }
      } else {
        SkippedFile(maps, files[..i], files[i]);
      }
      if !ok {
        StaysUnacceptable(files, i + 1);
        return false, maps;
      }
    }
    assert files[..|files|] == files;
    return true, maps;
  }

  method MapGood(maps: MapSet, f: MapFile, m: RouterMap) returns (ok: bool)
    requires maps.Valid() && m == Loaded(f.lines)
    ensures ok == (FileOk(f) && CompatibleWithAll(maps, m))
  {
    if |f.unused| > 0 {
      return false;
    }
    ok := SnapshotsGood(m);
    if ok {
      ok := NewNumberAndName(maps, m);
    }
  }

  lemma NothingCollected()
    ensures Collects(MapSet([], map[]), []) && Acceptable([])
  {
  }

  lemma CollectsIsValid(maps: MapSet, files: seq<MapFile>)
    requires Collects(maps, files)
    ensures maps.Valid()
  {
  }

  // ----- Routes that are refused although they name existing entries -----

  /** Outputs count from 1, inputs too, and input 0 is OFF. */
  predicate RoutesExist(m: RouterMap) {
    forall i, k :: 0 <= i < |m.snapshots| && 0 <= k < |m.snapshots[i].routes| ==>
      RouteExists(m, m.snapshots[i].routes[k])
  }

  predicate RouteExists(m: RouterMap, r: Route) {
    1 <= r.output <= m.Quantity(Output) && 0 <= r.input <= m.Quantity(Input)
  }

  /** The last output or the last input; on a router without inputs OFF counts as the last one. */
  predicate NamesLast(m: RouterMap, r: Route) {
    r.output == m.Quantity(Output) || r.input == m.Quantity(Input)
  }

  predicate NoneNamesLast(m: RouterMap) {
    forall i, k :: 0 <= i < |m.snapshots| && 0 <= k < |m.snapshots[i].routes| ==>
      !NamesLast(m, m.snapshots[i].routes[k])
  }

  /** Of the maps whose routes all name existing entries, those are refused that name a last one. */
  lemma RangeLeavesOutLast(m: RouterMap)
    requires RoutesExist(m)
    ensures RoutesInRange(m) <==> NoneNamesLast(m)
  {
    forall i, k | 0 <= i < |m.snapshots| && 0 <= k < |m.snapshots[i].routes|
      ensures RouteInRange(m, m.snapshots[i].routes[k]) <==> !NamesLast(m, m.snapshots[i].routes[k])
    {
      assert RouteExists(m, m.snapshots[i].routes[k]);
    }
  }

  function FileOf(m: RouterMap): MapFile {
    MapFile(true, Saved(m, true), [])
  }

  /** A single saved map is accepted exactly when its own snapshots are. */
  lemma SavedMapAccepted(m: RouterMap)
    requires Storable(m)
    ensures Acceptable([FileOf(m)]) <==> SnapshotNamesDistinct(m) && RoutesInRange(m)
  {
    hide Loaded, Saved, Storable, SnapshotNamesDistinct, RoutesInRange, RestoredEnds;
    SavedLoadsBack(m, true);
    RestoredCounts(m);
    SameSnapshots(m, Restored(m, true));
    hide Restored;
    assert [FileOf(m)][0] == FileOf(m);
  }

  lemma RestoredCounts(m: RouterMap)
    ensures var r := Restored(m, true);
            r.snapshots == m.snapshots && |r.inputs| == |m.inputs| && |r.outputs| == |m.outputs|
  {
  }

  lemma SameSnapshots(m: RouterMap, r: RouterMap)
    requires r.snapshots == m.snapshots && |r.inputs| == |m.inputs| && |r.outputs| == |m.outputs|
    ensures RoutesInRange(r) <==> RoutesInRange(m)
    ensures SnapshotNamesDistinct(r) <==> SnapshotNamesDistinct(m)
  {
    forall i, k | 0 <= i < |m.snapshots| && 0 <= k < |m.snapshots[i].routes|
      ensures RouteInRange(r, m.snapshots[i].routes[k]) <==> RouteInRange(m, m.snapshots[i].routes[k])
    {
    }
  }

  const ONE_END := [EndPoint(IPv4(1), 0, "", true)]
  const TWO_ENDS := [EndPoint(IPv4(1), 0, "", true), EndPoint(IPv4(1), 1, "", true)]

  /** A router with two inputs and one output, whose snapshot connects the one to the other. */
  const ONE_OUTPUT := RouterMap(AudioRouter, "A", 0, TWO_ENDS, ONE_END, [Snapshot("On", [Route(1, 1)])])

  /** A router with two outputs and nothing to connect them to, whose snapshot turns one off. */
  const NO_INPUTS := RouterMap(AudioRouter, "B", 1, [], TWO_ENDS, [Snapshot("Off", [Route(1, 0)])])

  lemma LastIsRefused(m: RouterMap)
    requires Storable(m) && RoutesExist(m) && |m.snapshots| == 1 && |m.snapshots[0].routes| == 1
    requires NamesLast(m, m.snapshots[0].routes[0])
    ensures !Acceptable([FileOf(m)]) && Acceptable([FileOf(m.(snapshots := []))])
  {
    RangeLeavesOutLast(m);
    var bare := m.(snapshots := []);
    assert Storable(bare) && SnapshotNamesDistinct(bare) && RoutesInRange(bare);
    hide Acceptable, FileOf, Storable, RoutesInRange, SnapshotNamesDistinct, RoutesExist, NamesLast;
    SavedMapAccepted(m);
    SavedMapAccepted(bare);
  }

  /** The first is refused for naming its last output, the second for OFF; without their snapshots both are accepted. */
  lemma RefusedForLastOnly()
    ensures RoutesExist(ONE_OUTPUT) && ONE_OUTPUT.snapshots[0].routes[0].input != ONE_OUTPUT.Quantity(Input)
    ensures RoutesExist(NO_INPUTS) && NO_INPUTS.snapshots[0].routes[0].output != NO_INPUTS.Quantity(Output)
    ensures !Acceptable([FileOf(ONE_OUTPUT)]) && Acceptable([FileOf(ONE_OUTPUT.(snapshots := []))])
    ensures !Acceptable([FileOf(NO_INPUTS)]) && Acceptable([FileOf(NO_INPUTS.(snapshots := []))])
  {
    hide Acceptable, FileOf;
    LastIsRefused(ONE_OUTPUT);
    LastIsRefused(NO_INPUTS);
  }
}
