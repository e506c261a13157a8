/** The core: it keeps the database in step with the matrices and forwards requests to them. */
module Core {
  import opened Addresses
  import opened Text
  import opened RoutingTables
  import opened RoutingDatabase
  import opened Ipc
  import opened Lines

  /** What the core tells a matrix to do. */
  datatype MatrixCall =
    | SetDestination(host: IPv4Number, slot: nat, stream: HostAddress)
    | SetGpo(host: IPv4Number, slot: nat, link: GpoLink)
    | SetGpiCode(host: IPv4Number, slot: nat, code: string)
    | SetGpoCode(host: IPv4Number, slot: nat, code: string)

  type Matrices = map<IPv4Number, MatrixImage>

  function CallsFor(matrices: Matrices, c: Command): seq<MatrixCall> {
    var h := Number(c.host);
    if h !in matrices || c.slot < 0 then []
    else
      var m := matrices[h];
      match c
      case ClearCrosspoint(_, s) =>
        if s < |m.destinations| then [SetDestination(h, s, NULL_STREAM_ADDRESS)] else []
      case ClearGpioCrosspoint(_, s) =>
        if s < |m.gpos| then [SetGpo(h, s, NO_GPI)] else []
      case SetCrosspoint(_, s, source, r) =>
        var g := Number(source);
        if s < |m.destinations| && g in matrices && 0 <= r < |matrices[g].sources|
        then [SetDestination(h, s, matrices[g].sources[r].stream)] else []
      case SetGpioCrosspoint(_, s, source, r) =>
        var g := Number(source);
        if s < |m.gpos| && g in matrices && 0 <= r < |matrices[g].gpis|
        then [SetGpo(h, s, GpoLink(IPv4(g), r))] else []
      case SetGpiState(_, s, code) =>
        if s < |m.gpis| then [SetGpiCode(h, s, code)] else []
      case SetGpoState(_, s, code) =>
        if s < |m.gpos| then [SetGpoCode(h, s, code)] else []
  }

  /** Only the active instance acts on a request. */
  function Forwarded(writeable: bool, matrices: Matrices, text: string): seq<MatrixCall> {
    if !writeable then []
    else
      match ParseCommand(text)
      case None => []
      case Some(c) => CallsFor(matrices, c)
  }

  function ForwardedAll(writeable: bool, matrices: Matrices, texts: seq<string>): seq<MatrixCall> {
    if texts == [] then []
    else ForwardedAll(writeable, matrices, texts[..|texts| - 1]) + Forwarded(writeable, matrices, texts[|texts| - 1])
  }

  lemma OneMoreRequest(writeable: bool, matrices: Matrices, texts: seq<string>, text: string)
    ensures ForwardedAll(writeable, matrices, texts + [text]) ==
            ForwardedAll(writeable, matrices, texts) + Forwarded(writeable, matrices, text)
  {
  }

  lemma NothingForwarded(writeable: bool, matrices: Matrices)
    ensures ForwardedAll(writeable, matrices, []) == []
  {
  }

  /** Insert the rows of one host into one table and its index. */
  method InsertRows<L, D>(t: Table<L, D>, maps: MapSet, role: Role, host: IPv4Number, slots: seq<(L, D)>)
    returns (u: Table<L, D>)
    requires maps.Loaded()
    ensures u == HostAdded(t, maps, role, host, slots)
  {
    u := t;
    for i := 0 to |slots|
      invariant u == HostAdded(t, maps, role, host, slots[..i])
    {
      ghost var before := u;
      var key, id, link, data := Key(host, i), u.nextRow, slots[i].0, slots[i].1;
      u := u.(rows := u.rows[key := Row(id, link, data)], nextRow := id + 1);
      ghost var entered := u;
      for j := 0 to |maps.keys|
        invariant u == Indexed(entered, maps, role, key, id, link, j)
      {
        var m := maps.byNumber[maps.keys[j]];
        if m.kind == role.kind {
          var endpt := m.NumberOf(role.end, IPv4(host), i);
          if endpt >= 0 {
            u := u.(index := u.index[u.nextIndex := IndexRow(m.number, endpt, id, link, key)],
                    nextIndex := u.nextIndex + 1);
          }
        }
      }
      assert u == SlotAdded(before, maps, role, key, link, data);
      assert slots[..i + 1][..i] == slots[..i];
    }
    assert slots[..|slots|] == slots;
  }

  class DRouter {
    const maps: MapSet
    var nodes: map<IPv4Number, NodeRow>
    var sources: Table<HostAddress, SourceData>
    var destinations: Table<HostAddress, DestinationData>
    var gpis: Table<(), GpiData>
    var gpos: Table<GpoLink, GpoData>
    var matrices: Matrices
    var writeable: bool
    var finalizing: bool
    var notices: seq<Notice>
    var calls: seq<MatrixCall>
    var accum: string

    ghost function Db(): Database
      reads this
    {
      Database(nodes, sources, destinations, gpis, gpos)
    }

    ghost predicate Valid()
      reads this
    {
      maps.Valid() && Sound(Db(), maps)
    }

    constructor (maps: MapSet)
      requires maps.Valid()
      ensures Valid() && Db() == EmptyDatabase() && !writeable && this.maps == maps
      ensures notices == [] && calls == [] && accum == ""
    {
      this.maps := maps;
      nodes, sources, destinations, gpis, gpos := map[], NoRows(), NoRows(), NoRows(), NoRows();
      matrices, writeable, finalizing := map[], false, false;
      notices, calls, accum := [], [], "";
    }

    method NodeConnected(id: IPv4Number, state: bool)
      requires Valid() && id in matrices && (state ==> id !in nodes)
      modifies `nodes, `sources, `destinations, `gpis, `gpos, `notices
      ensures Valid()
      ensures var e := if state then Connected(id, matrices[id]) else Disconnected(id);
              Db() == Handled(old(Db()), maps, e) && notices == old(notices) + Notices(old(Db()), e)
    {
      hide Sound, HostAdded, HostRemoved;
      HandledKeepsSound(Db(), maps, if state then Connected(id, matrices[id]) else Disconnected(id));
      if state {
        var mtx := matrices[id];
        nodes := nodes[id := mtx.Node()];
        sources := InsertRows(sources, maps, SOURCES, id, mtx.SourceSlots());
        destinations := InsertRows(destinations, maps, DESTINATIONS, id, mtx.DestinationSlots());
        gpis := InsertRows(gpis, maps, GPIS, id, mtx.GpiSlots());
        gpos := InsertRows(gpos, maps, GPOS, id, mtx.GpoSlots());
        notices := notices + [NodeAdd(IPv4(id))];
      } else {
        if id in nodes {
          var n := nodes[id];
          notices := notices + [NodeDel(IPv4(id), n.sources, n.destinations, n.gpis, n.gpos)];
        }
        sources := HostRemoved(sources, id);
        destinations := HostRemoved(destinations, id);
        gpis := HostRemoved(gpis, id);
        gpos := HostRemoved(gpos, id);
        nodes := map h | h in nodes && h != id :: nodes[h];
      }
    }

    method ChangeSource(id: IPv4Number, slot: nat, hostName: string, source: SourceImage)
      requires Valid()
      modifies `sources, `notices
      ensures Valid()
      ensures var e := SourceChanged(id, slot, hostName, source);
              Db() == Handled(old(Db()), maps, e) && notices == old(notices) + Notices(old(Db()), e)
    {
      hide Sound;
      HandledKeepsSound(Db(), maps, SourceChanged(id, slot, hostName, source));
      var key := Key(id, slot);
      sources := DataChanged(sources, key, SourceRow(hostName, source));
      sources := LinkChanged(sources, key, Normalized(source.stream));
      notices := notices + [TextSlot(Src, key)];
    }

    method ChangeDestination(id: IPv4Number, slot: nat, hostName: string, destination: DestinationImage)
      requires Valid()
      modifies `destinations, `notices
      ensures Valid()
      ensures var e := DestinationChanged(id, slot, hostName, destination);
              Db() == Handled(old(Db()), maps, e) && notices == old(notices) + Notices(old(Db()), e)
    {
      hide Sound;
      HandledKeepsSound(Db(), maps, DestinationChanged(id, slot, hostName, destination));
      var key := Key(id, slot);
      var crosspointChanged := key in destinations.rows && destinations.rows[key].link != destination.stream;
      destinations := DataChanged(destinations, key, DestinationRow(hostName, destination));
      destinations := LinkChanged(destinations, key, Normalized(destination.stream));
      if crosspointChanged {
        notices := notices + [TextSlot(DstX, key)];
      }
      notices := notices + [TextSlot(Dst, key)];
    }

    method ChangeGpi(id: IPv4Number, slot: nat, code: string)
      requires Valid()
      modifies `gpis, `notices
      ensures Valid()
      ensures var e := GpiChanged(id, slot, code);
              Db() == Handled(old(Db()), maps, e) && notices == old(notices) + Notices(old(Db()), e)
    {
      hide Sound;
      HandledKeepsSound(Db(), maps, GpiChanged(id, slot, code));
      var key := Key(id, slot);
      if key in gpis.rows {
        if Lower(gpis.rows[key].data.code) != Lower(code) {
          notices := notices + [TextSlot(GpiCode, key)];
        }
        gpis := DataChanged(gpis, key, gpis.rows[key].data.(code := Lower(code)));
      }
      notices := notices + [TextSlot(Gpi, key)];
    }

    method ChangeGpo(id: IPv4Number, slot: nat, code: string, name: string, link: GpoLink)
      requires Valid()
      modifies `gpos, `notices
      ensures Valid()
      ensures var e := GpoChanged(id, slot, code, name, link);
              Db() == Handled(old(Db()), maps, e) && notices == old(notices) + Notices(old(Db()), e)
    {
      hide Sound;
      HandledKeepsSound(Db(), maps, GpoChanged(id, slot, code, name, link));
      var key := Key(id, slot);
      var data := GpoData("", Lower(code), name);
      if key in gpos.rows {
        var row := gpos.rows[key];
        data := row.data.(code := Lower(code), name := name);
        if row.link != link {
          notices := notices + [TextSlot(GpoX, key)];
        }
        if Lower(row.data.code) != Lower(code) {
          notices := notices + [TextSlot(GpoCode, key)];
        }
      }
      gpos := LinkChanged(DataChanged(gpos, key, data), key, link);
      notices := notices + [TextSlot(Gpo, key)];
    }

    /** A repeated announcement of the same state changes nothing and notifies nobody. */
    method SetWriteable(state: bool)
      modifies `writeable, `finalizing, `notices
      ensures writeable == state
      ensures old(writeable) != state ==> finalizing == state && notices == old(notices) + [Notice.Tether(state)]
      ensures old(writeable) == state ==> finalizing == old(finalizing) && notices == old(notices)
    {
      if writeable != state {
        finalizing := state;
        writeable := state;
        notices := notices + [Notice.Tether(state)];
      }
    }

    method ProcessIpcCommand(text: string)
      modifies `calls
      ensures calls == old(calls) + Forwarded(writeable, matrices, text)
      ensures !writeable ==> calls == old(calls)
      ensures forall c :: Sendable(c) && text == PrintCommand(c) && writeable ==>
                calls == old(calls) + CallsFor(matrices, c)
    {
      forall c | Sendable(c) && text == PrintCommand(c)
        ensures ParseCommand(text) == Some(c)
      {
        CommandReadsBack(c);
      }
      hide CallsFor, ParseCommand, PrintCommand;
      if !writeable {
        return;
      }
      match ParseCommand(text) {
        case None =>
        case Some(c) => calls := calls + CallsFor(matrices, c);
      }
    }

    method IpcReadyRead(data: string)
      modifies `calls, `accum
      ensures var (rest, texts) := Fed(old(accum), data);
              accum == rest && calls == old(calls) + ForwardedAll(writeable, matrices, texts)
    {
      hide Fed, Forwarded, ForwardedAll;
      ghost var texts: seq<string> := [];
      NothingFed(accum);
      NothingForwarded(writeable, matrices);
      for i := 0 to |data|
        invariant Fed(old(accum), data[..i]) == (accum, texts)
        invariant calls == old(calls) + ForwardedAll(writeable, matrices, texts)
      {
        FedByte(old(accum), data[..i], data[i]);
        assert data[..i + 1] == data[..i] + [data[i]];
        match data[i] {
          case '\n' =>
          case '\r' =>
            OneMoreRequest(writeable, matrices, texts, accum);
            texts := texts + [accum];
            ProcessIpcCommand(accum);
            accum := "";
          case c => accum := accum + [c];
        }
      }
      assert data[..|data|] == data;
    }
  }
}
