/** The Software Authority protocol handler: routes, snapshots and listings. */
module ProtocolSa {
  import opened Addresses
  import opened Text
  import opened EndPointMaps
  import opened RoutingTables
  import opened Ipc
  import opened RouteStat
  import opened RouteService

  // ----- Snapshots -----

  /** The unchecked lower bounds: outputs are written from 1, inputs from 0 (OFF). */
  predicate Bounded(routes: seq<Route>) {
    forall i :: 0 <= i < |routes| ==> routes[i].output >= 1 && routes[i].input >= 0
  }

  function SnapshotCommands(maps: MapSet, router: int, routes: seq<Route>): seq<Command>
    requires Bounded(routes)
  {
    if routes == [] then []
    else
      var r := routes[|routes| - 1];
      SnapshotCommands(maps, router, routes[..|routes| - 1]) + RouteCommands(maps, router, r.output - 1, r.input)
  }

  function SnapshotEvents(router: int, routes: seq<Route>): seq<RouteEvent>
    requires Bounded(routes)
  {
    if routes == [] then []
    else
      var r := routes[|routes| - 1];
      SnapshotEvents(router, routes[..|routes| - 1]) + [RouteEvent(router, r.output - 1, r.input - 1)]
  }

  /** A snapshot logs each of its routes once, in order, whether it can be carried out or not. */
  lemma {:induction false} EachRouteIsLogged(router: int, routes: seq<Route>, i: nat)
    requires Bounded(routes) && i < |routes|
    ensures |SnapshotEvents(router, routes)| == |routes|
    ensures SnapshotEvents(router, routes)[i] == RouteEvent(router, routes[i].output - 1, routes[i].input - 1)
    decreases |routes|
  {
    var n := |routes| - 1;
    if n > 0 {
      EachRouteIsLogged(router, routes[..n], if i < n then i else 0);
    }
  }

  function SnapshotNamed(snapshots: seq<Snapshot>, name: string): Option<Snapshot> {
    if snapshots == [] then None
    else if snapshots[0].name == name then Some(snapshots[0])
    else SnapshotNamed(snapshots[1..], name)
  }

  lemma {:induction false} SnapshotNamedIsFirst(snapshots: seq<Snapshot>, name: string)
    ensures SnapshotNamed(snapshots, name).None? <==> forall i :: 0 <= i < |snapshots| ==> snapshots[i].name != name
    ensures SnapshotNamed(snapshots, name).Some? ==>
              exists i :: 0 <= i < |snapshots| && snapshots[i] == SnapshotNamed(snapshots, name).value
                          && snapshots[i].name == name && forall j :: 0 <= j < i ==> snapshots[j].name != name
    decreases |snapshots|
  {
    if snapshots != [] {
      SnapshotNamedIsFirst(snapshots[1..], name);
      if snapshots[0].name != name && SnapshotNamed(snapshots, name).Some? {
        var i :| 0 <= i < |snapshots[1..]| && snapshots[1..][i] == SnapshotNamed(snapshots, name).value
                 && snapshots[1..][i].name == name && forall j :: 0 <= j < i ==> snapshots[1..][j].name != name;
        assert snapshots[i + 1] == SnapshotNamed(snapshots, name).value;
        forall j | 0 <= j < i + 1
          ensures snapshots[j].name != name
        {
          assert j > 0 ==> snapshots[j] == snapshots[1..][j - 1];
        }
      }
    }
  }

  // ----- The handler -----

  datatype Reply = NoSuchBay | SnapshotInitiated | Stat(line: Line)

  datatype Logged = RouteLogged(event: RouteEvent) | SnapLogged(router: int, name: string)

  function RoutesLogged(events: seq<RouteEvent>): seq<Logged> {
    seq(|events|, i requires 0 <= i < |events| => RouteLogged(events[i]))
  }

  function Stats(lines: seq<Line>): seq<Reply> {
    seq(|lines|, i requires 0 <= i < |lines| => Stat(lines[i]))
  }

  class ProtocolSa {
    const maps: MapSet
    var requests: seq<Command>
    var log: seq<Logged>
    var replies: seq<Reply>

    method ActivateRoute(router: int, output: nat, input: nat)
      modifies `requests, `log
      ensures requests == old(requests) + RouteCommands(maps, router, output, input)
      ensures log == old(log) + [RouteLogged(RouteEvent(router, output, input - 1))]
    {
      log := log + [RouteLogged(RouteEvent(router, output, input - 1))];
      if router in maps.byNumber {
        var routerMap := maps.byNumber[router];
        var dstAddr := routerMap.HostAt(Output, output);
        var dstSlot := routerMap.SlotAt(Output, output);
        if dstAddr != Null && dstSlot >= 0 {
          if input == 0 {
            match routerMap.kind {
              case AudioRouter => requests := requests + [ClearCrosspoint(dstAddr, dstSlot)];
              case GpioRouter => requests := requests + [ClearGpioCrosspoint(dstAddr, dstSlot)];
            }
          } else {
            var srcAddr := routerMap.HostAt(Input, input - 1);
            var srcSlot := routerMap.SlotAt(Input, input - 1);
            if srcAddr != Null && srcSlot >= 0 {
              match routerMap.kind {
                case AudioRouter => requests := requests + [SetCrosspoint(dstAddr, dstSlot, srcAddr, srcSlot)];
                case GpioRouter => requests := requests + [SetGpioCrosspoint(dstAddr, dstSlot, srcAddr, srcSlot)];
              }
            }
          }
        }
      }
    }

    method ActivateSnapshot(router: int, name: string)
      requires router in maps.byNumber && SnapshotNamed(maps.byNumber[router].snapshots, name).Some? ==>
                 Bounded(SnapshotNamed(maps.byNumber[router].snapshots, name).value.routes)
      modifies this
      ensures router !in maps.byNumber ==>
                requests == old(requests) && log == old(log) && replies == old(replies) + [NoSuchBay]
      ensures router in maps.byNumber ==> replies == old(replies) + [SnapshotInitiated]
      ensures router in maps.byNumber && SnapshotNamed(maps.byNumber[router].snapshots, name).None? ==>
                requests == old(requests) && log == old(log)
      ensures router in maps.byNumber && SnapshotNamed(maps.byNumber[router].snapshots, name).Some? ==>
                var routes := SnapshotNamed(maps.byNumber[router].snapshots, name).value.routes;
                && requests == old(requests) + SnapshotCommands(maps, router, routes)
                && log == old(log) + [SnapLogged(router, name)] + RoutesLogged(SnapshotEvents(router, routes))
    {
      if router !in maps.byNumber {
        replies := replies + [NoSuchBay];
        return;
      }
      replies := replies + [SnapshotInitiated];
      var found := SnapshotNamed(maps.byNumber[router].snapshots, name);
      if found.Some? {
        hide SnapshotNamed, SnapshotCommands, SnapshotEvents, RoutesLogged;
        log := log + [SnapLogged(router, name)];
        ActivateRoutes(router, found.value.routes);
      }
    }

    method ActivateRoutes(router: int, routes: seq<Route>)
      requires Bounded(routes)
      modifies `requests, `log
      ensures requests == old(requests) + SnapshotCommands(maps, router, routes)
      ensures log == old(log) + RoutesLogged(SnapshotEvents(router, routes))
    {
      hide RouteCommands;
      for i := 0 to |routes|
        invariant requests == old(requests) + SnapshotCommands(maps, router, routes[..i])
        invariant log == old(log) + RoutesLogged(SnapshotEvents(router, routes[..i]))
      {
        ActivateRoute(router, routes[i].output - 1, routes[i].input);
        assert routes[..i + 1][..i] == routes[..i];
      }
      assert routes[..|routes|] == routes;
    }

    /** List the crosspoints from the answer `q` of the query; a negative output asks for all of them. */
    method SendRouteInfo(router: int, output: int, q: seq<RouteRow>)
      modifies `replies
      ensures router !in maps.byNumber ==> replies == old(replies) + [NoSuchBay]
      ensures router in maps.byNumber && output < 0 ==>
                replies == old(replies) + Stats(CursorLines(router, q, 0, 0, maps.byNumber[router].Quantity(Output)))
      ensures router in maps.byNumber && 0 <= output < maps.byNumber[router].Quantity(Output) ==>
                replies == old(replies) + [Stat(OneLine(router, q, output))]
      ensures router in maps.byNumber && maps.byNumber[router].Quantity(Output) <= output ==> replies == old(replies)
    {
      if router !in maps.byNumber {
        replies := replies + [NoSuchBay];
        return;
      }
      var quantity := maps.byNumber[router].Quantity(Output);
      if output < 0 {
        var pos := 0;
        ghost var all := CursorLines(router, q, 0, 0, quantity);
        OneLinePerOutput(router, q, 0, 0, quantity);
        for i := 0 to quantity
          invariant pos <= |q| && |all| == quantity && |replies| == |old(replies)| + i
          invariant all[i..] == CursorLines(router, q, pos, i, quantity)
          invariant replies == old(replies) + Stats(all[..i])
        {
          assert all[i..][1..] == all[i + 1..] && all[i] == all[i..][0];
          if pos < |q| && q[pos].output == i {
            replies := replies + [Stat(RowLine(router, q[pos]))];
            pos := pos + 1;
          } else {
            replies := replies + [Stat(OffLine(router, i))];
          }
          assert Stats(all[..i + 1]) == Stats(all[..i]) + [Stat(all[i])];
        }
        assert all[..quantity] == all;
      } else if output < quantity {
        if q != [] {
          replies := replies + [Stat(RowLine(router, q[0]))];
        } else {
          replies := replies + [Stat(OffLine(router, output))];
        }
      }
    }
  }
}
