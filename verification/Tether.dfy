/** One instance of the failover pair: the state it keeps about its peer and the slots that change it. */
module TetherInstance {
  import opened Addresses

  const BASE_INTERVAL: nat := 10000
  const WINDOW_INTERVAL: nat := 1000
  const RAND_MAX: nat := 0x7FFF_FFFF

  datatype Medium = Udp | Tty

  /** What an instance does to the shared service address when it changes state. */
  datatype AddressOp = Add | Del

  /** `windowOpen` tells which of the two single-shot timers runs: the window timer or the interval timer. */
  datatype Instance = Instance(active: bool, windowOpen: bool, udpState: char, ttyState: char) {
    function Record(m: Medium, c: char): Instance {
      if m == Udp then this.(udpState := c) else this.(ttyState := c)
    }

    predicate HearsActivePeer() {
      udpState == '+' || ttyState == '+'
    }
  }

  /** The one-byte answer to a query. */
  function Flag(active: bool): char {
    if active then '+' else '-'
  }

  /** The interval timer fires: forget what was heard, query on both media, open the window. */
  function Opened(i: Instance): Instance {
    Instance(i.active, true, '-', '-')
  }

  /** A byte arrives; the second component is what is written back on the same medium. */
  function Received(i: Instance, m: Medium, c: char): (Instance, seq<char>) {
    if i.windowOpen then
      if c == '?' then (i.(windowOpen := false), []) else (i.Record(m, c), [])
    else
      if c == '?' then (i, [Flag(i.active)]) else (i, [])
  }

  function ReceivedAll(i: Instance, m: Medium, bytes: seq<char>): (Instance, seq<char>) {
    if bytes == [] then (i, [])
    else
      var (before, written) := ReceivedAll(i, m, bytes[..|bytes| - 1]);
      var (after, reply) := Received(before, m, bytes[|bytes| - 1]);
      (after, written + reply)
  }

  lemma OneMoreByte(i: Instance, m: Medium, bytes: seq<char>, c: char)
    ensures var (before, written) := ReceivedAll(i, m, bytes);
            ReceivedAll(i, m, bytes + [c]) == (Received(before, m, c).0, written + Received(before, m, c).1)
  {
  }

  /** The window timer fires: take over unless the peer claims to be active, give way if it does. */
  function Expired(i: Instance): Instance {
    Instance(!i.HearsActivePeer(), false, i.udpState, i.ttyState)
  }

  /** The delay before the next window, from one raw random number. */
  function GetInterval(random: nat): (interval: nat)
    requires random <= RAND_MAX
    ensures interval <= BASE_INTERVAL
    ensures interval * RAND_MAX <= BASE_INTERVAL * random < (interval + 1) * RAND_MAX
  {
    assert BASE_INTERVAL * random <= BASE_INTERVAL * RAND_MAX;
    BASE_INTERVAL * random / RAND_MAX
  }

  /** The bytes of those datagrams that come from the configured peer. */
  function FromPeer(datagrams: seq<(HostAddress, char)>, peer: HostAddress): seq<char> {
    if datagrams == [] then []
    else
      FromPeer(datagrams[..|datagrams| - 1], peer) +
      (if datagrams[|datagrams| - 1].0 == peer then [datagrams[|datagrams| - 1].1] else [])
  }

  lemma NoDatagramYet(i: Instance, m: Medium, datagrams: seq<(HostAddress, char)>, peer: HostAddress)
    ensures ReceivedAll(i, m, FromPeer(datagrams[..0], peer)) == (i, [])
  {
  }

  lemma OneMoreDatagram(datagrams: seq<(HostAddress, char)>, peer: HostAddress, n: nat)
    requires n < |datagrams|
    ensures FromPeer(datagrams[..n + 1], peer) ==
            if datagrams[n].0 == peer then FromPeer(datagrams[..n], peer) + [datagrams[n].1]
            else FromPeer(datagrams[..n], peer)
  {
    assert datagrams[..n + 1][..n] == datagrams[..n];
  }

  class Tether {
    const peer: HostAddress
    var activeState: bool
    var udpState: char
    var ttyState: char
    var intervalTimer: bool
    var windowTimer: bool
    var udpWritten: seq<char>
    var ttyWritten: seq<char>
    var addressOps: seq<AddressOp>
    var stateSignals: seq<bool>

    /** Once started, exactly one of the two timers runs. */
    ghost predicate Valid()
      reads this
    {
      intervalTimer != windowTimer
    }

    ghost function State(): Instance
      reads this
    {
      Instance(activeState, windowTimer, udpState, ttyState)
    }

    constructor (peer: HostAddress)
      ensures !activeState && !intervalTimer && !windowTimer && this.peer == peer
      ensures udpWritten == ttyWritten == [] && addressOps == [] && stateSignals == []
    {
      this.peer := peer;
      activeState := false;
      intervalTimer, windowTimer := false, false;
      udpWritten, ttyWritten, addressOps, stateSignals := [], [], [], [];
    }

    /** Without tethering the instance is told to be active at once, and no timer ever runs. */
    method Start(activated: bool)
      requires !intervalTimer && !windowTimer
      modifies `intervalTimer, `stateSignals
      ensures activated ==> Valid() && !windowTimer && stateSignals == old(stateSignals)
      ensures !activated ==> !intervalTimer && stateSignals == old(stateSignals) + [true]
    {
      if !activated {
        stateSignals := stateSignals + [true];
        return;
      }
      intervalTimer := true;
    }

    method UdpReadyRead(datagrams: seq<(HostAddress, char)>)
      requires Valid()
      modifies `udpState, `intervalTimer, `windowTimer, `udpWritten
      ensures Valid()
      ensures var (after, written) := ReceivedAll(old(State()), Udp, FromPeer(datagrams, peer));
              State() == after && udpWritten == old(udpWritten) + written
    {
      hide ReceivedAll, FromPeer;
      NoDatagramYet(State(), Udp, datagrams, peer);
      for n := 0 to |datagrams|
        invariant Valid()
        invariant var (after, written) := ReceivedAll(old(State()), Udp, FromPeer(datagrams[..n], peer));
                  State() == after && udpWritten == old(udpWritten) + written
      {
        var (address, data) := datagrams[n];
        OneMoreDatagram(datagrams, peer, n);
        ghost var before, sent := State(), udpWritten;
        if address == peer {
          OneMoreByte(old(State()), Udp, FromPeer(datagrams[..n], peer), data);
          if windowTimer {
            if data == '?' {
              Backoff();
            } else {
              udpState := data;
            }
          } else if data == '?' {
            udpWritten := udpWritten + [if activeState then '+' else '-'];
          }
          assert State() == Received(before, Udp, data).0;
          assert udpWritten == sent + Received(before, Udp, data).1;
        }
      }
      assert datagrams[..|datagrams|] == datagrams;
    }

    method TtyReadyRead(bytes: seq<char>)
      requires Valid()
      modifies `ttyState, `intervalTimer, `windowTimer, `ttyWritten
      ensures Valid()
      ensures var (after, written) := ReceivedAll(old(State()), Tty, bytes);
              State() == after && ttyWritten == old(ttyWritten) + written
    {
      for n := 0 to |bytes|
        invariant Valid()
        invariant var (after, written) := ReceivedAll(old(State()), Tty, bytes[..n]);
                  State() == after && ttyWritten == old(ttyWritten) + written
      {
        hide ReceivedAll;
        var data := bytes[n];
        assert bytes[..n + 1] == bytes[..n] + [data];
        ghost var before, sent := State(), ttyWritten;
        OneMoreByte(old(State()), Tty, bytes[..n], data);
        if windowTimer {
          if data == '?' {
            Backoff();
          } else {
            ttyState := data;
          }
        } else if data == '?' {
          ttyWritten := ttyWritten + [if activeState then '+' else '-'];
        }
        assert State() == Received(before, Tty, data).0;
        assert ttyWritten == sent + Received(before, Tty, data).1;
      }
      assert bytes[..|bytes|] == bytes;
    }

    method IntervalTimeout()
      requires Valid() && intervalTimer
      modifies `udpState, `ttyState, `intervalTimer, `windowTimer, `udpWritten, `ttyWritten
      ensures Valid() && State() == Opened(old(State()))
      ensures udpWritten == old(udpWritten) + ['?'] && ttyWritten == old(ttyWritten) + ['?']
    {
      intervalTimer := false;
      udpState := '-';
      udpWritten := udpWritten + ['?'];
      ttyState := '-';
      ttyWritten := ttyWritten + ['?'];
      windowTimer := true;
    }

    /** A change of state moves the shared address and is signalled exactly once; otherwise nothing is emitted. */
    method WindowTimeout()
      requires Valid() && windowTimer
      modifies `activeState, `intervalTimer, `windowTimer, `addressOps, `stateSignals
      ensures Valid() && State() == Expired(old(State()))
      ensures activeState != old(activeState) ==>
                && addressOps == old(addressOps) + [if activeState then Add else Del]
                && stateSignals == old(stateSignals) + [activeState]
      ensures activeState == old(activeState) ==>
                addressOps == old(addressOps) && stateSignals == old(stateSignals)
    {
      windowTimer := false;
      if activeState {
        if udpState == '+' || ttyState == '+' {
          activeState := false;
          addressOps := addressOps + [Del];
          stateSignals := stateSignals + [false];
        }
      } else {
        if udpState != '+' && ttyState != '+' {
          activeState := true;
          addressOps := addressOps + [Add];
          stateSignals := stateSignals + [true];
        }
      }
      intervalTimer := true;
    }

    method Backoff()
      requires Valid() && windowTimer
      modifies `intervalTimer, `windowTimer
      ensures Valid() && !windowTimer
    {
      windowTimer := false;
      intervalTimer := true;
    }
  }
}
