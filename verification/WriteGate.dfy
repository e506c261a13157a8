/** The pair of complete servers: each tether drives the write gate of its own core. */
module WriteGate {
  import opened TetherInstance
  import opened TetherPair
  import opened TetherSafety
  import opened Core

  datatype Server = Server(writeable: bool, addressOps: seq<AddressOp>, signals: seq<bool>)

  const FRESH := Server(false, [], [])

  /** A change of the tether's flag moves the shared address, is signalled, and sets the gate. */
  function Told(s: Server, before: bool, after: bool): Server {
    if before == after then s
    else Server(after, s.addressOps + [if after then Add else Del], s.signals + [after])
  }

  datatype Cluster = Cluster(pair: Pair, left: Server, right: Server)

  function NextCluster(c: Cluster, step: Step): Cluster {
    var q := Next(c.pair, step);
    Cluster(q, Told(c.left, c.pair.left.active, q.left.active), Told(c.right, c.pair.right.active, q.right.active))
  }

  function ClusterAfter(c: Cluster, steps: seq<Step>): Cluster
    decreases |steps|
  {
    if steps == [] then c else ClusterAfter(NextCluster(c, steps[0]), steps[1..])
  }

  /** Additions and deletions of the address strictly alternate, as do the signals, beginning with an addition. */
  predicate Alternating(s: Server) {
    && |s.addressOps| == |s.signals|
    && forall k :: 0 <= k < |s.signals| ==>
         s.signals[k] == (k % 2 == 0) && s.addressOps[k] == (if k % 2 == 0 then Add else Del)
  }

  /** The gate follows the flag, and so does the last thing done to the address. */
  predicate InStep(active: bool, s: Server) {
    s.writeable == active && Alternating(s) && (active <==> |s.signals| % 2 == 1)
  }

  lemma ToldKeepsInStep(before: bool, after: bool, s: Server)
    requires InStep(before, s)
    ensures InStep(after, Told(s, before, after))
  {
  }

  lemma {:induction false} ClusterFollowsPair(c: Cluster, steps: seq<Step>)
    requires IsRun(c.pair, steps) && InStep(c.pair.left.active, c.left) && InStep(c.pair.right.active, c.right)
    ensures var d := ClusterAfter(c, steps);
            d.pair == After(c.pair, steps) && InStep(d.pair.left.active, d.left) && InStep(d.pair.right.active, d.right)
    decreases |steps|
  {
    hide InStep, Told, Next, Enabled;
    if steps != [] {
      var q := Next(c.pair, steps[0]);
      ToldKeepsInStep(c.pair.left.active, q.left.active, c.left);
      ToldKeepsInStep(c.pair.right.active, q.right.active, c.right);
      ClusterFollowsPair(NextCluster(c, steps[0]), steps[1..]);
    }
  }

  /**
   * With lossless media and both instances starting inactive: in every reachable state each gate is open
   * exactly when its instance is active, address operations and signals alternate, and no two requests,
   * whatever they are and whatever matrices the servers see, would both be forwarded.
   */
  lemma PairWideWriteSafety(c: Cluster, steps: seq<Step>)
    requires AtRest(c.pair) && !c.pair.SomeActive() && c.left == FRESH && c.right == FRESH
    requires IsRun(c.pair, steps) && Lossless(steps)
    ensures var d := ClusterAfter(c, steps);
            && InStep(d.pair.left.active, d.left) && InStep(d.pair.right.active, d.right)
            && (forall m, n, x, y ::
                  Forwarded(d.left.writeable, m, x) == [] || Forwarded(d.right.writeable, n, y) == [])
  {
    hide IsRun, After, ClusterAfter;
    ClusterFollowsPair(c, steps);
    NeverBothActive(c.pair, steps);
  }

  /** One server process: the state signal of its tether is connected to the gate of its core. */
  class Drouterd {
    const tether: Tether
    const core: DRouter

    ghost function State(): Server
      reads tether, core
    {
      Server(core.writeable, tether.addressOps, tether.stateSignals)
    }

    constructor (tether: Tether, core: DRouter)
      ensures this.tether == tether && this.core == core
    {
      this.tether, this.core := tether, core;
    }

    /** The process does to its gate, address and signals what the flag of its tether says, and no more. */
    method WindowTimeout()
      requires tether.Valid() && tether.windowTimer
      modifies tether, core
      ensures tether.Valid() && tether.State() == Expired(old(tether.State()))
      ensures State() == Told(old(State()), old(tether.activeState), tether.activeState)
    {
      var signals := |tether.stateSignals|;
      tether.WindowTimeout();
      if |tether.stateSignals| > signals {
        core.SetWriteable(tether.stateSignals[signals]);
      }
    }
  }
}
