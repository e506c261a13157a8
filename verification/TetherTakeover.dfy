/** How long an instance whose peer has fallen silent can stay inactive. Times are in milliseconds. */
module TetherTakeover {
  import opened TetherInstance

  type Random = n: nat | n <= RAND_MAX

  /** An instance together with the moment its running timer fires. */
  datatype Timed = Timed(instance: Instance, deadline: nat) {
    /** The running timer was started no later than `now`, so it has at most its full span left. */
    predicate Plausible(now: nat) {
      now <= deadline <= now + (if instance.windowOpen then WINDOW_INTERVAL else BASE_INTERVAL)
    }
  }

  function Fired(t: Timed, random: Random): Timed {
    if t.instance.windowOpen then Timed(Expired(t.instance), t.deadline + GetInterval(random))
    else Timed(Opened(t.instance), t.deadline + WINDOW_INTERVAL)
  }

  /** The state at time `now` when no byte arrives; `random(n)` is the n-th random number drawn. */
  function AtTime(t: Timed, random: nat -> Random, n: nat, now: nat): Timed
    decreases if t.deadline <= now then now - t.deadline + 1 else 0, t.instance.windowOpen
  {
    if t.deadline > now then t else AtTime(Fired(t, random(n)), random, n + 1, now)
  }

  /** Active, with nothing on record that could end it. */
  predicate Unchallenged(t: Timed) {
    t.instance.active && (t.instance.windowOpen ==> !t.instance.HearsActivePeer())
  }

  lemma {:induction false} UnchallengedStaysActive(t: Timed, random: nat -> Random, n: nat, now: nat)
    requires Unchallenged(t)
    ensures AtTime(t, random, n, now).instance.active
    decreases if t.deadline <= now then now - t.deadline + 1 else 0, t.instance.windowOpen
  {
    if t.deadline <= now {
      UnchallengedStaysActive(Fired(t, random(n)), random, n + 1, now);
    }
  }

  /** A full silent window ends in activity. */
  lemma SilentWindow(t: Timed, random: nat -> Random, n: nat, now: nat)
    requires !t.instance.windowOpen && t.deadline + WINDOW_INTERVAL <= now
    ensures AtTime(t, random, n, now).instance.active
  {
    var u := Fired(t, random(n));
    var v := Fired(u, random(n + 1));
    assert AtTime(t, random, n, now) == AtTime(u, random, n + 1, now) == AtTime(v, random, n + 2, now);
    UnchallengedStaysActive(v, random, n + 2, now);
  }

  const TAKEOVER_BOUND: nat := 12000

  /** Whatever its timers and recorded replies are, an instance that hears nothing is active from 12 seconds on. */
  lemma Takeover(t: Timed, random: nat -> Random, start: nat, now: nat)
    requires t.Plausible(start) && start + TAKEOVER_BOUND <= now
    ensures AtTime(t, random, 0, now).instance.active
  {
    if t.instance.windowOpen {
      var u := Fired(t, random(0));
      assert AtTime(t, random, 0, now) == AtTime(u, random, 1, now);
      SilentWindow(u, random, 1, now);
    } else {
      SilentWindow(t, random, 0, now);
    }
  }

  /** No smaller bound will do: one millisecond earlier an instance may still be inactive. */
  lemma TakeoverBoundIsExact(start: nat)
    ensures var t := Timed(Instance(true, true, '+', '+'), start + WINDOW_INTERVAL);
            t.Plausible(start) && !AtTime(t, _ => RAND_MAX, 0, start + TAKEOVER_BOUND - 1).instance.active
  {
    var random: nat -> Random := _ => RAND_MAX;
    var now := start + TAKEOVER_BOUND - 1;
    var t := Timed(Instance(true, true, '+', '+'), start + WINDOW_INTERVAL);
    var u := Fired(t, RAND_MAX);
    var v := Fired(u, RAND_MAX);
    assert u == Timed(Instance(false, false, '+', '+'), start + WINDOW_INTERVAL + BASE_INTERVAL);
    assert v == Timed(Instance(false, true, '-', '-'), start + TAKEOVER_BOUND);
    assert AtTime(v, random, 2, now) == v;
    assert AtTime(u, random, 1, now) == AtTime(v, random, 2, now);
    assert AtTime(t, random, 0, now) == AtTime(u, random, 1, now);
  }
}
