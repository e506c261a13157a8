/** What every run of the pair guarantees: exclusion over lossless media, and healing from any state at all. */
module TetherSafety {
  import opened TetherInstance
  import opened TetherPair

  // ----- Runs keep the invariant -----

  /** Every open window began under observation. */
  ghost predicate Clean(p: Pair, h: History) {
    && Inv(p, h)
    && (p.left.windowOpen ==> h.left.watched)
    && (p.right.windowOpen ==> h.right.watched)
  }

  lemma StepKeepsClean(p: Pair, h: History, step: Step)
    requires Inv(p, h) && Enabled(p, step) && !step.action.Lose?
    ensures Inv(Next(p, step), Noted(p, h, step))
    ensures Clean(p, h) ==> Clean(Next(p, step), Noted(p, h, step))
  {
    hide LeftInv, LeftEnabled;
    StepKeepsInv(p, h, step);
  }

  lemma {:induction false} RunKeepsInv(p: Pair, h: History, steps: seq<Step>)
    requires IsRun(p, steps) && Lossless(steps) && Inv(p, h)
    ensures Inv(After(p, steps), HistoryAfter(p, h, steps))
    ensures Clean(p, h) ==> Clean(After(p, steps), HistoryAfter(p, h, steps))
    decreases |steps|
  {
    hide Enabled, Next, Noted, Inv, Clean;
    if steps != [] {
      StepKeepsClean(p, h, steps[0]);
      RunKeepsInv(Next(p, steps[0]), Noted(p, h, steps[0]), steps[1..]);
    }
  }

  lemma StepKeepsActiveCount(p: Pair, h: History, step: Step)
    requires Clean(p, h) && Enabled(p, step) && !step.action.Lose?
    ensures p.ExactlyOneActive() || step.action.Expire? ==> Next(p, step).ExactlyOneActive()
    ensures p.SomeActive() ==> Next(p, step).SomeActive()
  {
    hide LeftInv;
    if step.action.Expire? {
      ExpireKeepsInv(p.From(step.s), h.From(step.s));
    }
  }

  predicate HasExpiry(steps: seq<Step>) {
    exists j :: 0 <= j < |steps| && steps[j].action.Expire?
  }

  lemma {:induction false} RunKeepsActiveCount(p: Pair, h: History, steps: seq<Step>)
    requires IsRun(p, steps) && Lossless(steps) && Inv(p, h) && Clean(p, h)
    ensures p.ExactlyOneActive() || HasExpiry(steps) ==> After(p, steps).ExactlyOneActive()
    ensures p.SomeActive() ==> After(p, steps).SomeActive()
    decreases |steps|
  {
    hide Enabled, Next, Noted, Inv, Clean, Pair.ExactlyOneActive, Pair.SomeActive;
    if steps != [] {
      StepKeepsClean(p, h, steps[0]);
      StepKeepsActiveCount(p, h, steps[0]);
      RunKeepsActiveCount(Next(p, steps[0]), Noted(p, h, steps[0]), steps[1..]);
      if HasExpiry(steps) {
        var j :| 0 <= j < |steps| && steps[j].action.Expire?;
        assert j == 0 || steps[1..][j - 1].action.Expire?;
      }
    }
  }

  // ----- Exclusion over lossless media -----

  /** No window open and nothing in flight; the flags and recorded replies may be anything. */
  predicate AtRest(p: Pair) {
    p.Quiet() && !p.left.windowOpen && !p.right.windowOpen
  }

  /**
   * From any two active flags: once any window has expired, every state has exactly one active instance,
   * and until then an active instance is never lost.
   */
  lemma Exclusion(p: Pair, steps: seq<Step>)
    requires AtRest(p) && IsRun(p, steps) && Lossless(steps)
    ensures HasExpiry(steps) ==> After(p, steps).ExactlyOneActive()
    ensures p.SomeActive() ==> After(p, steps).SomeActive()
  {
    InvAtStart(p);
    RunKeepsActiveCount(p, NOTHING_YET, steps);
  }

  lemma {:induction false} FlagsChangeOnlyOnExpiry(p: Pair, steps: seq<Step>)
    requires IsRun(p, steps) && !HasExpiry(steps)
    ensures After(p, steps).left.active == p.left.active && After(p, steps).right.active == p.right.active
    decreases |steps|
  {
    hide LeftEnabled;
    if steps != [] {
      assert !steps[0].action.Expire?;
      FlagsChangeOnlyOnExpiry(Next(p, steps[0]), steps[1..]);
    }
  }

  /** Starting with neither active, no state of any lossless run has both active. */
  lemma NeverBothActive(p: Pair, steps: seq<Step>)
    requires AtRest(p) && !p.SomeActive() && IsRun(p, steps) && Lossless(steps)
    ensures !(After(p, steps).left.active && After(p, steps).right.active)
  {
    hide IsRun, After;
    if HasExpiry(steps) {
      Exclusion(p, steps);
    } else {
      FlagsChangeOnlyOnExpiry(p, steps);
    }
  }

  /**
   * In every state of every such run: answers in flight to either side, and what it has recorded in an open
   * window, are its peer's current flag; and once nothing is in flight at most one window is open, it has
   * heard a reply, and it knows whether its peer is active.
   */
  lemma WindowsAreTrue(p: Pair, steps: seq<Step>, s: Side)
    requires AtRest(p) && IsRun(p, steps) && Lossless(steps)
    ensures var q, h := After(p, steps).From(s), HistoryAfter(p, NOTHING_YET, steps).From(s);
            && TruthInFlight(q)
            && (q.left.windowOpen ==> TruthRecorded(q, h))
            && (q.left.windowOpen && q.Quiet() ==>
                  !q.right.windowOpen && h.left.Heard() && (q.left.HearsActivePeer() <==> q.right.active))
  {
    hide IsRun, After, HistoryAfter;
    InvAtStart(p);
    RunKeepsInv(p, NOTHING_YET, steps);
    var q, h := After(p, steps).From(s), HistoryAfter(p, NOTHING_YET, steps).From(s);
    assert LeftInv(q, h);
    if q.left.windowOpen && q.Quiet() {
      QuietWindow(q, h);
    }
  }

  // ----- Healing -----

  predicate OpensBefore(steps: seq<Step>, s: Side, j: nat)
    requires j <= |steps|
  {
    exists i :: 0 <= i < j && steps[i] == Step(s, Open)
  }

  lemma FirstWatchedExpiry(p: Pair, h: History, s: Side)
    requires Inv(p, h) && Enabled(p, Step(s, Expire)) && h.From(s).left.watched
    ensures Clean(Next(p, Step(s, Expire)), Noted(p, h, Step(s, Expire)))
    ensures Next(p, Step(s, Expire)).ExactlyOneActive()
  {
    ExpireKeepsInv(p.From(s), h.From(s));
    hide LeftInv;
  }

  lemma WatchedFromNowOn(p: Pair, h: History, step: Step, s: Side)
    ensures h.From(s).left.watched || step == Step(s, Open) ==> Noted(p, h, step).From(s).left.watched
  {
  }

  lemma {:induction false} HealsFrom(p: Pair, h: History, steps: seq<Step>, s: Side, j: nat)
    requires IsRun(p, steps) && Lossless(steps) && Inv(p, h)
    requires j < |steps| && steps[j] == Step(s, Expire)
    requires h.From(s).left.watched || OpensBefore(steps, s, j)
    ensures After(p, steps).ExactlyOneActive()
    decreases |steps|
  {
    hide Enabled, Next, Noted, Inv, Clean, Pair.ExactlyOneActive, History.From;
    var q, k, rest := Next(p, steps[0]), Noted(p, h, steps[0]), steps[1..];
    StepKeepsClean(p, h, steps[0]);
    WatchedFromNowOn(p, h, steps[0], s);
    if j == 0 {
      FirstWatchedExpiry(p, h, s);
      RunKeepsActiveCount(q, k, rest);
    } else {
      if !k.From(s).left.watched {
        var i :| 0 <= i < j && steps[i] == Step(s, Open);
        assert i != 0 && rest[i - 1] == Step(s, Open);
        assert OpensBefore(rest, s, j - 1);
      }
      assert rest[j - 1] == Step(s, Expire);
      HealsFrom(q, k, rest, s, j - 1);
    }
  }

  /**
   * Whatever the flags, windows and recorded replies were when the media came back (drained), every state
   * after the first window that both opens and expires has exactly one active instance.
   */
  lemma Healing(p: Pair, steps: seq<Step>, s: Side, j: nat)
    requires p.Quiet() && IsRun(p, steps) && Lossless(steps)
    requires j < |steps| && steps[j] == Step(s, Expire) && OpensBefore(steps, s, j)
    ensures After(p, steps).ExactlyOneActive()
  {
    InvAtStart(p);
    HealsFrom(p, NOTHING_YET, steps, s, j);
  }

  // ----- Without both media, exclusion fails -----

  predicate LosesOnlyOn(steps: seq<Step>, media: set<Medium>) {
    forall i :: 0 <= i < |steps| && steps[i].action.Lose? ==> steps[i].action.m in media
  }

  function Other(m: Medium): Medium {
    if m == Udp then Tty else Udp
  }

  function OnlyOn(m: Medium, bytes: multiset<char>): Wires {
    if m == Udp then Wires(bytes, multiset{}) else Wires(multiset{}, bytes)
  }

  const ASKING := Instance(true, true, '-', '-')
  const WAITING := Instance(false, true, '-', '-')
  const IDLE := Instance(false, false, '-', '-')
  const LEADING := Instance(true, false, '-', '-')
  const QUERY := multiset{'?'}

  const LEFT_LEADS := Pair(LEADING, IDLE, SILENT, SILENT)
  const LEFT_ASKED := Pair(ASKING, IDLE, SILENT, SILENT)
  const BOTH_LEAD := Pair(LEADING, LEADING, SILENT, SILENT)

  /** Left queries; the copy on the dead medium is lost, and Right answers the other. */
  function LeftAsks(dead: Medium): seq<Step> {
    [Step(Left, Open), Step(Right, Lose(dead, '?')), Step(Right, Deliver(Other(dead), '?')),
     Step(Left, Deliver(Other(dead), '-'))]
  }

  /** Right queries; Left's open window swallows the only copy that arrives. */
  function RightAsks(dead: Medium): seq<Step> {
    [Step(Right, Open), Step(Left, Lose(dead, '?')), Step(Left, Deliver(Other(dead), '?')), Step(Right, Expire)]
  }

  lemma RunExtends(p: Pair, step: Step, rest: seq<Step>, q: Pair)
    requires Enabled(p, step) && Next(p, step) == q && IsRun(q, rest)
    ensures IsRun(p, [step] + rest) && After(p, [step] + rest) == After(q, rest)
  {
  }

  lemma EmptyRun(p: Pair)
    ensures IsRun(p, []) && After(p, []) == p
  {
  }

  lemma RightTakesOver(dead: Medium)
    ensures IsRun(LEFT_ASKED, RightAsks(dead)) && After(LEFT_ASKED, RightAsks(dead)) == BOTH_LEAD
  {
    hide IsRun, After;
    var s := RightAsks(dead);
    var p1, p2, p3 := Pair(ASKING, WAITING, Wires(QUERY, QUERY), SILENT),
                      Pair(ASKING, WAITING, OnlyOn(Other(dead), QUERY), SILENT),
                      Pair(LEADING, WAITING, SILENT, SILENT);
    EmptyRun(BOTH_LEAD);
    RunExtends(p3, s[3], [], BOTH_LEAD);
    RunExtends(p2, s[2], [s[3]] + [], p3);
    RunExtends(p1, s[1], [s[2]] + ([s[3]] + []), p2);
    assert Next(LEFT_ASKED, s[0]) == p1;
    RunExtends(LEFT_ASKED, s[0], [s[1]] + ([s[2]] + ([s[3]] + [])), p1);
    assert s == [s[0]] + ([s[1]] + ([s[2]] + ([s[3]] + [])));
  }

  predicate Goes(p: Pair, step: Step, q: Pair) {
    Enabled(p, step) && Next(p, step) == q
  }

  lemma LeftAsksStepByStep(dead: Medium)
    ensures var live := Other(dead);
            var p1 := Pair(ASKING, IDLE, SILENT, Wires(QUERY, QUERY));
            var p2 := Pair(ASKING, IDLE, SILENT, OnlyOn(live, QUERY));
            var p3 := Pair(ASKING, IDLE, OnlyOn(live, multiset{'-'}), SILENT);
            && Goes(LEFT_LEADS, Step(Left, Open), p1) && Goes(p1, Step(Right, Lose(dead, '?')), p2)
            && Goes(p2, Step(Right, Deliver(live, '?')), p3) && Goes(p3, Step(Left, Deliver(live, '-')), LEFT_ASKED)
  {
    assert multiset(['?']) == QUERY && multiset(['-']) == multiset{'-'};
    var p := Pair(ASKING, IDLE, SILENT, Wires(QUERY, QUERY));
    assert Next(LEFT_LEADS, Step(Left, Open)) == p;
    match dead
    case Udp =>
    case Tty =>
  }

  lemma LeftKeepsAsking(dead: Medium, rest: seq<Step>)
    requires IsRun(LEFT_ASKED, rest)
    ensures IsRun(LEFT_LEADS, LeftAsks(dead) + rest)
    ensures After(LEFT_LEADS, LeftAsks(dead) + rest) == After(LEFT_ASKED, rest)
  {
    hide IsRun, After, Enabled, Next, OnlyOn;
    var s := LeftAsks(dead);
    var p1, p2, p3 := Pair(ASKING, IDLE, SILENT, Wires(QUERY, QUERY)),
                      Pair(ASKING, IDLE, SILENT, OnlyOn(Other(dead), QUERY)),
                      Pair(ASKING, IDLE, OnlyOn(Other(dead), multiset{'-'}), SILENT);
    LeftAsksStepByStep(dead);
    RunExtends(p3, s[3], rest, LEFT_ASKED);
    RunExtends(p2, s[2], [s[3]] + rest, p3);
    RunExtends(p1, s[1], [s[2]] + ([s[3]] + rest), p2);
    RunExtends(LEFT_LEADS, s[0], [s[1]] + ([s[2]] + ([s[3]] + rest)), p1);
    assert s + rest == [s[0]] + ([s[1]] + ([s[2]] + ([s[3]] + rest)));
  }

  /** One live medium is not enough, whichever it is: from a state with one active instance, both end up active. */
  lemma BothActiveWithOneDead(dead: Medium)
    ensures AtRest(LEFT_LEADS) && LEFT_LEADS.ExactlyOneActive()
    ensures IsRun(LEFT_LEADS, LeftAsks(dead) + RightAsks(dead)) && LosesOnlyOn(LeftAsks(dead) + RightAsks(dead), {dead})
    ensures After(LEFT_LEADS, LeftAsks(dead) + RightAsks(dead)) == BOTH_LEAD
  {
    hide IsRun, After;
    RightTakesOver(dead);
    LeftKeepsAsking(dead, RightAsks(dead));
  }

  /** With losses on the given media only, a pair at rest with one active instance always keeps exactly one. */
  ghost predicate ExclusionHolds(media: set<Medium>) {
    forall p, steps :: AtRest(p) && p.ExactlyOneActive() && IsRun(p, steps) && LosesOnlyOn(steps, media) ==>
      After(p, steps).ExactlyOneActive()
  }

  /** Exclusion holds exactly when neither medium loses anything. */
  lemma ExclusionNeedsBothMedia(media: set<Medium>)
    ensures ExclusionHolds(media) <==> media == {}
  {
    hide IsRun, After;
    if dead :| dead in media {
      BothActiveWithOneDead(dead);
      assert LosesOnlyOn(LeftAsks(dead) + RightAsks(dead), media);
      assert !BOTH_LEAD.ExactlyOneActive();
    } else {
      forall p, steps | AtRest(p) && p.ExactlyOneActive() && IsRun(p, steps) && LosesOnlyOn(steps, media)
        ensures After(p, steps).ExactlyOneActive()
      {
        InvAtStart(p);
        RunKeepsActiveCount(p, NOTHING_YET, steps);
      }
    }
  }
}
