/**
 * Two tethered instances and the bytes in flight between them, as a transition system.
 *
 * Each medium is a multiset of bytes per direction: any order of delivery is allowed, so that first-in
 * first-out delivery is one of the cases covered.
 */
module TetherPair {
  import opened TetherInstance

  datatype Side = Left | Right

  datatype Wires = Wires(udp: multiset<char>, tty: multiset<char>) {
    function On(m: Medium): multiset<char> {
      if m == Udp then udp else tty
    }

    function Without(m: Medium, c: char): Wires {
      if m == Udp then this.(udp := udp - multiset{c}) else this.(tty := tty - multiset{c})
    }

    function Plus(m: Medium, bytes: seq<char>): Wires {
      if m == Udp then this.(udp := udp + multiset(bytes)) else this.(tty := tty + multiset(bytes))
    }

    predicate Quiet() {
      udp == multiset{} && tty == multiset{}
    }
  }

  const SILENT := Wires(multiset{}, multiset{})

  /** `toLeft` and `toRight` hold the bytes on their way to that side. */
  datatype Pair = Pair(left: Instance, right: Instance, toLeft: Wires, toRight: Wires) {
    function Flipped(): Pair {
      Pair(right, left, toRight, toLeft)
    }

    /** The pair as `s` sees it, itself on the left. */
    function From(s: Side): Pair {
      if s == Left then this else Flipped()
    }

    predicate Quiet() {
      toLeft.Quiet() && toRight.Quiet()
    }

    predicate ExactlyOneActive() {
      left.active != right.active
    }

    predicate SomeActive() {
      left.active || right.active
    }
  }

  datatype Action = Open | Deliver(m: Medium, c: char) | Expire | Lose(m: Medium, c: char)

  /** `Lose` is what a lossy medium may do; a run without it is a run over lossless media. */
  datatype Step = Step(s: Side, action: Action)

  /** The answers take far less than the window interval, so a window expires only once nothing is in flight. */
  predicate LeftEnabled(p: Pair, action: Action) {
    match action
    case Open => !p.left.windowOpen
    case Deliver(m, c) => c in p.toLeft.On(m)
    case Expire => p.left.windowOpen && p.Quiet()
    case Lose(m, c) => c in p.toLeft.On(m)
  }

  function LeftNext(p: Pair, action: Action): Pair {
    match action
    case Open => Pair(Opened(p.left), p.right, p.toLeft, p.toRight.Plus(Udp, ['?']).Plus(Tty, ['?']))
    case Deliver(m, c) =>
      var (after, reply) := Received(p.left, m, c);
      Pair(after, p.right, p.toLeft.Without(m, c), p.toRight.Plus(m, reply))
    case Expire => p.(left := Expired(p.left))
    case Lose(m, c) => p.(toLeft := p.toLeft.Without(m, c))
  }

  predicate Enabled(p: Pair, step: Step) {
    LeftEnabled(p.From(step.s), step.action)
  }

  function Next(p: Pair, step: Step): Pair {
    LeftNext(p.From(step.s), step.action).From(step.s)
  }

  predicate IsRun(p: Pair, steps: seq<Step>)
    decreases |steps|
  {
    steps == [] || (Enabled(p, steps[0]) && IsRun(Next(p, steps[0]), steps[1..]))
  }

  function After(p: Pair, steps: seq<Step>): Pair
    decreases |steps|
  {
    if steps == [] then p else After(Next(p, steps[0]), steps[1..])
  }

  predicate Lossless(steps: seq<Step>) {
    forall i :: 0 <= i < |steps| ==> !steps[i].action.Lose?
  }

  /**
   * What has happened on one side since observation began: has it opened a window, and on which media did its current
   * one hear a reply?
   */
  datatype Notes = Notes(watched: bool, udp: bool, tty: bool) {
    predicate Heard() {
      udp || tty
    }

    function Hearing(m: Medium): Notes {
      if m == Udp then this.(udp := true) else this.(tty := true)
    }
  }

  datatype History = History(left: Notes, right: Notes) {
    function From(s: Side): History {
      if s == Left then this else History(right, left)
    }
  }

  const NOTHING_YET := History(Notes(false, false, false), Notes(false, false, false))

  function LeftNoted(p: Pair, h: History, action: Action): History {
    match action
    case Open => h.(left := Notes(true, false, false))
    case Deliver(m, c) => if p.left.windowOpen && c != '?' then h.(left := h.left.Hearing(m)) else h
    case Expire => h
    case Lose(m, c) => h
  }

  function Noted(p: Pair, h: History, step: Step): History {
    LeftNoted(p.From(step.s), h.From(step.s), step.action).From(step.s)
  }

  function HistoryAfter(p: Pair, h: History, steps: seq<Step>): History
    decreases |steps|
  {
    if steps == [] then h else HistoryAfter(Next(p, steps[0]), Noted(p, h, steps[0]), steps[1..])
  }

  // ----- The invariant, as the left side sees it -----

  ghost predicate Truthful(bytes: multiset<char>, flag: char) {
    forall c <- bytes :: c == '?' || c == flag
  }

  /** Every answer in flight to the left is the current flag of the right. */
  ghost predicate TruthInFlight(p: Pair) {
    Truthful(p.toLeft.udp, Flag(p.right.active)) && Truthful(p.toLeft.tty, Flag(p.right.active))
  }

  /**
   * What the left has recorded in its window is the flag of the right on each medium it heard, and nothing on the
   * other.
   */
  predicate TruthRecorded(p: Pair, h: History) {
    var flag := Flag(p.right.active);
    && p.left.udpState == (if h.left.udp then flag else '-')
    && p.left.ttyState == (if h.left.tty then flag else '-')
  }

  predicate BeingQueried(w: Wires) {
    '?' in w.udp || '?' in w.tty
  }

  predicate Answered(p: Pair, h: History) {
    var flag := Flag(p.right.active);
    flag in p.toLeft.udp || flag in p.toLeft.tty || h.left.Heard()
  }

  /**
   * While no query is on its way to close the left window, the right is either about to receive both copies
   * of the left's query, or one answer is under way or recorded: at most one copy can have been swallowed.
   */
  predicate WindowServed(p: Pair, h: History) {
    !BeingQueried(p.toLeft) ==>
      if p.right.windowOpen then '?' in p.toRight.udp && '?' in p.toRight.tty
      else BeingQueried(p.toRight) || Answered(p, h)
  }

  ghost predicate LeftInv(p: Pair, h: History) {
    && TruthInFlight(p)
    && (h.left.watched && p.left.windowOpen ==> TruthRecorded(p, h) && WindowServed(p, h))
  }

  ghost predicate Inv(p: Pair, h: History) {
    LeftInv(p, h) && LeftInv(p.From(Right), h.From(Right))
  }

  lemma InvAtStart(p: Pair)
    requires p.Quiet()
    ensures Inv(p, NOTHING_YET)
  {
  }

  // ----- Every step keeps it -----

  lemma OpenKeepsInv(p: Pair, h: History)
    requires Inv(p, h) && LeftEnabled(p, Open)
    ensures Inv(LeftNext(p, Open), LeftNoted(p, h, Open))
  {
  }

  /** A query that finds the left window open closes it, and only the right's copy on that medium is gone. */
  lemma SwallowKeepsInv(p: Pair, h: History, m: Medium)
    requires Inv(p, h) && LeftEnabled(p, Deliver(m, '?')) && p.left.windowOpen
    ensures Inv(LeftNext(p, Deliver(m, '?')), h)
  {
  }

  /** A query that finds the left window closed is answered with the truth. */
  lemma AnswerKeepsInv(p: Pair, h: History, m: Medium)
    requires Inv(p, h) && LeftEnabled(p, Deliver(m, '?')) && !p.left.windowOpen
    ensures Inv(LeftNext(p, Deliver(m, '?')), h)
  {
    var q := LeftNext(p, Deliver(m, '?'));
    var flag := Flag(p.left.active);
    assert multiset([flag]) == multiset{flag};
    assert q.toRight.On(m) == p.toRight.On(m) + multiset{flag} && flag in q.toRight.On(m);
    assert TruthInFlight(q.From(Right));
    assert Answered(q.From(Right), h.From(Right));
    assert BeingQueried(p.toRight) ==> BeingQueried(q.toRight);
  }

  lemma RecordKeepsTruth(p: Pair, h: History, q: Pair, k: History, m: Medium)
    requires TruthRecorded(p, h) && q.left == p.left.Record(m, Flag(p.right.active)) && q.right == p.right
    requires k.left == h.left.Hearing(m)
    ensures TruthRecorded(q, k)
  {
  }

  lemma RecordKeepsInv(p: Pair, h: History, m: Medium, c: char)
    requires Inv(p, h) && LeftEnabled(p, Deliver(m, c)) && c != '?' && p.left.windowOpen
    ensures Inv(LeftNext(p, Deliver(m, c)), LeftNoted(p, h, Deliver(m, c)))
  {
    assert c == Flag(p.right.active);
    hide TruthRecorded, LeftNext, Wires.Without, Truthful;
    var q, k := LeftNext(p, Deliver(m, c)), LeftNoted(p, h, Deliver(m, c));
    ReplyEffect(p, m, c);
    ConsumeReply(p.toLeft, m, c, Flag(p.right.active));
    if h.left.watched {
      RecordKeepsTruth(p, h, q, k, m);
    }
    RightUnaffected(p, q, h, k);
  }

  lemma RightUnaffected(p: Pair, q: Pair, h: History, k: History)
    requires LeftInv(p.From(Right), h.From(Right))
    requires q.right == p.right && q.toRight == p.toRight && k.right == h.right
    requires q.left.active == p.left.active && q.left.windowOpen == p.left.windowOpen
    requires ('?' in q.toLeft.udp <==> '?' in p.toLeft.udp) && ('?' in q.toLeft.tty <==> '?' in p.toLeft.tty)
    ensures LeftInv(q.From(Right), k.From(Right))
  {
  }

  lemma IgnoreKeepsInv(p: Pair, h: History, m: Medium, c: char)
    requires Inv(p, h) && LeftEnabled(p, Deliver(m, c)) && c != '?' && !p.left.windowOpen
    ensures Inv(LeftNext(p, Deliver(m, c)), h)
  {
    hide LeftNext, Wires.Without, Truthful;
    var q := LeftNext(p, Deliver(m, c));
    ReplyEffect(p, m, c);
    ConsumeReply(p.toLeft, m, c, Flag(p.right.active));
    RightUnaffected(p, q, h, h);
  }

  lemma ReplyEffect(p: Pair, m: Medium, c: char)
    requires c != '?'
    ensures LeftNext(p, Deliver(m, c)) ==
            Pair(if p.left.windowOpen then p.left.Record(m, c) else p.left, p.right, p.toLeft.Without(m, c), p.toRight)
  {
  }

  lemma ConsumeReply(w: Wires, m: Medium, c: char, flag: char)
    requires c != '?' && Truthful(w.udp, flag) && Truthful(w.tty, flag)
    ensures var v := w.Without(m, c);
            && Truthful(v.udp, flag) && Truthful(v.tty, flag)
            && ('?' in v.udp <==> '?' in w.udp) && ('?' in v.tty <==> '?' in w.tty)
  {
  }

  /** When nothing is in flight, an open window that began under observation is alone and has been answered. */
  lemma QuietWindow(p: Pair, h: History)
    requires LeftInv(p, h) && p.Quiet() && p.left.windowOpen && h.left.watched
    ensures !p.right.windowOpen && h.left.Heard()
    ensures p.left.HearsActivePeer() <==> p.right.active
  {
  }

  lemma ExpireKeepsInv(p: Pair, h: History)
    requires Inv(p, h) && LeftEnabled(p, Expire)
    ensures Inv(LeftNext(p, Expire), h)
    ensures h.left.watched ==> LeftNext(p, Expire).ExactlyOneActive() && !p.right.windowOpen
  {
  }

  lemma LeftStepKeepsInv(p: Pair, h: History, action: Action)
    requires Inv(p, h) && LeftEnabled(p, action) && !action.Lose?
    ensures Inv(LeftNext(p, action), LeftNoted(p, h, action))
  {
    hide LeftInv, TruthInFlight, WindowServed, TruthRecorded;
    match action
    case Open => OpenKeepsInv(p, h);
    case Expire => ExpireKeepsInv(p, h);
    case Deliver(m, c) =>
      if c != '?' && p.left.windowOpen {
        RecordKeepsInv(p, h, m, c);
      } else if c != '?' {
        IgnoreKeepsInv(p, h, m, c);
      } else if p.left.windowOpen {
        SwallowKeepsInv(p, h, m);
      } else {
        AnswerKeepsInv(p, h, m);
      }
  }

  lemma StepKeepsInv(p: Pair, h: History, step: Step)
    requires Inv(p, h) && Enabled(p, step) && !step.action.Lose?
    ensures Inv(Next(p, step), Noted(p, h, step))
  {
    hide LeftInv, LeftNext, LeftEnabled, LeftNoted;
    LeftStepKeepsInv(p.From(step.s), h.From(step.s), step.action);
  }
}
