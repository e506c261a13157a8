/** The Python client of Protocol D: five dictionaries, a fixed order of subscriptions, and callbacks. */
module StateEngineClient {
  import opened Addresses
  import opened Text
  import opened Lines
  import opened RoutingTables
  import opened Replication
  import opened ProtocolD
  import opened ProtocolDText

  // ----- State -----

  datatype Kind = NodeKind | SourceKind | DestinationKind | GpiKind | GpoKind

  datatype Callback = Ready | Added(kind: Kind) | Deleted(kind: Kind) | Changed(kind: Kind)

  /** Which subscriptions have been acknowledged. */
  datatype Flags = Flags(
    nodes: bool, sources: bool, destinations: bool, gpis: bool, gpos: bool, silences: bool, clips: bool, tether: bool)

  const NONE_LOADED := Flags(false, false, false, false, false, false, false, false)

  /** `failed` stands for an uncaught KeyError, which ends the engine. */
  datatype Engine = Engine(dicts: View, flags: Flags, loaded: bool, failed: bool, callbacks: seq<Callback>,
                           requests: seq<string>)

  const FRESH_ENGINE := Engine(NO_VIEW, NONE_LOADED, false, false, [], ["SubscribeNodes"])

  // ----- Messages -----

  /** An addition overwrites; changing or removing an unknown key fails. */
  function DictStep<K, V>(m: map<K, V>, op: Op<K, V>): Option<map<K, V>> {
    if op.Add? || op.key in m then Some(Applied(m, op)) else None
  }

  function CallbackFor<K, V(==)>(m: map<K, V>, op: Op<K, V>, kind: Kind): seq<Callback> {
    match op
    case Add(_, _) => [Added(kind)]
    case Change(k, v) => if k in m && m[k] != v then [Changed(kind)] else []
    case Remove(_) => [Deleted(kind)]
  }

  function Called(e: Engine, c: seq<Callback>): Engine {
    if e.loaded then e.(callbacks := e.callbacks + c) else e
  }

  function OkStep(e: Engine): Engine {
    var f := e.flags;
    if !f.nodes then e.(flags := f.(nodes := true), requests := e.requests + ["SubscribeSources"])
    else if !f.sources then e.(flags := f.(sources := true), requests := e.requests + ["SubscribeDestinations"])
    else if !f.destinations then e.(flags := f.(destinations := true), requests := e.requests + ["SubscribeGpis"])
    else if !f.gpis then e.(flags := f.(gpis := true), requests := e.requests + ["SubscribeGpos"])
    else if !f.gpos then e.(flags := f.(gpos := true), requests := e.requests + ["SubscribeSilences"])
    else if !f.silences then e.(flags := f.(silences := true), requests := e.requests + ["SubscribeClips"])
    else if !f.clips then e.(flags := f.(clips := true), requests := e.requests + ["SubscribeTether"])
    else if !f.tether then e.(flags := f.(tether := true), loaded := true, callbacks := e.callbacks + [Ready])
    else e
  }

  function Step(e: Engine, m: Message): Engine {
    if e.failed then e
    else
      var d := e.dicts;
      match m
      case Node(op) =>
        if op.Change? then e
        else
          (match DictStep(d.nodes, op)
           case None => e.(failed := true)
           case Some(n) => Called(e, CallbackFor(d.nodes, op, NodeKind)).(dicts := d.(nodes := n)))
      case Source(op) =>
        (match DictStep(d.sources, op)
         case None => e.(failed := true)
         case Some(n) => Called(e, CallbackFor(d.sources, op, SourceKind)).(dicts := d.(sources := n)))
      case Destination(op) =>
        (match DictStep(d.destinations, op)
         case None => e.(failed := true)
         case Some(n) => Called(e, CallbackFor(d.destinations, op, DestinationKind)).(dicts := d.(destinations := n)))
      case GpiPort(op) =>
        (match DictStep(d.gpis, op)
         case None => e.(failed := true)
         case Some(n) => Called(e, CallbackFor(d.gpis, op, GpiKind)).(dicts := d.(gpis := n)))
      case GpoPort(op) =>
        (match DictStep(d.gpos, op)
         case None => e.(failed := true)
         case Some(n) => Called(e, CallbackFor(d.gpos, op, GpoKind)).(dicts := d.(gpos := n)))
      case Ok => OkStep(e)
      case Pong => e
  }

  function StepAll(e: Engine, ms: seq<Message>): Engine
    decreases |ms|
  {
    if ms == [] then e else StepAll(Step(e, ms[0]), ms[1..])
  }

  lemma {:induction false} StepAppend(e: Engine, a: seq<Message>, b: seq<Message>)
    ensures StepAll(e, a + b) == StepAll(StepAll(e, a), b)
    decreases |a|
  {
    hide Step;
    if a == [] {
      assert a + b == b;
    } else {
      assert (a + b)[1..] == a[1..] + b;
      StepAppend(Step(e, a[0]), a[1..], b);
    }
  }

  // ----- The engine -----

  class StateEngine {
    var nodes: map<IPv4Number, NodeInfo>
    var sources: map<Key, SourceColumns>
    var destinations: map<Key, DestinationColumns>
    var gpis: map<Key, GpiColumns>
    var gpos: map<Key, GpoColumns>
    var flags: Flags
    var loaded: bool
    var failed: bool
    var callbacks: seq<Callback>
    var requests: seq<string>
    var accum: string

    ghost function State(): Engine
      reads this
    {
      Engine(View(nodes, sources, destinations, gpis, gpos), flags, loaded, failed, callbacks, requests)
    }

    constructor ()
      ensures State() == FRESH_ENGINE && accum == ""
    {
      nodes, sources, destinations, gpis, gpos := map[], map[], map[], map[], map[];
      flags, loaded, failed, callbacks, requests, accum := NONE_LOADED, false, false, [], ["SubscribeNodes"], "";
    }

    method Call(c: seq<Callback>)
      modifies `callbacks
      ensures State() == Called(old(State()), c)
      ensures !loaded ==> callbacks == old(callbacks)
    {
      if loaded {
        callbacks := callbacks + c;
      }
    }

    method ProcessMessage(text: string)
      modifies this
      ensures accum == old(accum)
      ensures State() == match ParseMessage(text) case None => old(State()) case Some(m) => Step(old(State()), m)
    {
      hide ParseMessage, Applied, CallbackFor, OkStep;
      match ParseMessage(text) {
        case None =>
        case Some(m) =>
          if failed {
            return;
          }
          match m {
            case Node(op) =>
              if op.Change? {
              } else if op.Add? || op.key in nodes {
                Call(CallbackFor(nodes, op, NodeKind));
                nodes := Applied(nodes, op);
              } else {
                failed := true;
              }
            case Source(op) =>
              if op.Add? || op.key in sources {
                Call(CallbackFor(sources, op, SourceKind));
                sources := Applied(sources, op);
              } else {
                failed := true;
              }
            case Destination(op) =>
              if op.Add? || op.key in destinations {
                Call(CallbackFor(destinations, op, DestinationKind));
                destinations := Applied(destinations, op);
              } else {
                failed := true;
              }
            case GpiPort(op) =>
              if op.Add? || op.key in gpis {
                Call(CallbackFor(gpis, op, GpiKind));
                gpis := Applied(gpis, op);
              } else {
                failed := true;
              }
            case GpoPort(op) =>
              if op.Add? || op.key in gpos {
                Call(CallbackFor(gpos, op, GpoKind));
                gpos := Applied(gpos, op);
              } else {
                failed := true;
              }
            case Ok => Acknowledge();
            case Pong =>
          }
      }
    }

    method Acknowledge()
      modifies `flags, `loaded, `callbacks, `requests
      ensures State() == OkStep(old(State()))
      ensures old(InOrder(State())) ==>
                && InOrder(State())
                && Acknowledged(flags) == if old(Acknowledged(flags)) < 8 then old(Acknowledged(flags)) + 1 else 8
    {
      OkKeepsOrder(State());
      hide InOrder, Acknowledged;
      if !flags.nodes {
        flags := flags.(nodes := true);
        requests := requests + ["SubscribeSources"];
      } else if !flags.sources {
        flags := flags.(sources := true);
        requests := requests + ["SubscribeDestinations"];
      } else if !flags.destinations {
        flags := flags.(destinations := true);
        requests := requests + ["SubscribeGpis"];
      } else if !flags.gpis {
        flags := flags.(gpis := true);
        requests := requests + ["SubscribeGpos"];
      } else if !flags.gpos {
        flags := flags.(gpos := true);
        requests := requests + ["SubscribeSilences"];
      } else if !flags.silences {
        flags := flags.(silences := true);
        requests := requests + ["SubscribeClips"];
      } else if !flags.clips {
        flags := flags.(clips := true);
        requests := requests + ["SubscribeTether"];
      } else if !flags.tether {
        flags := flags.(tether := true);
        loaded := true;
        callbacks := callbacks + [Ready];
      }
    }

    /** The receive loop, one character at a time. */
    method Receive(data: string)
      modifies this
      ensures var (rest, lines) := Fed(old(accum), data);
              accum == rest && State() == StepAll(old(State()), Understood(lines))
    {
      hide Fed, StepAll, Step, Understood, ParseMessage;
      ghost var lines: seq<string> := [];
      NothingFed(accum);
      NothingReceived(State());
      for i := 0 to |data|
        invariant Fed(old(accum), data[..i]) == (accum, lines)
        invariant State() == StepAll(old(State()), Understood(lines))
      {
        FedByte(old(accum), data[..i], data[i]);
        assert data[..i + 1] == data[..i] + [data[i]];
        if data[i] == '\r' {
          OneMoreReceived(old(State()), lines, accum);
          lines := lines + [accum];
          ProcessMessage(accum);
          accum := "";
        } else if data[i] != '\n' {
          accum := accum + [data[i]];
        }
      }
      assert data[..|data|] == data;
    }
  }

  lemma NothingReceived(e: Engine)
    ensures Understood([]) == [] && StepAll(e, []) == e
  {
  }

  lemma OneMoreReceived(e: Engine, lines: seq<string>, line: string)
    ensures StepAll(e, Understood(lines + [line])) ==
            match ParseMessage(line)
            case None => StepAll(e, Understood(lines))
            case Some(m) => Step(StepAll(e, Understood(lines)), m)
  {
    hide Step, ParseMessage, StepAll;
    assert (lines + [line])[..|lines|] == lines;
    match ParseMessage(line)
    case None => assert Understood(lines) + [] == Understood(lines);
    case Some(m) =>
      StepAppend(e, Understood(lines), [m]);
      StepOne(StepAll(e, Understood(lines)), m);
  }

  lemma StepOne(e: Engine, m: Message)
    ensures StepAll(e, [m]) == Step(e, m)
  {
  }

  // ----- What holds after every single message -----

  /** The eight subscriptions, in the order in which the engine asks for them. */
  function RequestText(n: nat): string {
    match n
    case 0 => "SubscribeNodes"
    case 1 => "SubscribeSources"
    case 2 => "SubscribeDestinations"
    case 3 => "SubscribeGpis"
    case 4 => "SubscribeGpos"
    case 5 => "SubscribeSilences"
    case 6 => "SubscribeClips"
    case _ => "SubscribeTether"
  }

  function RequestTexts(n: nat): (texts: seq<string>)
    ensures |texts| == n && forall i :: 0 <= i < n ==> texts[i] == RequestText(i)
  {
    if n == 0 then [] else RequestTexts(n - 1) + [RequestText(n - 1)]
  }

  function FlagsUpTo(n: nat): Flags {
    Flags(0 < n, 1 < n, 2 < n, 3 < n, 4 < n, 5 < n, 6 < n, 7 < n)
  }

  function Acknowledged(f: Flags): (n: nat)
    ensures n <= 8
  {
    if f.tether then 8 else if f.clips then 7 else if f.silences then 6 else if f.gpos then 5
    else if f.gpis then 4 else if f.destinations then 3 else if f.sources then 2 else if f.nodes then 1 else 0
  }

  /** The flags are a prefix of the subscription order, one more is being asked for, and all of them make `loaded`. */
  predicate InOrder(e: Engine) {
    var n := Acknowledged(e.flags);
    && e.flags == FlagsUpTo(n) && e.loaded == e.flags.tether
    && e.requests == RequestTexts(if n < 8 then n + 1 else n)
  }

  /** Nothing is called before ready, ready is called first, and only once. */
  predicate ReadyFirstAndOnce(e: Engine) {
    if e.loaded then
      && e.callbacks != [] && e.callbacks[0] == Ready
      && forall i :: 0 < i < |e.callbacks| ==> e.callbacks[i] != Ready
    else e.callbacks == []
  }

  /** A change is called exactly when the dictionary differs afterwards; additions and removals always are. */
  lemma CallbackTellsTheChange<K, V>(m: map<K, V>, op: Op<K, V>, kind: Kind)
    requires Known(m, op)
    ensures op.Change? ==> CallbackFor(m, op, kind) == if Applied(m, op) == m then [] else [Changed(kind)]
    ensures op.Add? ==> CallbackFor(m, op, kind) == [Added(kind)] && op.key in Applied(m, op)
    ensures op.Remove? ==> CallbackFor(m, op, kind) == [Deleted(kind)] && op.key !in Applied(m, op) && op.key in m
  {
    if op.Change? {
      assert Applied(m, op)[op.key] == op.value;
      assert m[op.key] == op.value ==> Applied(m, op) == m;
    }
  }

  /** The callbacks that a record of a table ought to make, from the dictionaries before and after it. */
  predicate Tells<K, V(==)>(before: map<K, V>, after: map<K, V>, op: Op<K, V>, called: seq<Callback>, kind: Kind) {
    called == match op
              case Add(_, _) => [Added(kind)]
              case Remove(_) => [Deleted(kind)]
              case Change(_, _) => if before == after then [] else [Changed(kind)]
  }

  /** What a record makes of its dictionary. */
  predicate Takes<K, V(==)>(before: map<K, V>, after: map<K, V>, op: Op<K, V>) {
    if op.Remove? then op.key in before && after == before - {op.key}
    else (op.Change? ==> op.key in before) && after == before[op.key := op.value]
  }

  /**
   * A message that a ready engine survives, other than an acknowledgement, touches only its own dictionary and makes
   * only callbacks of its own kind: one for each addition and removal, and one for a change exactly if the
   * dictionary differs. Before ready it makes none.
   */
  lemma MessageTellsItsTable(e: Engine, m: Message)
    requires !Step(e, m).failed && !m.Ok?
    ensures var f := Step(e, m);
            var d := f.dicts;
            && |e.callbacks| <= |f.callbacks| && f.callbacks[..|e.callbacks|] == e.callbacks
            && f == e.(dicts := d, callbacks := f.callbacks)
            && var called := f.callbacks[|e.callbacks|..];
               && (!e.loaded ==> called == [])
               && match m
                  case Node(op) =>
                    && d == e.dicts.(nodes := d.nodes)
                    && (if op.Change? then d.nodes == e.dicts.nodes && called == []
                        else Takes(e.dicts.nodes, d.nodes, op)
                             && (e.loaded ==> Tells(e.dicts.nodes, d.nodes, op, called, NodeKind)))
                  case Source(op) =>
                    && d == e.dicts.(sources := d.sources) && Takes(e.dicts.sources, d.sources, op)
                    && (e.loaded ==> Tells(e.dicts.sources, d.sources, op, called, SourceKind))
                  case Destination(op) =>
                    && d == e.dicts.(destinations := d.destinations)
                    && Takes(e.dicts.destinations, d.destinations, op)
                    && (e.loaded ==> Tells(e.dicts.destinations, d.destinations, op, called, DestinationKind))
                  case GpiPort(op) =>
                    && d == e.dicts.(gpis := d.gpis) && Takes(e.dicts.gpis, d.gpis, op)
                    && (e.loaded ==> Tells(e.dicts.gpis, d.gpis, op, called, GpiKind))
                  case GpoPort(op) =>
                    && d == e.dicts.(gpos := d.gpos) && Takes(e.dicts.gpos, d.gpos, op)
                    && (e.loaded ==> Tells(e.dicts.gpos, d.gpos, op, called, GpoKind))
                  case Pong => d == e.dicts && called == []
  {
    hide Applied, Tells, Takes;
    match m {
      case Node(op) => RecordTells(e.dicts.nodes, op, NodeKind);
      case Source(op) => RecordTells(e.dicts.sources, op, SourceKind);
      case Destination(op) => RecordTells(e.dicts.destinations, op, DestinationKind);
      case GpiPort(op) => RecordTells(e.dicts.gpis, op, GpiKind);
      case GpoPort(op) => RecordTells(e.dicts.gpos, op, GpoKind);
      case Pong =>
    }
  }

  /** A record that changes or removes what the engine does not have. */
  predicate Unknown(d: View, m: Message) {
    match m
    case Node(op) => op.Remove? && op.key !in d.nodes
    case Source(op) => !op.Add? && op.key !in d.sources
    case Destination(op) => !op.Add? && op.key !in d.destinations
    case GpiPort(op) => !op.Add? && op.key !in d.gpis
    case GpoPort(op) => !op.Add? && op.key !in d.gpos
    case _ => false
  }

  /** Only such a record ends the engine, and it does nothing else. */
  lemma UnknownEndsEngine(e: Engine, m: Message)
    ensures Step(e, m).failed <==> e.failed || Unknown(e.dicts, m)
    ensures Step(e, m).failed ==> Step(e, m) == e.(failed := true)
  {
    hide Applied, CallbackFor;
  }

  lemma RecordTells<K, V>(m: map<K, V>, op: Op<K, V>, kind: Kind)
    ensures Known(m, op) ==>
              Takes(m, Applied(m, op), op) && Tells(m, Applied(m, op), op, CallbackFor(m, op, kind), kind)
  {
    if Known(m, op) {
      CallbackTellsTheChange(m, op, kind);
    }
  }

  /** In order of subscription, and silent before ready. */
  predicate Orderly(e: Engine) {
    InOrder(e) && ReadyFirstAndOnce(e)
  }

  lemma CalledStaysOrderly(e: Engine, c: seq<Callback>, d: View, failed: bool)
    requires Orderly(e) && forall i :: 0 <= i < |c| ==> c[i] != Ready
    ensures Orderly(Called(e, c).(dicts := d)) && Orderly(e.(failed := failed))
  {
  }

  /** The ladder of subscriptions, by number. */
  lemma OkByNumber(e: Engine)
    requires e.flags == FlagsUpTo(Acknowledged(e.flags))
    ensures var n := Acknowledged(e.flags);
            OkStep(e) == if n == 8 then e
                         else if n == 7 then
                           e.(flags := FlagsUpTo(8), loaded := true, callbacks := e.callbacks + [Ready])
                         else e.(flags := FlagsUpTo(n + 1), requests := e.requests + [RequestText(n + 1)])
  {
  }

  /** An acknowledgement moves on by one subscription, until all eight are there. */
  lemma OkKeepsOrder(e: Engine)
    ensures InOrder(e) ==>
              InOrder(OkStep(e)) &&
              Acknowledged(OkStep(e).flags) == if Acknowledged(e.flags) < 8 then Acknowledged(e.flags) + 1 else 8
  {
    hide OkStep, RequestText;
    if InOrder(e) {
      OkByNumber(e);
    }
  }

  lemma OkStaysOrderly(e: Engine)
    requires Orderly(e)
    ensures Orderly(OkStep(e)) && OkStep(e).dicts == e.dicts && OkStep(e).failed == e.failed
    ensures Acknowledged(e.flags) < 8 ==> Acknowledged(OkStep(e).flags) == Acknowledged(e.flags) + 1
  {
    hide OkStep, RequestTexts, RequestText;
    OkByNumber(e);
    OkKeepsOrder(e);
  }

  /** Whatever is received, the engine stays in order. */
  lemma StepStaysOrderly(e: Engine, m: Message)
    requires Orderly(e)
    ensures Orderly(Step(e, m))
  {
    hide Applied, OkStep, Orderly;
    var d := e.dicts;
    if !e.failed {
      match m {
        case Node(op) =>
          CalledStaysOrderly(e, CallbackFor(d.nodes, op, NodeKind), d.(nodes := Applied(d.nodes, op)), true);
        case Source(op) =>
          CalledStaysOrderly(e, CallbackFor(d.sources, op, SourceKind), d.(sources := Applied(d.sources, op)), true);
        case Destination(op) =>
          CalledStaysOrderly(e, CallbackFor(d.destinations, op, DestinationKind),
                             d.(destinations := Applied(d.destinations, op)), true);
        case GpiPort(op) =>
          CalledStaysOrderly(e, CallbackFor(d.gpis, op, GpiKind), d.(gpis := Applied(d.gpis, op)), true);
        case GpoPort(op) =>
          CalledStaysOrderly(e, CallbackFor(d.gpos, op, GpoKind), d.(gpos := Applied(d.gpos, op)), true);
        case Ok => OkStaysOrderly(e);
        case Pong =>
      }
    }
  }

  /** So it is after every message of a stream. */
  lemma {:induction false} AlwaysOrderly(e: Engine, ms: seq<Message>)
    requires Orderly(e)
    ensures Orderly(StepAll(e, ms))
    decreases |ms|
  {
    hide Step, Orderly;
    if ms != [] {
      StepStaysOrderly(e, ms[0]);
      AlwaysOrderly(Step(e, ms[0]), ms[1..]);
    }
  }

  /** An engine that has ended stays so: one that runs after a stream ran at every point of it. */
  lemma {:induction false} FailureIsFinal(e: Engine, ms: seq<Message>)
    requires e.failed
    ensures StepAll(e, ms) == e
    decreases |ms|
  {
    if ms != [] {
      FailureIsFinal(Step(e, ms[0]), ms[1..]);
    }
  }

  lemma RanThroughout(e: Engine, ms: seq<Message>, n: nat)
    requires n <= |ms| && !StepAll(e, ms).failed
    ensures !StepAll(e, ms[..n]).failed
  {
    hide StepAll;
    assert ms[..n] + ms[n..] == ms;
    StepAppend(e, ms[..n], ms[n..]);
    if StepAll(e, ms[..n]).failed {
      FailureIsFinal(StepAll(e, ms[..n]), ms[n..]);
    }
  }
}
