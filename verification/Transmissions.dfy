/** What the retransmission thread hands to the outbound queue over a run, message by message. */
module Transmissions {
  import opened Bytes
  import opened TbFormat
  import opened Node
  import opened Retransmission

  /** The packet type, in the low half of a message's first byte. */
  function TypeOf(k: Kind): nat {
    match k { case PB => 2 case TB => TB_TYPE case PR => 3 case NE => 7 case NER => 9 }
  }

  predicate IsOfKind(b: seq<byte>, k: Kind) {
    b != [] && b[0] % 16 == TypeOf(k)
  }

  /** How many of the messages are of kind `k`. */
  function OfKind(messages: seq<seq<byte>>, k: Kind): nat {
    if messages == [] then 0 else (if IsOfKind(messages[0], k) then 1 else 0) + OfKind(messages[1..], k)
  }

  /** Each kind's message pointer holds a message of that kind. */
  ghost predicate Labelled(s: Rt) {
    forall k | k in s.msg :: IsOfKind(s.msg[k], k)
  }

  lemma {:induction false} CountsAdd(a: seq<seq<byte>>, b: seq<seq<byte>>, k: Kind)
    ensures OfKind(a + b, k) == OfKind(a, k) + OfKind(b, k)
    decreases |a|
  {
    if a == [] {
      assert a + b == b;
    } else {
      assert (a + b)[1..] == a[1..] + b;
      CountsAdd(a[1..], b, k);
    }
  }

  lemma OneFromTurn(s: Rt, j: Kind, act: nat, k: Kind)
    requires Consistent(s) && Labelled(s)
    ensures OfKind(QueuedOf(s, j, act), k) == if j == k && Due(s, k, act) then 1 else 0
  {
    if Due(s, j, act) {
      var queue := [s.msg[j]];
      assert queue[1..] == [] && IsOfKind(s.msg[j], j);
    }
  }

  lemma {:induction false} OneFromTurns(s: Rt, todo: seq<Kind>, act: nat, k: Kind)
    requires Consistent(s) && Labelled(s) && Ranked(todo)
    ensures OfKind(QueuedAll(s, todo, act), k) == if k in todo && Due(s, k, act) then 1 else 0
    decreases |todo|
  {
    if todo != [] {
      RankedTail(todo);
      OneFromTurn(s, todo[0], act, k);
      OneFromTurns(s, todo[1..], act, k);
      CountsAdd(QueuedOf(s, todo[0], act), QueuedAll(s, todo[1..], act), k);
      assert todo == [todo[0]] + todo[1..];
    }
  }

  /** A pass sends one message of a kind that is armed and overdue, and none of any other. */
  lemma OneOfKind(s: Rt, act: nat, k: Kind)
    requires Consistent(s) && Labelled(s)
    ensures OfKind(Queued(s, act), k) == if Armed(s, k) && act > s.time.At(k) then 1 else 0
  {
    assert k == ORDER[Rank(k)];
    OneFromTurns(s, ORDER, act, k);
  }

  lemma {:induction false} QueuedFromTurns(s: Rt, todo: seq<Kind>, act: nat, k: Kind)
    requires k in todo && k in s.msg && Due(s, k, act)
    ensures s.msg[k] in QueuedAll(s, todo, act)
    decreases |todo|
  {
    if todo[0] != k {
      QueuedFromTurns(s, todo[1..], act, k);
    } else {
      assert QueuedOf(s, k, act)[0] == s.msg[k];
    }
  }

  /** The message of a kind that is due is among those that a pass sends. */
  lemma QueuesMessage(s: Rt, act: nat, k: Kind)
    requires k in s.msg && Due(s, k, act)
    ensures s.msg[k] in Queued(s, act)
  {
    assert k == ORDER[Rank(k)];
    QueuedFromTurns(s, ORDER, act, k);
  }

  // ---------------------------------------------------------------- messages keep their kind

  lemma ServeLabelled(s: Rt, k: Kind, act: nat, timeout: nat)
    requires Consistent(s) && Labelled(s)
    ensures Labelled(Serve(s, k, act, timeout))
  {
    if Due(s, k, act) && k == TB {
      assert WithNextPbid(s.msg[TB])[0] == s.msg[TB][0];
    }
  }

  lemma PassLabelled(s: Rt, act: nat, draw: PerKind)
    requires Consistent(s) && Labelled(s)
    ensures Labelled(Pass(s, act, draw))
  {
    var s1 := Serve(s, PB, act, draw.At(PB));
    var s2 := Serve(s1, TB, act, draw.At(TB));
    var s3 := Serve(s2, PR, act, draw.At(PR));
    var s4 := Serve(s3, NE, act, draw.At(NE));
    PassInOrder(s, act, draw);
    ServeLabelled(s, PB, act, draw.At(PB));
    ServeLabelled(s1, TB, act, draw.At(TB));
    ServeLabelled(s2, PR, act, draw.At(PR));
    ServeLabelled(s3, NE, act, draw.At(NE));
    ServeLabelled(s4, NER, act, draw.At(NER));
  }

  /** Whatever is armed is handed a message of its kind. */
  predicate Labels(e: TimerEvent) {
    match e
    case Arm(k, msg, _, _) => IsOfKind(msg, k)
    case ArmTb(msg, _) => IsOfKind(msg, TB)
    case Replace(msg) => IsOfKind(msg, TB)
    case _ => true
  }

  /** What every state of a run keeps. */
  ghost predicate Sound(s: Timed, slack: nat) {
    Punctual(s, slack) && Labelled(s.rt)
  }

  /** A run that begins soundly, and arms messages of the right kind. */
  ghost predicate Sends(s: Timed, events: seq<TimerEvent>, slack: nat) {
    Sound(s, slack) && TimerRun(s, events, slack) && forall i | 0 <= i < |events| :: Labels(events[i])
  }

  lemma StepIsSound(s: Timed, e: TimerEvent, slack: nat)
    requires Sound(s, slack) && TimerEnabled(s, e, slack) && Labels(e)
    ensures Sound(TimerNext(s, e), slack)
  {
    StepStaysPunctual(s, e, slack);
    if e.Wake? {
      PassLabelled(s.rt, e.act, e.draw);
    }
  }

  lemma Continues(s: Timed, events: seq<TimerEvent>, slack: nat)
    requires Sends(s, events, slack) && events != []
    ensures Labels(events[0]) && TimerEnabled(s, events[0], slack)
    ensures Sends(TimerNext(s, events[0]), events[1..], slack)
    ensures TimerAfter(s, events, slack) == TimerAfter(TimerNext(s, events[0]), events[1..], slack)
  {
    StepIsSound(s, events[0], slack);
  }

  /** What an event hands to the outbound queue. */
  function SentIn(s: Timed, e: TimerEvent): seq<seq<byte>> {
    if e.Wake? then Queued(s.rt, e.act) else []
  }

  /** What a run does. */
  ghost function Sent(s: Timed, events: seq<TimerEvent>, slack: nat): seq<seq<byte>>
    requires Sends(s, events, slack)
    decreases |events|
  {
    if events == [] then []
    else
      Continues(s, events, slack);
      SentIn(s, events[0]) + Sent(TimerNext(s, events[0]), events[1..], slack)
  }

  lemma SentFirst(s: Timed, events: seq<TimerEvent>, slack: nat, k: Kind)
    requires Sends(s, events, slack) && events != []
    ensures Sends(TimerNext(s, events[0]), events[1..], slack)
    ensures OfKind(Sent(s, events, slack), k)
      == OfKind(SentIn(s, events[0]), k) + OfKind(Sent(TimerNext(s, events[0]), events[1..], slack), k)
  {
    Continues(s, events, slack);
    CountsAdd(SentIn(s, events[0]), Sent(TimerNext(s, events[0]), events[1..], slack), k);
  }

  /** The event arms kind `k` anew. */
  predicate Arms(e: TimerEvent, k: Kind) {
    (e.Arm? && e.kind == k) || (e.ArmTb? && k == TB)
  }

  predicate ArmsNot(events: seq<TimerEvent>, k: Kind) {
    forall i | 0 <= i < |events| :: !Arms(events[i], k)
  }

  // ---------------------------------------------------------------- never too often

  /** `n` timeouts one after another. */
  function Times(n: nat, timeout: nat): nat {
    if n == 0 then 0 else timeout + Times(n - 1, timeout)
  }

  lemma {:induction false} TimesIs(n: nat, timeout: nat)
    ensures Times(n, timeout) == n * timeout
  {
    if n > 0 {
      TimesIs(n - 1, timeout);
      assert n * timeout == timeout + (n - 1) * timeout;
    }
  }

  lemma {:induction false} TimesAdd(m: nat, n: nat, timeout: nat)
    ensures Times(m + n, timeout) == Times(m, timeout) + Times(n, timeout)
  {
    if m > 0 {
      TimesAdd(m - 1, n, timeout);
    }
  }

  /** A deadline that has moved by `n` timeouts. */
  predicate Moved(before: nat, after: nat, n: nat, k: Kind) {
    before + Times(n, MinTimeout(k)) <= after <= before + Times(n, MaxTimeout(k) + 1)
  }

  /** The clock after `n` messages from a deadline on. */
  predicate Passed(deadline: nat, n: nat, k: Kind, now: nat) {
    n > 0 ==> deadline + Times(n - 1, MinTimeout(k)) < now
  }

  lemma MovedOnce(before: nat, k: Kind, timeout: nat)
    requires LegalTimeout(k, timeout)
    ensures Moved(before, before, 0, k) && Moved(before, before + timeout, 1, k)
  {
    TimesIs(1, MinTimeout(k));
    TimesIs(1, MaxTimeout(k) + 1);
  }

  lemma MovedTwice(a: nat, b: nat, c: nat, m: nat, n: nat, k: Kind)
    requires Moved(a, b, m, k) && Moved(b, c, n, k)
    ensures Moved(a, c, m + n, k)
  {
    TimesAdd(m, n, MinTimeout(k));
    TimesAdd(m, n, MaxTimeout(k) + 1);
  }

  lemma PassedOnce(deadline: nat, k: Kind, now: nat)
    requires deadline < now
    ensures Passed(deadline, 1, k, now)
  {
  }

  lemma PassedLater(a: nat, b: nat, m: nat, n: nat, k: Kind, now: nat)
    requires n > 0 && Moved(a, b, m, k) && Passed(b, n, k, now)
    ensures Passed(a, m + n, k, now)
  {
    TimesAdd(m, n - 1, MinTimeout(k));
  }

  /** One step of a kind that is not armed anew: a message if and only if its deadline has passed, which then moves. */
  lemma StepOfKind(s: Timed, e: TimerEvent, slack: nat, k: Kind)
    requires Sound(s, slack) && TimerEnabled(s, e, slack) && Labels(e) && !Arms(e, k)
    ensures var t := TimerNext(s, e); var n := OfKind(SentIn(s, e), k);
      && n <= 1 && s.now <= t.now && (e.Wake? ==> t.now == e.act)
      && (n == 1 <==> e.Wake? && Armed(s.rt, k) && s.rt.time.At(k) < e.act)
      && (Armed(t.rt, k) ==> Armed(s.rt, k) && Moved(s.rt.time.At(k), t.rt.time.At(k), n, k))
  {
    match e
    case Arm(j, msg, act, timeout) =>
      OtherBits(s.rt, j, k);
      MovedOnce(s.rt.time.At(k), k, MinTimeout(k));
    case ArmTb(msg, act) =>
      OtherBits(s.rt, TB, k);
      MovedOnce(s.rt.time.At(k), k, MinTimeout(k));
    case Replace(msg) => MovedOnce(s.rt.time.At(k), k, MinTimeout(k));
    case Disarm(j) =>
      OtherBits(s.rt, j, k);
      MovedOnce(s.rt.time.At(k), k, MinTimeout(k));
    case Wake(act, draw) => WakeOfKind(s, act, draw, slack, k);
  }

  lemma WakeOfKind(s: Timed, act: nat, draw: PerKind, slack: nat, k: Kind)
    requires Sound(s, slack) && TimerEnabled(s, Wake(act, draw), slack)
    ensures var t := Pass(s.rt, act, draw); var n := OfKind(Queued(s.rt, act), k);
      && n == (if Armed(s.rt, k) && act > s.rt.time.At(k) then 1 else 0)
      && (Armed(t, k) ==> Armed(s.rt, k) && Moved(s.rt.time.At(k), t.time.At(k), n, k))
  {
    OneOfKind(s.rt, act, k);
    assert LegalTimeout(k, draw.At(k));
    MovedOnce(s.rt.time.At(k), k, draw.At(k));
    if Armed(Pass(s.rt, act, draw), k) {
      PassDeadline(s.rt, act, draw, k);
    }
  }

  /** What is not armed is not sent. */
  lemma {:induction false} DisarmedIsSilent(s: Timed, events: seq<TimerEvent>, slack: nat, k: Kind)
    requires Sends(s, events, slack) && ArmsNot(events, k) && !Armed(s.rt, k)
    ensures OfKind(Sent(s, events, slack), k) == 0 && !Armed(TimerAfter(s, events, slack).rt, k)
    decreases |events|
  {
    if events != [] {
      Continues(s, events, slack);
      SentFirst(s, events, slack, k);
      StepOfKind(s, events[0], slack, k);
      DisarmedIsSilent(TimerNext(s, events[0]), events[1..], slack, k);
    }
  }

  /** From state `s` to state `t`, with `n` messages of the kind in between. */
  ghost predicate Keeps(s: Timed, t: Timed, n: nat, k: Kind) {
    && s.now <= t.now
    && (n > 0 ==> Armed(s.rt, k)) && Passed(s.rt.time.At(k), n, k, t.now)
    && (Armed(t.rt, k) ==> Armed(s.rt, k) && Moved(s.rt.time.At(k), t.rt.time.At(k), n, k))
  }

  lemma KeepsNow(s: Timed, k: Kind)
    ensures Keeps(s, s, 0, k)
  {
    MovedOnce(s.rt.time.At(k), k, MinTimeout(k));
  }

  lemma KeepsStep(s: Timed, e: TimerEvent, slack: nat, k: Kind)
    requires Sound(s, slack) && TimerEnabled(s, e, slack) && Labels(e) && !Arms(e, k)
    ensures OfKind(SentIn(s, e), k) <= 1 && Keeps(s, TimerNext(s, e), OfKind(SentIn(s, e), k), k)
  {
    StepOfKind(s, e, slack, k);
    if OfKind(SentIn(s, e), k) == 1 {
      PassedOnce(s.rt.time.At(k), k, TimerNext(s, e).now);
    }
  }

  /** The first event of a run: the state after it, and how many messages it sends. */
  lemma FirstOfKind(s: Timed, events: seq<TimerEvent>, slack: nat, k: Kind) returns (t: Timed, m: nat)
    requires Sends(s, events, slack) && ArmsNot(events, k) && events != []
    ensures m <= 1 && Keeps(s, t, m, k) && Sends(t, events[1..], slack) && ArmsNot(events[1..], k)
    ensures TimerAfter(s, events, slack) == TimerAfter(t, events[1..], slack)
    ensures OfKind(Sent(s, events, slack), k) == m + OfKind(Sent(t, events[1..], slack), k)
  {
    Continues(s, events, slack);
    SentFirst(s, events, slack, k);
    KeepsStep(s, events[0], slack, k);
    t, m := TimerNext(s, events[0]), OfKind(SentIn(s, events[0]), k);
  }

  lemma KeepsOn(s: Timed, t: Timed, u: Timed, m: nat, n: nat, k: Kind)
    requires m <= 1 && Keeps(s, t, m, k) && Keeps(t, u, n, k)
    ensures Keeps(s, u, m + n, k)
  {
    if n > 0 {
      PassedLater(s.rt.time.At(k), t.rt.time.At(k), m, n, k, u.now);
    } else if m == 1 {
      PassedOnce(s.rt.time.At(k), k, u.now);
    }
    if Armed(u.rt, k) {
      MovedTwice(s.rt.time.At(k), t.rt.time.At(k), u.rt.time.At(k), m, n, k);
    }
  }

  /**
   * Messages of one kind are at least its least timeout apart, and none is sent before the deadline:
   * over every run without a new start, `n` of them put the clock past the deadline and `n - 1`
   * least timeouts, and as long as the kind is armed its deadline has moved by `n` timeouts.
   */
  lemma {:induction false} NeverEarly(s: Timed, events: seq<TimerEvent>, slack: nat, k: Kind)
    requires Sends(s, events, slack) && ArmsNot(events, k)
    ensures Keeps(s, TimerAfter(s, events, slack), OfKind(Sent(s, events, slack), k), k)
    decreases |events|
  {
    if events == [] {
      KeepsNow(s, k);
    } else {
      var t, m := FirstOfKind(s, events, slack, k);
      NeverEarly(t, events[1..], slack, k);
      KeepsOn(s, t, TimerAfter(t, events[1..], slack), m, OfKind(Sent(t, events[1..], slack), k), k);
    }
  }

  lemma PassedFromStart(act: nat, timeout: nat, n: nat, k: Kind, now: nat)
    requires LegalTimeout(k, timeout) && Passed(act + timeout, n, k, now) && n > 0
    ensures act + n * MinTimeout(k) < now
  {
    TimesIs(n, MinTimeout(k));
  }

  /** From starting a retransmission on, the `n`th message comes no sooner than `n` least timeouts later. */
  lemma StartedIsSlow(s: Timed, k: Kind, msg: seq<byte>, act: nat, timeout: nat, events: seq<TimerEvent>, slack: nat)
    requires Sends(s, [Arm(k, msg, act, timeout)] + events, slack) && ArmsNot(events, k)
    ensures var all := [Arm(k, msg, act, timeout)] + events; var n := OfKind(Sent(s, all, slack), k);
      n > 0 ==> act + n * MinTimeout(k) < TimerAfter(s, all, slack).now
  {
    var all := [Arm(k, msg, act, timeout)] + events;
    var n := OfKind(Sent(s, all, slack), k);
    FromStart(s, all, slack, k);
    if n > 0 {
      PassedFromStart(act, timeout, n, k, TimerAfter(s, all, slack).now);
    }
  }

  /** What is sent after an event that sends nothing itself. */
  lemma FromStart(s: Timed, all: seq<TimerEvent>, slack: nat, k: Kind)
    requires Sends(s, all, slack) && all != [] && !all[0].Wake? && ArmsNot(all[1..], k)
    ensures TimerEnabled(s, all[0], slack)
    ensures Passed(TimerNext(s, all[0]).rt.time.At(k), OfKind(Sent(s, all, slack), k), k, TimerAfter(s, all, slack).now)
  {
    Continues(s, all, slack);
    SentFirst(s, all, slack, k);
    NeverEarly(TimerNext(s, all[0]), all[1..], slack, k);
  }

  /** A TB that is begun is first sent later than the generation delay, and then at least six seconds apart. */
  lemma BegunIsSlow(s: Timed, msg: seq<byte>, act: nat, events: seq<TimerEvent>, slack: nat)
    requires Sends(s, [ArmTb(msg, act)] + events, slack) && ArmsNot(events, TB)
    ensures var all := [ArmTb(msg, act)] + events; var n := OfKind(Sent(s, all, slack), TB);
      n > 0 ==> act + 1_000_000 + (n - 1) * 6_000_000_000 < TimerAfter(s, all, slack).now
  {
    var all := [ArmTb(msg, act)] + events;
    FromStart(s, all, slack, TB);
    if OfKind(Sent(s, all, slack), TB) > 0 {
      TimesIs(OfKind(Sent(s, all, slack), TB) - 1, MinTimeout(TB));
    }
  }

  // ---------------------------------------------------------------- the counters

  /** Kind `j` in state `t`, if it is still armed, after its counter has gone up by one, in a byte, if it is `sent`. */
  ghost predicate CountedOn(s: Rt, t: Rt, sent: bool, j: Kind) {
    Armed(t, j) ==> Armed(s, j) && t.amm.At(j) == if sent then (s.amm.At(j) + 1) % 256 else s.amm.At(j)
  }

  lemma ServedCounter(s: Rt, j: Kind, act: nat, draw: PerKind)
    requires Consistent(s)
    ensures CountedOn(s, Serve(s, j, act, draw.At(j)), Due(s, j, act), j)
  {
    OtherBits(s, NE, j);
  }

  /** What the turn of kind `k` does to the counter of kind `j`. */
  lemma TurnCounter(s: Rt, k: Kind, act: nat, draw: PerKind, j: Kind)
    requires Consistent(s)
    ensures CountedOn(s, Serve(s, k, act, draw.At(k)), j == k && Due(s, j, act), j)
    ensures j != k ==> (Due(Serve(s, k, act, draw.At(k)), j, act) <==> Due(s, j, act))
  {
    if j == k {
      ServedCounter(s, j, act, draw);
    } else {
      ServesOnlyOne(s, k, act, draw.At(k), j);
    }
  }

  lemma {:induction false} TurnsCount(s: Rt, todo: seq<Kind>, act: nat, draw: PerKind, j: Kind)
    requires Consistent(s) && Ranked(todo)
    ensures CountedOn(s, ServeAll(s, todo, act, draw), j in todo && Due(s, j, act), j)
    decreases |todo|
  {
    if todo != [] {
      RankedTail(todo);
      var k, rest := todo[0], todo[1..];
      var t := Serve(s, k, act, draw.At(k));
      TurnCounter(s, k, act, draw, j);
      TurnsCount(t, rest, act, draw, j);
      CountedOnce(s, t, ServeAll(t, rest, act, draw), j == k && Due(s, j, act), j in rest && Due(t, j, act), j);
      assert todo == [k] + rest;
    }
  }

  lemma CountedOnce(s: Rt, t: Rt, u: Rt, now: bool, later: bool, j: Kind)
    requires CountedOn(s, t, now, j) && CountedOn(t, u, later, j) && !(now && later)
    ensures CountedOn(s, u, now || later, j)
  {
  }

  /** A pass counts each kind that it sends, once, and no other. */
  lemma PassCounts(s: Rt, act: nat, draw: PerKind, j: Kind)
    requires Consistent(s)
    ensures CountedOn(s, Pass(s, act, draw), Armed(s, j) && act > s.time.At(j), j)
  {
    assert j == ORDER[Rank(j)];
    TurnsCount(s, ORDER, act, draw, j);
  }

  // ---------------------------------------------------------------- never too seldom

  /**
   * A kind that is still armed has been sent often enough: at every pass the clock is at most one
   * check and the oversleep past the deadline that `n` timeouts have moved.
   */
  lemma OftenEnough(s: Timed, events: seq<TimerEvent>, slack: nat, act: nat, draw: PerKind, k: Kind)
    requires Sends(s, events, slack) && ArmsNot(events, k) && Armed(TimerAfter(s, events, slack).rt, k)
    requires TimerEnabled(TimerAfter(s, events, slack), Wake(act, draw), slack)
    ensures var n := OfKind(Sent(s, events, slack), k);
      act <= s.rt.time.At(k) + n * (MaxTimeout(k) + 1) + 1_000_000_000 + slack
  {
    NeverEarly(s, events, slack, k);
    TimesIs(OfKind(Sent(s, events, slack), k), MaxTimeout(k) + 1);
    RunStaysPunctual(s, events, slack);
  }

  // ---------------------------------------------------------------- giving up on NE

  /** What one transmission does to the NE: it is counted, and the fifth is the last. */
  ghost predicate NeServed(s: Rt, t: Rt, act: nat) {
    if !Due(s, NE, act) then SameKind(s, t, NE) && t.status == s.status
    else if s.amm.At(NE) + 1 < RETRANSMISSION_ATTEMPTS_NE then
      Armed(t, NE) && t.amm.At(NE) == s.amm.At(NE) + 1 && t.status == s.status
    else !Armed(t, NE) && t.status == Outside
  }

  lemma ServeCountsNe(s: Rt, act: nat, timeout: nat)
    requires Consistent(s)
    ensures NeServed(s, Serve(s, NE, act, timeout), act)
  {
    OtherBits(s, NE, NE);
  }

  lemma ServeSparesNe(s: Rt, k: Kind, act: nat, timeout: nat)
    requires Consistent(s) && k != NE
    ensures SameKind(s, Serve(s, k, act, timeout), NE) && Serve(s, k, act, timeout).status == s.status
  {
    ServesOnlyOne(s, k, act, timeout, NE);
  }

  lemma PassCountsNe(s: Rt, act: nat, draw: PerKind)
    requires Consistent(s)
    ensures NeServed(s, Pass(s, act, draw), act)
  {
    var s1 := Serve(s, PB, act, draw.At(PB));
    var s2 := Serve(s1, TB, act, draw.At(TB));
    var s3 := Serve(s2, PR, act, draw.At(PR));
    var s4 := Serve(s3, NE, act, draw.At(NE));
    PassInOrder(s, act, draw);
    ServeSparesNe(s, PB, act, draw.At(PB));
    ServeSparesNe(s1, TB, act, draw.At(TB));
    ServeSparesNe(s2, PR, act, draw.At(PR));
    ServeCountsNe(s3, act, draw.At(NE));
    ServeSparesNe(s4, NER, act, draw.At(NER));
    assert SameKind(s, s3, NE) && s3.status == s.status;
    assert SameKind(s4, Pass(s, act, draw), NE);
  }

  /** What is left of the five attempts. */
  ghost function NeLeft(s: Rt): int {
    if Armed(s, NE) then RETRANSMISSION_ATTEMPTS_NE - s.amm.At(NE) else 0
  }

  /** Each NE that goes out uses up one attempt; nothing but disarming gives one up unused. */
  lemma NeStep(s: Timed, e: TimerEvent, slack: nat)
    requires Sound(s, slack) && TimerEnabled(s, e, slack) && Labels(e) && !Arms(e, NE)
    ensures var t := TimerNext(s, e); var n := OfKind(SentIn(s, e), NE);
      && NeLeft(t.rt) + n <= NeLeft(s.rt)
      && (n > 0 ==> Armed(s.rt, NE) && (Armed(t.rt, NE) || t.rt.status == Outside))
      && (s.rt.status == Outside ==> t.rt.status == Outside)
      && (!(e.Disarm? && e.kind == NE) ==> NeLeft(t.rt) + n == NeLeft(s.rt))
  {
    match e
    case Arm(k, msg, act, timeout) => OtherBits(s.rt, k, NE);
    case ArmTb(msg, act) => OtherBits(s.rt, TB, NE);
    case Replace(msg) =>
    case Disarm(k) => OtherBits(s.rt, k, NE);
    case Wake(act, draw) =>
      OneOfKind(s.rt, act, NE);
      PassCountsNe(s.rt, act, draw);
  }

  /** Nothing in the run stops the NE from outside. */
  predicate NeLeftAlone(events: seq<TimerEvent>) {
    forall i | 0 <= i < |events| :: events[i] != Disarm(NE)
  }

  /**
   * Per arming, at most five NEs go out; unless the NE is stopped from outside, those sent and those
   * left make up the attempts there were; and if all are sent the node ends up outside with the NE
   * disarmed.
   */
  lemma {:induction false} FiveNesThenOutside(s: Timed, events: seq<TimerEvent>, slack: nat)
    requires Sends(s, events, slack) && ArmsNot(events, NE)
    ensures var n := OfKind(Sent(s, events, slack), NE); var t := TimerAfter(s, events, slack).rt;
      && n + NeLeft(t) <= NeLeft(s.rt) <= 5
      && (NeLeftAlone(events) ==> n + NeLeft(t) == NeLeft(s.rt))
      && (s.rt.status == Outside ==> t.status == Outside)
      && (n == NeLeft(s.rt) > 0 ==> !Armed(t, NE) && t.status == Outside)
    decreases |events|
  {
    if events != [] {
      var e, rest := events[0], events[1..];
      Continues(s, events, slack);
      SentFirst(s, events, slack, NE);
      NeStep(s, e, slack);
      var t := TimerNext(s, e);
      FiveNesThenOutside(t, rest, slack);
      if !Armed(t.rt, NE) {
        DisarmedIsSilent(t, rest, slack, NE);
      }
    }
  }
}
