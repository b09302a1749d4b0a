/** The retransmission thread: five kinds of message, each with a bit, a deadline, a counter and a buffer. */
module Retransmission {
  import opened Bytes
  import opened TbFormat
  import opened Node

  datatype Kind = PB | TB | PR | NE | NER

  /** One number per kind of message. */
  datatype PerKind = PerKind(pb: nat, tb: nat, pr: nat, ne: nat, ner: nat) {
    function At(k: Kind): nat {
      match k { case PB => pb case TB => tb case PR => pr case NE => ne case NER => ner }
    }

    function With(k: Kind, n: nat): (r: PerKind)
      ensures forall j: Kind :: r.At(j) == if j == k then n else At(j)
    {
      match k
      case PB => this.(pb := n)
      case TB => this.(tb := n)
      case PR => this.(pr := n)
      case NE => this.(ne := n)
      case NER => this.(ner := n)
    }
  }

  const DEFAULT_RETRANSMIT_CHECK := 1_000_000_000
  const TB_GENERATION_DELAY := 1_000_000
  const RETRANSMISSION_ATTEMPTS_NE := 5

  /** `Self.Rt` and `Self.Status`; a kind is in `msg` when its message pointer is not NULL. */
  datatype Rt = Rt(bits: byte, time: PerKind, amm: PerKind, msg: map<Kind, seq<byte>>, status: Status)

  /** `rPB = 1` up to `rNER = 5`, counted from the least significant bit. */
  function BitOf(k: Kind): (r: nat)
    ensures r < 8
  {
    7 - match k { case PB => 1 case TB => 2 case PR => 3 case NE => 4 case NER => 5 }
  }

  predicate Armed(s: Rt, k: Kind) {
    Bit(s.bits, BitOf(k))
  }

  // ---------------------------------------------------------------- timeouts

  function MinTimeout(k: Kind): nat {
    match k
    case PB => 3_000_000_000
    case TB => 6_000_000_000
    case PR => 1_000_000_000
    case NE => 2_000_000_000
    case NER => 2_000_000_000
  }

  function MaxTimeout(k: Kind): nat {
    match k
    case PB => 5_000_000_000
    case TB => 7_000_000_000
    case PR => 2_000_000_000
    case NE => 3_000_000_000
    case NER => 3_000_000_000
  }

  /** The `range` macro: `r` stands for `rand()/RAND_MAX`, which can be 1. */
  function Timeout(k: Kind, r: real): int {
    (r * (MaxTimeout(k) - MinTimeout(k) + 1) as real + MinTimeout(k) as real).Floor
  }

  predicate LegalTimeout(k: Kind, t: nat) {
    MinTimeout(k) <= t <= MaxTimeout(k) + 1
  }

  /** A timeout is never below its minimum, and exceeds its maximum only on the largest random number. */
  lemma TimeoutBounds(k: Kind, r: real)
    requires 0.0 <= r <= 1.0
    ensures MinTimeout(k) <= Timeout(k, r) <= MaxTimeout(k) + 1
    ensures Timeout(k, r) <= MaxTimeout(k) <==> r < 1.0
  {
    var width := (MaxTimeout(k) - MinTimeout(k) + 1) as real;
    assert 0.0 <= r * width <= width;
    assert r < 1.0 ==> r * width < width;
  }

  // ---------------------------------------------------------------- start, stop, one pass

  function Start(s: Rt, k: Kind, msg: seq<byte>, act: nat, timeout: nat): Rt {
    s.(bits := WithBit(s.bits, BitOf(k)), time := s.time.With(k, act + timeout),
       amm := s.amm.With(k, 0), msg := s.msg[k := msg])
  }

  function Stop(s: Rt, k: Kind): Rt {
    s.(bits := Cleared(s.bits, BitOf(k)), msg := s.msg - {k})
  }

  predicate Due(s: Rt, k: Kind, act: nat) {
    Armed(s, k) && act > s.time.At(k)
  }

  /** Transmitting once: count, move the deadline, bump a TB's PBID, give up on the fifth NE. */
  function Fired(s: Rt, k: Kind, timeout: nat): Rt
    requires k in s.msg && |s.msg[k]| >= (if k == TB then TB_HEADER else 0)
  {
    var t := s.(amm := s.amm.With(k, (s.amm.At(k) + 1) % 256), time := s.time.With(k, s.time.At(k) + timeout));
    if k == TB then t.(msg := s.msg[TB := WithNextPbid(s.msg[TB])])
    else if k == NE && t.amm.At(NE) == RETRANSMISSION_ATTEMPTS_NE then Stop(t, NE).(status := Outside)
    else t
  }

  /** What every reachable state keeps: a bit is set exactly when there is a message. */
  ghost predicate Consistent(s: Rt) {
    && (forall k: Kind :: Armed(s, k) <==> k in s.msg)
    && (TB in s.msg ==> |s.msg[TB]| >= TB_HEADER)
    && (NE in s.msg ==> s.amm.At(NE) < RETRANSMISSION_ATTEMPTS_NE)
  }

  /** The part of a pass that deals with kind `k`. */
  function Serve(s: Rt, k: Kind, act: nat, timeout: nat): (t: Rt)
    requires Consistent(s)
    ensures Consistent(t)
  {
    if Due(s, k, act) then
      FiredConsistent(s, k, timeout);
      Fired(s, k, timeout)
    else s
  }

  lemma OtherBits(s: Rt, k: Kind, j: Kind)
    ensures Bit(WithBit(s.bits, BitOf(k)), BitOf(j)) <==> Armed(s, j) || j == k
    ensures Bit(Cleared(s.bits, BitOf(k)), BitOf(j)) <==> Armed(s, j) && j != k
  {
    SetBits(s.bits, BitOf(k), BitOf(j));
    ClearedBits(s.bits, BitOf(k), BitOf(j));
  }

  lemma StartConsistent(s: Rt, k: Kind, msg: seq<byte>, act: nat, timeout: nat)
    requires Consistent(s) && (k == TB ==> |msg| >= TB_HEADER)
    ensures Consistent(Start(s, k, msg, act, timeout))
  {
    forall j: Kind
      ensures Armed(Start(s, k, msg, act, timeout), j) <==> Armed(s, j) || j == k
    {
      OtherBits(s, k, j);
    }
  }

  lemma StopConsistent(s: Rt, k: Kind)
    requires Consistent(s)
    ensures Consistent(Stop(s, k))
  {
    forall j: Kind
      ensures Armed(Stop(s, k), j) <==> Armed(s, j) && j != k
    {
      OtherBits(s, k, j);
    }
  }

  lemma FiredConsistent(s: Rt, k: Kind, timeout: nat)
    requires Consistent(s) && k in s.msg
    ensures Consistent(Fired(s, k, timeout))
  {
    if k == NE && s.amm.At(NE) + 1 == RETRANSMISSION_ATTEMPTS_NE {
      forall j: Kind
        ensures Armed(Fired(s, k, timeout), j) <==> Armed(s, j) && j != NE
      {
        OtherBits(s, NE, j);
      }
    }
  }

  /** The order in which `retransmit` looks at the five kinds. */
  const ORDER := [PB, TB, PR, NE, NER]

  /**
   * The rest of a pass at time `act`, in which the kinds in `todo` still have their turns; `draw`
   * gives the random timeouts.
   */
  function ServeAll(s: Rt, todo: seq<Kind>, act: nat, draw: PerKind): (t: Rt)
    requires Consistent(s)
    ensures Consistent(t)
    decreases |todo|
  {
    if todo == [] then s else ServeAll(Serve(s, todo[0], act, draw.At(todo[0])), todo[1..], act, draw)
  }

  function Pass(s: Rt, act: nat, draw: PerKind): (t: Rt)
    requires Consistent(s)
    ensures Consistent(t)
  {
    ServeAll(s, ORDER, act, draw)
  }

  lemma PassInOrder(s: Rt, act: nat, draw: PerKind)
    requires Consistent(s)
    ensures var s1 := Serve(s, PB, act, draw.At(PB));
      var s2 := Serve(s1, TB, act, draw.At(TB));
      var s3 := Serve(s2, PR, act, draw.At(PR));
      var s4 := Serve(s3, NE, act, draw.At(NE));
      Pass(s, act, draw) == Serve(s4, NER, act, draw.At(NER))
  {
    var s1 := Serve(s, PB, act, draw.At(PB));
    var s2 := Serve(s1, TB, act, draw.At(TB));
    var s3 := Serve(s2, PR, act, draw.At(PR));
    var s4 := Serve(s3, NE, act, draw.At(NE));
    assert ServeAll(s, ORDER, act, draw) == ServeAll(s1, [TB, PR, NE, NER], act, draw);
    assert ServeAll(s1, [TB, PR, NE, NER], act, draw) == ServeAll(s2, [PR, NE, NER], act, draw);
    assert ServeAll(s2, [PR, NE, NER], act, draw) == ServeAll(s3, [NE, NER], act, draw);
    assert ServeAll(s3, [NE, NER], act, draw) == ServeAll(s4, [NER], act, draw);
    assert ServeAll(s4, [NER], act, draw) == Serve(s4, NER, act, draw.At(NER));
  }

  /** How a kind narrows down the next wake-up. */
  function Sooner(s: Rt, k: Kind, act: nat, earliest: nat): nat {
    if Armed(s, k) && act <= s.time.At(k) < earliest then s.time.At(k) else earliest
  }

  function SoonerAll(s: Rt, todo: seq<Kind>, act: nat, earliest: nat): nat {
    if todo == [] then earliest else SoonerAll(s, todo[1..], act, Sooner(s, todo[0], act, earliest))
  }

  /** The instant up to which the thread may sleep, before rounding down to microseconds. */
  function Earliest(s: Rt, act: nat): nat {
    SoonerAll(s, ORDER, act, act + DEFAULT_RETRANSMIT_CHECK)
  }

  function Sleep(act: nat, earliest: nat): nat
    requires act <= earliest
  {
    (earliest - act) / 1000
  }

  /** Kind `j` looks the same in both states. */
  ghost predicate SameKind(s: Rt, t: Rt, j: Kind) {
    && (Armed(t, j) <==> Armed(s, j)) && t.time.At(j) == s.time.At(j) && t.amm.At(j) == s.amm.At(j)
    && (j in t.msg <==> j in s.msg) && (j in s.msg ==> t.msg[j] == s.msg[j])
  }

  /** Starting a kind sets its count to 0 and leaves the others alone. */
  lemma StartsOnlyOne(s: Rt, k: Kind, msg: seq<byte>, act: nat, timeout: nat, j: Kind)
    ensures var t := Start(s, k, msg, act, timeout);
      if j == k then Armed(t, j) && t.amm.At(j) == 0 && j in t.msg && t.msg[j] == msg else SameKind(s, t, j)
  {
    OtherBits(s, k, j);
  }

  lemma StopsOnlyOne(s: Rt, k: Kind, j: Kind)
    requires j != k
    ensures SameKind(s, Stop(s, k), j)
  {
    OtherBits(s, k, j);
  }

  lemma FiresOnlyOne(s: Rt, k: Kind, timeout: nat, j: Kind)
    requires k in s.msg && |s.msg[k]| >= (if k == TB then TB_HEADER else 0) && j != k
    ensures SameKind(s, Fired(s, k, timeout), j)
  {
    var t := s.(amm := s.amm.With(k, (s.amm.At(k) + 1) % 256), time := s.time.With(k, s.time.At(k) + timeout));
    assert SameKind(s, t, j);
    StopsOnlyOne(t, NE, if j == NE then k else j);
  }

  /** Serving one kind leaves the others alone. */
  lemma ServesOnlyOne(s: Rt, k: Kind, act: nat, timeout: nat, j: Kind)
    requires Consistent(s) && j != k
    ensures SameKind(s, Serve(s, k, act, timeout), j)
  {
    if Due(s, k, act) {
      FiresOnlyOne(s, k, timeout, j);
    }
  }

  /** A kind that is still armed after being served has moved its deadline exactly if it was due. */
  lemma ServedDeadline(s: Rt, k: Kind, act: nat, timeout: nat)
    requires Consistent(s) && Armed(Serve(s, k, act, timeout), k)
    ensures Armed(s, k)
    ensures Serve(s, k, act, timeout).time.At(k) == s.time.At(k) + (if Due(s, k, act) then timeout else 0)
  {
    OtherBits(s, NE, k);
  }

  /** After a whole pass, an armed kind was armed before it and moved its deadline exactly if it was due. */
  lemma PassDeadline(s: Rt, act: nat, draw: PerKind, j: Kind)
    requires Consistent(s) && Armed(Pass(s, act, draw), j)
    ensures Armed(s, j)
    ensures Pass(s, act, draw).time.At(j) == s.time.At(j) + (if Due(s, j, act) then draw.At(j) else 0)
  {
    var s1 := Serve(s, PB, act, draw.At(PB));
    var s2 := Serve(s1, TB, act, draw.At(TB));
    var s3 := Serve(s2, PR, act, draw.At(PR));
    var s4 := Serve(s3, NE, act, draw.At(NE));
    PassInOrder(s, act, draw);
    ServedOrSame(s4, NER, act, draw, j);
    ServedOrSame(s3, NE, act, draw, j);
    ServedOrSame(s2, PR, act, draw, j);
    ServedOrSame(s1, TB, act, draw, j);
    ServedOrSame(s, PB, act, draw, j);
  }

  lemma ServedOrSame(s: Rt, k: Kind, act: nat, draw: PerKind, j: Kind)
    requires Consistent(s)
    ensures var t := Serve(s, k, act, draw.At(k));
      && (j != k ==> SameKind(s, t, j))
      && (j == k && Armed(t, j) ==>
            Armed(s, j) && t.time.At(j) == s.time.At(j) + (if Due(s, j, act) then draw.At(j) else 0))
  {
    if j != k {
      ServesOnlyOne(s, k, act, draw.At(k), j);
    } else if Armed(Serve(s, k, act, draw.At(k)), k) {
      ServedDeadline(s, k, act, draw.At(k));
    }
  }

  lemma {:induction false} SoonerAllBounds(s: Rt, todo: seq<Kind>, act: nat, earliest: nat)
    requires act <= earliest
    ensures act <= SoonerAll(s, todo, act, earliest) <= earliest
    ensures forall k | k in todo && Armed(s, k) && !Due(s, k, act) :: SoonerAll(s, todo, act, earliest) <= s.time.At(k)
  {
    if todo != [] {
      SoonerAllBounds(s, todo[1..], act, Sooner(s, todo[0], act, earliest));
    }
  }

  /** The wake-up is at most one check away and never behind a deadline that is still to come. */
  lemma EarliestBounds(s: Rt, act: nat)
    ensures act <= Earliest(s, act) <= act + DEFAULT_RETRANSMIT_CHECK
    ensures forall k | Armed(s, k) && !Due(s, k, act) :: Earliest(s, act) <= s.time.At(k)
  {
    SoonerAllBounds(s, ORDER, act, act + DEFAULT_RETRANSMIT_CHECK);
    forall k: Kind
      ensures k in ORDER
    {
      assert k == ORDER[0] || k == ORDER[1] || k == ORDER[2] || k == ORDER[3] || k == ORDER[4];
    }
  }

  lemma {:induction false} SoonerAllIsDeadline(s: Rt, todo: seq<Kind>, act: nat, earliest: nat)
    ensures SoonerAll(s, todo, act, earliest) == earliest
      || exists k | k in todo && Armed(s, k) && !Due(s, k, act) :: SoonerAll(s, todo, act, earliest) == s.time.At(k)
  {
    if todo != [] {
      SoonerAllIsDeadline(s, todo[1..], act, Sooner(s, todo[0], act, earliest));
    }
  }

  /** The thread wakes for a deadline, or after a whole check, and not a microsecond early. */
  lemma WakesForDeadline(s: Rt, act: nat)
    ensures var e := Earliest(s, act);
      && act <= e
      && (e == act + DEFAULT_RETRANSMIT_CHECK || exists k :: Armed(s, k) && act <= s.time.At(k) && e == s.time.At(k))
      && act + 1000 * Sleep(act, e) <= e < act + 1000 * Sleep(act, e) + 1000
  {
    EarliestBounds(s, act);
    SoonerAllIsDeadline(s, ORDER, act, act + DEFAULT_RETRANSMIT_CHECK);
  }

  /** What kind `k` adds to the outbound queue in a pass. */
  function QueuedOf(s: Rt, k: Kind, act: nat): seq<seq<byte>> {
    if Due(s, k, act) && k in s.msg then [s.msg[k]] else []
  }

  function QueuedAll(s: Rt, todo: seq<Kind>, act: nat): seq<seq<byte>> {
    if todo == [] then [] else QueuedOf(s, todo[0], act) + QueuedAll(s, todo[1..], act)
  }

  /** The messages of the kinds that are due, in the order of the pass. */
  function Queued(s: Rt, act: nat): seq<seq<byte>> {
    QueuedAll(s, ORDER, act)
  }

  /** The position of a kind in a pass. */
  function Rank(k: Kind): nat {
    match k { case PB => 0 case TB => 1 case PR => 2 case NE => 3 case NER => 4 }
  }

  ghost predicate Ranked(kinds: seq<Kind>) {
    forall i, j | 0 <= i < j < |kinds| :: Rank(kinds[i]) < Rank(kinds[j])
  }

  /** The kinds among `todo` that are armed and whose deadline has passed, in the order of the pass. */
  ghost predicate DueAmong(s: Rt, act: nat, todo: seq<Kind>, due: seq<Kind>) {
    Ranked(due) && forall k: Kind :: k in due <==> k in todo && Armed(s, k) && act > s.time.At(k)
  }

  lemma RankedTail(kinds: seq<Kind>)
    requires Ranked(kinds) && kinds != []
    ensures Ranked(kinds[1..]) && kinds[0] !in kinds[1..]
    ensures forall k | k in kinds :: Rank(kinds[0]) <= Rank(k)
  {
  }

  lemma DueFirst(s: Rt, act: nat, todo: seq<Kind>, due: seq<Kind>)
    requires todo != [] && Ranked(todo) && DueAmong(s, act, todo, due) && Due(s, todo[0], act)
    ensures due != [] && due[0] == todo[0] && DueAmong(s, act, todo[1..], due[1..])
  {
    var k := todo[0];
    assert k in due;
    RankedTail(due);
    RankedTail(todo);
    assert due[0] in due && due[0] in todo;
    assert forall j: Kind :: j in due <==> j == due[0] || j in due[1..];
    assert forall j: Kind :: j in todo <==> j == k || j in todo[1..];
  }

  lemma DueLater(s: Rt, act: nat, todo: seq<Kind>, due: seq<Kind>)
    requires todo != [] && Ranked(todo) && DueAmong(s, act, todo, due) && !Due(s, todo[0], act)
    ensures DueAmong(s, act, todo[1..], due)
  {
    RankedTail(todo);
    assert forall j: Kind :: j in todo <==> j == todo[0] || j in todo[1..];
  }

  lemma {:induction false} QueuesDue(s: Rt, act: nat, todo: seq<Kind>, due: seq<Kind>)
    requires Consistent(s) && Ranked(todo) && DueAmong(s, act, todo, due)
    ensures |QueuedAll(s, todo, act)| == |due|
    ensures forall i | 0 <= i < |due| :: due[i] in s.msg && QueuedAll(s, todo, act)[i] == s.msg[due[i]]
    decreases |todo|
  {
    assert due == [] || due[0] in due;
    if todo != [] {
      RankedTail(todo);
      if Due(s, todo[0], act) {
        DueFirst(s, act, todo, due);
        QueuesDue(s, act, todo[1..], due[1..]);
      } else {
        DueLater(s, act, todo, due);
        QueuesDue(s, act, todo[1..], due);
      }
    }
  }

  /**
   * What a pass sends: one message for each kind that is armed and whose deadline has passed, and
   * for no other, in the order PB, TB, PR, NE, NER; each is the pending message as it was before.
   */
  lemma PassSends(s: Rt, act: nat, due: seq<Kind>)
    requires Consistent(s) && Ranked(due) && forall k: Kind :: k in due <==> Armed(s, k) && act > s.time.At(k)
    ensures |Queued(s, act)| == |due|
    ensures forall i | 0 <= i < |due| :: due[i] in s.msg && Queued(s, act)[i] == s.msg[due[i]]
  {
    forall k: Kind
      ensures k in ORDER
    {
      assert k == ORDER[0] || k == ORDER[1] || k == ORDER[2] || k == ORDER[3] || k == ORDER[4];
    }
    QueuesDue(s, act, ORDER, due);
  }

  lemma TurnsAreIndependent(s: Rt, t: Rt, k: Kind, act: nat, earliest: nat)
    requires SameKind(s, t, k)
    ensures QueuedOf(t, k, act) == QueuedOf(s, k, act) && Sooner(t, k, act, earliest) == Sooner(s, k, act, earliest)
  {
  }

  /** The kinds in `todo` are as they were in `s`, at the start of the pass. */
  ghost predicate Waiting(s: Rt, t: Rt, todo: seq<Kind>) {
    forall i | 0 <= i < |todo| :: SameKind(s, t, todo[i]) && todo[i] !in todo[..i]
  }

  /** In the middle of a pass: what is still to come completes the three results. */
  ghost predicate Midway(s: Rt, t: Rt, todo: seq<Kind>, act: nat, draw: PerKind, e: nat, queued: seq<seq<byte>>,
                         end: Rt, earliest: nat, all: seq<seq<byte>>) {
    && Consistent(t) && Waiting(s, t, todo)
    && ServeAll(t, todo, act, draw) == end
    && SoonerAll(s, todo, act, e) == earliest
    && queued + QueuedAll(s, todo, act) == all
  }

  lemma StillWaiting(s: Rt, t: Rt, todo: seq<Kind>, act: nat, timeout: nat)
    requires todo != [] && Consistent(t) && Waiting(s, t, todo)
    ensures Waiting(s, Serve(t, todo[0], act, timeout), todo[1..])
  {
    forall i | 1 <= i < |todo|
      ensures SameKind(s, Serve(t, todo[0], act, timeout), todo[i])
    {
      assert todo[0] in todo[..i];
      ServesOnlyOne(t, todo[0], act, timeout, todo[i]);
    }
  }

  lemma OneMoreQueued(s: Rt, todo: seq<Kind>, act: nat, queued: seq<seq<byte>>)
    requires todo != []
    ensures queued + QueuedAll(s, todo, act) == (queued + QueuedOf(s, todo[0], act)) + QueuedAll(s, todo[1..], act)
  {
  }

  lemma PassBegins(s: Rt, act: nat, draw: PerKind)
    requires Consistent(s)
    ensures Midway(s, s, [PB] + ([TB] + ([PR] + ([NE] + [NER]))), act, draw, act + DEFAULT_RETRANSMIT_CHECK, [],
                   Pass(s, act, draw), Earliest(s, act), Queued(s, act))
  {
    assert [PB] + ([TB] + ([PR] + ([NE] + [NER]))) == ORDER;
    assert [] + Queued(s, act) == Queued(s, act);
  }

  lemma PassEnds(s: Rt, t: Rt, act: nat, draw: PerKind, e: nat, queued: seq<seq<byte>>,
                 end: Rt, earliest: nat, all: seq<seq<byte>>)
    requires Midway(s, t, [], act, draw, e, queued, end, earliest, all)
    ensures t == end && e == earliest && queued == all
  {
  }

  /** One turn takes the pass one kind further. */
  lemma TurnTaken(s: Rt, t: Rt, todo: seq<Kind>, act: nat, draw: PerKind, e: nat, queued: seq<seq<byte>>,
                  end: Rt, earliest: nat, all: seq<seq<byte>>)
    requires todo != [] && Midway(s, t, todo, act, draw, e, queued, end, earliest, all)
    ensures var k := todo[0];
      Midway(s, Serve(t, k, act, draw.At(k)), todo[1..], act, draw, Sooner(t, k, act, e), queued + QueuedOf(t, k, act),
             end, earliest, all)
  {
    TurnsAreIndependent(s, t, todo[0], act, e);
    StillWaiting(s, t, todo, act, draw.At(todo[0]));
    OneMoreQueued(s, todo, act, queued);
  }

  // ---------------------------------------------------------------- lateness over runs

  /** The retransmission state, the clock, and the instant the thread will wake up. */
  datatype Timed = Timed(rt: Rt, now: nat, wake: nat)

  datatype TimerEvent =
    | Arm(kind: Kind, msg: seq<byte>, act: nat, timeout: nat)  // startRetransmission
    | ArmTb(msg: seq<byte>, act: nat)                          // beginTBTransmission, no round running
    | Replace(msg: seq<byte>)                                  // beginTBTransmission, or a cleared bit: another TB
    | Disarm(kind: Kind)                                       // stopRetransmission
    | Wake(act: nat, draw: PerKind)                            // a pass of retransmit

  function ArmedTb(s: Rt, msg: seq<byte>, act: nat): Rt {
    s.(bits := WithBit(s.bits, BitOf(TB)), time := s.time.With(TB, act + TB_GENERATION_DELAY), msg := s.msg[TB := msg])
  }

  /** The thread oversleeps by at most `slack`, and no kind's timeout is shorter than one check and the slack. */
  ghost predicate TimerEnabled(s: Timed, e: TimerEvent, slack: nat) {
    match e
    case Arm(k, msg, act, timeout) =>
      && act >= s.now && LegalTimeout(k, timeout) && MinTimeout(k) >= DEFAULT_RETRANSMIT_CHECK + slack
      && (k == TB ==> |msg| >= TB_HEADER)
    case ArmTb(msg, act) => act >= s.now && |msg| >= TB_HEADER && slack <= 5_000_000_000
    case Replace(msg) => TB in s.rt.msg && |msg| >= TB_HEADER
    case Disarm(_) => true
    case Wake(act, draw) =>
      && s.now <= act && s.wake <= act <= s.wake + slack
      && forall k: Kind :: LegalTimeout(k, draw.At(k))
  }

  function TimerNext(s: Timed, e: TimerEvent): Timed
    requires Consistent(s.rt)
  {
    match e
    case Arm(k, msg, act, timeout) => Timed(Start(s.rt, k, msg, act, timeout), act, s.wake)
    case ArmTb(msg, act) => Timed(ArmedTb(s.rt, msg, act), act, s.wake)
    case Replace(msg) => s.(rt := s.rt.(msg := s.rt.msg[TB := msg]))
    case Disarm(k) => s.(rt := Stop(s.rt, k))
    case Wake(act, draw) =>
      EarliestBounds(s.rt, act);
      Timed(Pass(s.rt, act, draw), act, act + 1000 * Sleep(act, Earliest(s.rt, act)))
  }

  /** At the next wake-up nothing will be more than one check overdue. */
  ghost predicate Punctual(s: Timed, slack: nat) {
    && Consistent(s.rt)
    && s.wake <= s.now + DEFAULT_RETRANSMIT_CHECK
    && forall k | Armed(s.rt, k) ::
         s.rt.time.At(k) + DEFAULT_RETRANSMIT_CHECK >= s.wake && MinTimeout(k) >= DEFAULT_RETRANSMIT_CHECK + slack
  }

  lemma WakeStaysPunctual(s: Timed, act: nat, draw: PerKind, slack: nat)
    requires Punctual(s, slack) && TimerEnabled(s, Wake(act, draw), slack)
    ensures Punctual(TimerNext(s, Wake(act, draw)), slack)
  {
    var t := TimerNext(s, Wake(act, draw));
    EarliestBounds(s.rt, act);
    forall k | Armed(t.rt, k)
      ensures t.rt.time.At(k) + DEFAULT_RETRANSMIT_CHECK >= t.wake && MinTimeout(k) >= DEFAULT_RETRANSMIT_CHECK + slack
    {
      PassDeadline(s.rt, act, draw, k);
      assert LegalTimeout(k, draw.At(k));
    }
  }

  lemma ArmTbConsistent(s: Rt, msg: seq<byte>, act: nat)
    requires Consistent(s) && |msg| >= TB_HEADER
    ensures Consistent(ArmedTb(s, msg, act))
    ensures forall j: Kind :: Armed(ArmedTb(s, msg, act), j) <==> Armed(s, j) || j == TB
  {
    forall j: Kind
      ensures Armed(ArmedTb(s, msg, act), j) <==> Armed(s, j) || j == TB
    {
      OtherBits(s, TB, j);
    }
  }

  lemma StepStaysPunctual(s: Timed, e: TimerEvent, slack: nat)
    requires Punctual(s, slack) && TimerEnabled(s, e, slack)
    ensures Punctual(TimerNext(s, e), slack)
  {
    match e
    case Arm(k, msg, act, timeout) =>
      StartConsistent(s.rt, k, msg, act, timeout);
      forall j: Kind {
        OtherBits(s.rt, k, j);
      }
    case ArmTb(msg, act) =>
      ArmTbConsistent(s.rt, msg, act);
    case Replace(msg) =>
    case Disarm(k) =>
      StopConsistent(s.rt, k);
      forall j: Kind {
        OtherBits(s.rt, k, j);
      }
    case Wake(act, draw) => WakeStaysPunctual(s, act, draw, slack);
  }

  ghost predicate TimerRun(s: Timed, events: seq<TimerEvent>, slack: nat)
    requires Punctual(s, slack)
    decreases |events|
  {
    events != [] ==>
      && TimerEnabled(s, events[0], slack)
      && (StepStaysPunctual(s, events[0], slack); TimerRun(TimerNext(s, events[0]), events[1..], slack))
  }

  ghost function TimerAfter(s: Timed, events: seq<TimerEvent>, slack: nat): Timed
    requires Punctual(s, slack) && TimerRun(s, events, slack)
    decreases |events|
  {
    if events == [] then s
    else
      StepStaysPunctual(s, events[0], slack);
      TimerAfter(TimerNext(s, events[0]), events[1..], slack)
  }

  lemma {:induction false} RunStaysPunctual(s: Timed, events: seq<TimerEvent>, slack: nat)
    requires Punctual(s, slack) && TimerRun(s, events, slack)
    ensures Punctual(TimerAfter(s, events, slack), slack)
    decreases |events|
  {
    if events != [] {
      StepStaysPunctual(s, events[0], slack);
      RunStaysPunctual(TimerNext(s, events[0]), events[1..], slack);
    }
  }

  /** The state in which the thread starts: nothing armed. */
  ghost predicate TimerInitial(s: Timed) {
    s.rt.bits == 0 && s.rt.msg == map[] && s.now <= s.wake <= s.now + DEFAULT_RETRANSMIT_CHECK
  }

  lemma InitiallyPunctual(s: Timed, slack: nat)
    requires TimerInitial(s)
    ensures Punctual(s, slack)
  {
    forall k: Kind
      ensures !Armed(s.rt, k)
    {
      ZeroBit(BitOf(k));
    }
  }

  /** States that the retransmission thread can get into. */
  ghost predicate TimerReached(t: Timed, slack: nat) {
    exists s, events ::
      && TimerInitial(s) && Punctual(s, slack) && TimerRun(s, events, slack)
      && t == TimerAfter(s, events, slack)
  }

  lemma ReachedIsPunctual(t: Timed, slack: nat)
    requires TimerReached(t, slack)
    ensures Punctual(t, slack)
  {
    var s, events :| TimerInitial(s) && Punctual(s, slack) && TimerRun(s, events, slack)
      && t == TimerAfter(s, events, slack);
    RunStaysPunctual(s, events, slack);
  }

  /**
   * The lateness bound: whatever is armed, replaced and disarmed between passes, at every pass no
   * armed deadline is more than DEFAULT_RETRANSMIT_CHECK and the slack in the past.
   */
  lemma NeverLate(t: Timed, slack: nat, act: nat, draw: PerKind, k: Kind)
    requires TimerReached(t, slack) && TimerEnabled(t, Wake(act, draw), slack) && Armed(t.rt, k)
    ensures act <= t.rt.time.At(k) + DEFAULT_RETRANSMIT_CHECK + slack
  {
    ReachedIsPunctual(t, slack);
  }

  /** In every reachable state a kind's bit is set exactly when its message pointer is not NULL. */
  lemma BitsMatchMessages(t: Timed, slack: nat, k: Kind)
    requires TimerReached(t, slack)
    ensures Armed(t.rt, k) <==> k in t.rt.msg
    ensures Armed(t.rt, NE) ==> t.rt.amm.At(NE) < RETRANSMISSION_ATTEMPTS_NE
  {
    ReachedIsPunctual(t, slack);
  }
}
