/** The transmitting thread: is "now" inside this node's own slot, and if not, how long to sleep. */
module Dispatcher {
  import opened Bytes
  import opened TbFormat

  const TRANSMISSION_JITTER := 30_000_000

  /** `clock_gettime` readings are computed in signed 64-bit arithmetic. */
  const CLOCK_END := 0x8000_0000_0000_0000

  datatype Decision =
    | Blind                       // not on the network: transmit at once
    | Transmit                    // inside the own slot: transmit at once
    | SleepFirst(us: nat)         // the timetable, or the first own slot, has not begun
    | SleepNext(us: nat)          // outside the own slot: sleep to the next one
    | DivideByZero                // the table size is 0, and the arithmetic divides by it

  // The source's own arithmetic, in `unsigned long int`.

  function SlotStart(tt: TimeTable): nat {
    Wrap64(tt.sync + tt.localSlot * tt.slotSize)
  }

  function Elapsed(tt: TimeTable, act: nat): nat {
    Wrap64(act - SlotStart(tt))
  }

  function NextStart(tt: TimeTable, act: nat): nat
    requires tt.tableSize > 0
  {
    Wrap64(tt.tableSize * (Elapsed(tt, act) / tt.tableSize + 1) + SlotStart(tt))
  }

  predicate InSlot(tt: TimeTable, act: nat)
    requires tt.tableSize > 0
  {
    var vact := Elapsed(tt, act);
    vact < Wrap64(tt.tableSize * (vact / tt.tableSize) + tt.slotSize - TRANSMISSION_JITTER)
  }

  /** `usleep` takes an `unsigned int` number of microseconds. */
  function Microseconds(ns: nat): nat {
    ns / 1000 % 0x1_0000_0000
  }

  function Decide(tt: TimeTable, act: nat): Decision {
    if tt.sync == 0 then Blind
    else if tt.tableSize == 0 then DivideByZero
    else if act < tt.sync then SleepFirst(Microseconds(tt.sync - act))
    else if act < SlotStart(tt) then SleepFirst(Microseconds(SlotStart(tt) - act))
    else if InSlot(tt, act) then Transmit
    else SleepNext(Microseconds(Wrap64(NextStart(tt, act) - act)))
  }

  lemma DividesExactly(tt: TimeTable, act: nat)
    ensures Decide(tt, act) == DivideByZero <==> tt.sync != 0 && tt.tableSize == 0
  {
  }

  /** The node may start a slotted transmission at `act`. */
  predicate Sends(tt: TimeTable, act: nat) {
    tt.sync != 0 && tt.tableSize > 0 && Decide(tt, act) == Transmit
  }

  // ---------------------------------------------------------------- what the arithmetic means

  /** The timetable of slot `slot` among `n` slots of `size` ns from `sync` on. */
  function Slotted(slot: nat, n: nat, sync: nat, size: nat): TimeTable {
    TimeTable(slot, sync, size, n * size)
  }

  /** A timetable that fits the clock: some slot of `n`, with a whole cycle before the clock ends. */
  ghost predicate Fits(slot: nat, n: nat, sync: nat, size: nat) {
    slot < n && 0 < sync && 0 < size && sync + n * size < CLOCK_END
  }

  lemma MulMonotone(a: nat, b: nat, m: nat)
    requires a <= b
    ensures a * m <= b * m
  {
  }

  lemma SlotFits(slot: nat, n: nat, sync: nat, size: nat)
    requires Fits(slot, n, sync, size)
    ensures slot * size + size <= n * size
    ensures SlotStart(Slotted(slot, n, sync, size)) == sync + slot * size
  {
    MulMonotone(slot + 1, n, size);
    assert (slot + 1) * size == slot * size + size;
  }

  lemma DivMod(v: nat, t: nat)
    requires t > 0
    ensures t * (v / t) + v % t == v && v % t < t
  {
  }

  /** In cycle `k` the window opens at the start of the slot and closes one jitter before its end. */
  ghost predicate Window(start: nat, period: nat, size: nat, k: nat, act: nat) {
    start + k * period <= act < start + k * period + size - TRANSMISSION_JITTER
  }

  ghost predicate InSomeWindow(start: nat, period: nat, size: nat, act: nat) {
    exists k: nat :: Window(start, period, size, k, act)
  }

  lemma TestScalars(v: nat, low: nat, rem: nat, size: nat)
    requires low + rem == v < CLOCK_END && TRANSMISSION_JITTER <= size < CLOCK_END
    ensures v < Wrap64(low + size - TRANSMISSION_JITTER) <==> rem < size - TRANSMISSION_JITTER
  {
  }

  /** No intermediate result of the dispatcher leaves 64 bits. */
  lemma TestWithoutWrap(tt: TimeTable, act: nat)
    requires SlotStart(tt) <= act < CLOCK_END && 0 < tt.tableSize < CLOCK_END
    requires TRANSMISSION_JITTER <= tt.slotSize < CLOCK_END
    ensures InSlot(tt, act) <==> (act - SlotStart(tt)) % tt.tableSize < tt.slotSize - TRANSMISSION_JITTER
  {
    var v, t := act - SlotStart(tt), tt.tableSize;
    assert Elapsed(tt, act) == v;
    DivMod(v, t);
    TestScalars(v, t * (v / t), v % t, tt.slotSize);
  }

  lemma SendsByRemainder(slot: nat, n: nat, sync: nat, size: nat, act: nat)
    requires Fits(slot, n, sync, size) && act < CLOCK_END && size >= TRANSMISSION_JITTER
    ensures var start := sync + slot * size;
      Sends(Slotted(slot, n, sync, size), act)
      <==> act >= start && (act - start) % (n * size) < size - TRANSMISSION_JITTER
  {
    SlotFits(slot, n, sync, size);
    var tt := Slotted(slot, n, sync, size);
    if act >= SlotStart(tt) {
      TestWithoutWrap(tt, act);
    }
  }

  lemma RemainderUnique(v: nat, t: nat, k: nat)
    requires t > 0 && k * t <= v < k * t + t
    ensures v / t == k && v % t == v - k * t
  {
    DivMod(v, t);
    var q := v / t;
    assert t * q == q * t;
    if q < k {
      MulMonotone(q + 1, k, t);
      assert false;
    } else if q > k {
      MulMonotone(k + 1, q, t);
      assert false;
    }
  }

  lemma WindowIsRemainder(start: nat, period: nat, size: nat, act: nat)
    requires 0 < period && size <= period
    ensures InSomeWindow(start, period, size, act)
      <==> act >= start && (act - start) % period < size - TRANSMISSION_JITTER
  {
    if k: nat :| Window(start, period, size, k, act) {
      assert k * period >= 0;
      RemainderUnique(act - start, period, k);
    }
    if act >= start && (act - start) % period < size - TRANSMISSION_JITTER {
      DivMod(act - start, period);
      var k := (act - start) / period;
      assert k * period == period * k;
      assert Window(start, period, size, k, act);
    }
  }

  /** The division test is exactly "inside the window of some cycle". */
  lemma SendsIsWindow(slot: nat, n: nat, sync: nat, size: nat, act: nat)
    requires Fits(slot, n, sync, size) && act < CLOCK_END && size >= TRANSMISSION_JITTER
    ensures Sends(Slotted(slot, n, sync, size), act)
      <==> InSomeWindow(sync + slot * size, n * size, size, act)
  {
    SlotFits(slot, n, sync, size);
    SendsByRemainder(slot, n, sync, size, act);
    WindowIsRemainder(sync + slot * size, n * size, size, act);
  }

  // ---------------------------------------------------------------- collision freedom

  /** Transmissions that start at `a` and at `b` and last at most one jitter have no instant in common. */
  predicate Apart(a: nat, b: nat) {
    a + TRANSMISSION_JITTER < b || b + TRANSMISSION_JITTER < a
  }

  lemma WindowsApart(i: nat, j: nat, n: nat, sync: nat, size: nat, k: nat, m: nat, a: nat, b: nat)
    requires i < j < n
    requires Window(sync + i * size, n * size, size, k, a) && Window(sync + j * size, n * size, size, m, b)
    ensures Apart(a, b)
  {
    var t := n * size;
    MulMonotone(i + 1, j, size);
    MulMonotone(j + 1, n, size);
    assert (i + 1) * size == i * size + size && (j + 1) * size == j * size + size;
    if k <= m {
      MulMonotone(k, m, t);
    } else {
      MulMonotone(m + 1, k, t);
      assert (m + 1) * t == m * t + t;
    }
  }

  /** Two different slots of one timetable never transmit at overlapping times. */
  lemma SlotsNeverCollide(i: nat, j: nat, n: nat, sync: nat, size: nat, a: nat, b: nat)
    requires Fits(i, n, sync, size) && Fits(j, n, sync, size) && i != j
    requires a < CLOCK_END && b < CLOCK_END && size >= TRANSMISSION_JITTER
    requires Sends(Slotted(i, n, sync, size), a) && Sends(Slotted(j, n, sync, size), b)
    ensures Apart(a, b)
  {
    SendsIsWindow(i, n, sync, size, a);
    SendsIsWindow(j, n, sync, size, b);
    var k: nat :| Window(sync + i * size, n * size, size, k, a);
    var m: nat :| Window(sync + j * size, n * size, size, m, b);
    if i < j {
      WindowsApart(i, j, n, sync, size, k, m, a, b);
    } else {
      WindowsApart(j, i, n, sync, size, m, k, b, a);
    }
  }

  /** Nothing that starts in `p` can overlap anything that starts in `q`. */
  ghost predicate Exclude(p: iset<nat>, q: iset<nat>) {
    forall a, b | a in p && b in q :: Apart(a, b)
  }

  ghost function WindowTimes(start: nat, period: nat, size: nat): iset<nat> {
    iset a: nat | a < CLOCK_END && InSomeWindow(start, period, size, a)
  }

  ghost function SlotTimes(slot: nat, n: nat, sync: nat, size: nat): iset<nat> {
    WindowTimes(sync + slot * size, n * size, size)
  }

  lemma SlotOpens(slot: nat, n: nat, sync: nat, size: nat)
    requires Fits(slot, n, sync, size) && size > TRANSMISSION_JITTER
    ensures sync + slot * size in SlotTimes(slot, n, sync, size)
  {
    SlotFits(slot, n, sync, size);
    assert Window(sync + slot * size, n * size, size, 0, sync + slot * size);
  }

  /** The instants of two slots exclude each other if and only if the slots are different. */
  lemma SlotTimesExclude(i: nat, j: nat, n: nat, sync: nat, size: nat)
    requires Fits(i, n, sync, size) && Fits(j, n, sync, size) && size > TRANSMISSION_JITTER
    ensures Exclude(SlotTimes(i, n, sync, size), SlotTimes(j, n, sync, size)) <==> i != j
  {
    if i != j {
      forall a, b | a in SlotTimes(i, n, sync, size) && b in SlotTimes(j, n, sync, size)
        ensures Apart(a, b)
      {
        var k: nat :| Window(sync + i * size, n * size, size, k, a);
        var m: nat :| Window(sync + j * size, n * size, size, m, b);
        if i < j {
          WindowsApart(i, j, n, sync, size, k, m, a, b);
        } else {
          WindowsApart(j, i, n, sync, size, m, k, b, a);
        }
      }
    } else {
      SlotOpens(i, n, sync, size);
      assert !Apart(sync + i * size, sync + i * size);
    }
  }

  lemma TimesAreSlotTimes(slot: nat, n: nat, sync: nat, size: nat)
    requires Fits(slot, n, sync, size) && size >= TRANSMISSION_JITTER
    ensures (iset a: nat | a < CLOCK_END && Sends(Slotted(slot, n, sync, size), a)) == SlotTimes(slot, n, sync, size)
  {
    forall a: nat | a < CLOCK_END
      ensures Sends(Slotted(slot, n, sync, size), a) <==> InSomeWindow(sync + slot * size, n * size, size, a)
    {
      SendsIsWindow(slot, n, sync, size, a);
    }
  }

  /** No two slots of the timetable can ever transmit at overlapping times. */
  ghost predicate Exclusive(n: nat, sync: nat, size: nat) {
    forall i: nat, j: nat, a: nat, b: nat
      | i < n && j < n && i != j && a < CLOCK_END && b < CLOCK_END
        && Sends(Slotted(i, n, sync, size), a) && Sends(Slotted(j, n, sync, size), b)
      :: Apart(a, b)
  }

  /** A slot shorter than the jitter makes the unsigned bound wrap: the whole first cycle counts as "in slot". */
  lemma FirstCycleWraps(tt: TimeTable, act: nat)
    requires SlotStart(tt) <= act < SlotStart(tt) + tt.tableSize && act < CLOCK_END
    requires tt.slotSize < TRANSMISSION_JITTER
    ensures InSlot(tt, act)
  {
    var v := act - SlotStart(tt);
    assert Elapsed(tt, act) == v;
    assert v / tt.tableSize == 0 by {
      RemainderUnique(v, tt.tableSize, 0);
    }
    assert Wrap64(tt.slotSize - TRANSMISSION_JITTER) == U64 + tt.slotSize - TRANSMISSION_JITTER;
  }

  lemma ShortSlotsCollide(n: nat, sync: nat, size: nat)
    requires 2 <= n && Fits(0, n, sync, size) && size < TRANSMISSION_JITTER
    ensures Sends(Slotted(0, n, sync, size), sync + size) && Sends(Slotted(1, n, sync, size), sync + size)
  {
    SlotFits(0, n, sync, size);
    SlotFits(1, n, sync, size);
    FirstCycleWraps(Slotted(0, n, sync, size), sync + size);
    FirstCycleWraps(Slotted(1, n, sync, size), sync + size);
  }

  /** Exclusion holds exactly when a slot is no shorter than the jitter, or nobody else has one. */
  lemma ExclusiveIffSlotCoversJitter(n: nat, sync: nat, size: nat)
    requires 0 < n && Fits(0, n, sync, size)
    ensures Exclusive(n, sync, size) <==> size >= TRANSMISSION_JITTER || n < 2
  {
    if size >= TRANSMISSION_JITTER {
      forall i: nat, j: nat, a: nat, b: nat
        | i < n && j < n && i != j && a < CLOCK_END && b < CLOCK_END
          && Sends(Slotted(i, n, sync, size), a) && Sends(Slotted(j, n, sync, size), b)
        ensures Apart(a, b)
      {
        SlotsNeverCollide(i, j, n, sync, size, a, b);
      }
    } else if n >= 2 {
      ShortSlotsCollide(n, sync, size);
      MulMonotone(2, n, size);
      assert !Apart(sync + size, sync + size);
    }
  }

  // ---------------------------------------------------------------- the slot that a node does not have

  /** What the dispatcher runs on when `local_slot` is still -1. */
  function Slotless(n: nat, sync: nat, size: nat): TimeTable {
    TimeTable(NO_SLOT, sync, size, n * size)
  }

  lemma SlotlessStart(n: nat, sync: nat, size: nat)
    requires 0 < n && Fits(n - 1, n, sync, size) && size <= sync
    ensures SlotStart(Slotless(n, sync, size)) == sync - size
  {
    var u := 0x1_0000_0000_0000_0000;
    assert sync + NO_SLOT * size == size * u + (sync - size);
    RemainderUnique(size * u + (sync - size), u, size);
  }

  lemma RemainderShift(v: nat, t: nat)
    requires 0 < t <= v
    ensures v % t == (v - t) % t
  {
    DivMod(v - t, t);
    var q := (v - t) / t;
    assert t * q == q * t && (q + 1) * t == q * t + t;
    RemainderUnique(v, t, q + 1);
  }

  lemma EarlyCycle(v: nat, t: nat, size: nat)
    requires size <= t && size <= v
    ensures t > 0 ==> (v % t < size - TRANSMISSION_JITTER <==> v >= t && (v - t) % t < size - TRANSMISSION_JITTER)
  {
    if v >= t > 0 {
      RemainderShift(v, t);
    } else if t > 0 {
      RemainderUnique(v, t, 0);
    }
  }

  lemma SlotlessByRemainder(n: nat, sync: nat, size: nat, act: nat)
    requires 0 < n && Fits(n - 1, n, sync, size) && TRANSMISSION_JITTER <= size <= sync && act < CLOCK_END
    ensures Sends(Slotless(n, sync, size), act)
      <==> act >= sync && (act - (sync - size)) % (n * size) < size - TRANSMISSION_JITTER
  {
    SlotlessStart(n, sync, size);
    if act >= sync {
      TestWithoutWrap(Slotless(n, sync, size), act);
    }
  }

  /** One cycle early or not, the remainders are those of the last slot. */
  lemma LastSlotRemainder(n: nat, sync: nat, size: nat, act: nat)
    requires 0 < n && Fits(n - 1, n, sync, size) && size <= sync
    ensures var last := sync + (n - 1) * size;
      act >= sync && (act - (sync - size)) % (n * size) < size - TRANSMISSION_JITTER
      <==> act >= last && (act - last) % (n * size) < size - TRANSMISSION_JITTER
  {
    SlotFits(n - 1, n, sync, size);
    assert (n - 1) * size == n * size - size;
    if act >= sync {
      EarlyCycle(act - (sync - size), n * size, size);
    }
  }

  /** Slot -1 is the last slot, one cycle early: the node transmits exactly when the last listed node does. */
  lemma SlotlessIsLastSlot(n: nat, sync: nat, size: nat, act: nat)
    requires 0 < n && Fits(n - 1, n, sync, size) && TRANSMISSION_JITTER <= size <= sync && act < CLOCK_END
    ensures Sends(Slotless(n, sync, size), act) <==> Sends(Slotted(n - 1, n, sync, size), act)
  {
    SlotlessByRemainder(n, sync, size, act);
    SendsByRemainder(n - 1, n, sync, size, act);
    LastSlotRemainder(n, sync, size, act);
  }

  /** With less than one slot from the epoch to the sync, the start of slot -1 wraps, and the node never transmits. */
  lemma SlotlessNearEpochIsSilent(n: nat, sync: nat, size: nat, act: nat)
    requires 0 < sync < size < CLOCK_END && act < CLOCK_END
    ensures !Sends(Slotless(n, sync, size), act)
  {
    var u := 0x1_0000_0000_0000_0000;
    assert sync + NO_SLOT * size == (size - 1) * u + (u + sync - size);
    RemainderUnique((size - 1) * u + (u + sync - size), u, size - 1);
  }

  lemma SlotlessTimesAreLast(n: nat, sync: nat, size: nat)
    requires 0 < n && Fits(n - 1, n, sync, size) && TRANSMISSION_JITTER <= size <= sync
    ensures (iset a: nat | a < CLOCK_END && Sends(Slotless(n, sync, size), a)) == SlotTimes(n - 1, n, sync, size)
  {
    forall a: nat | a < CLOCK_END
      ensures Sends(Slotless(n, sync, size), a) <==> InSomeWindow(sync + (n - 1) * size, n * size, size, a)
    {
      SlotlessIsLastSlot(n, sync, size, a);
      SendsIsWindow(n - 1, n, sync, size, a);
    }
  }

  // ---------------------------------------------------------------- sleeping

  /** How far the clock is moved by a sleep of the given decision. */
  function Slept(d: Decision): nat {
    match d
    case SleepFirst(us) => 1000 * us
    case SleepNext(us) => 1000 * us
    case _ => 0
  }

  lemma SleepsNoLonger(ns: nat)
    ensures 1000 * Microseconds(ns) <= ns
    ensures ns < 4_294_967_296_000 ==> ns < 1000 * Microseconds(ns) + 1000
  {
  }

  /** The start of the cycle after the one that `v` is in. */
  lemma NextCycle(v: nat, t: nat)
    requires t > 0
    ensures t * (v / t + 1) == v - v % t + t
    ensures (t * (v / t + 1)) % t == 0
  {
    DivMod(v, t);
    var q := v / t;
    assert t * (q + 1) == t * q + t;
    assert t * (q + 1) == (q + 1) * t;
    RemainderUnique(t * (q + 1), t, q + 1);
  }

  lemma LeastStart(v: nat, t: nat, m: nat)
    requires t > 0 && m * t > v
    ensures t * (v / t + 1) <= m * t
  {
    DivMod(v, t);
    var q := v / t;
    assert t * q == q * t && t * (q + 1) == (q + 1) * t;
    if m <= q {
      MulMonotone(m, q, t);
    } else {
      MulMonotone(q + 1, m, t);
    }
  }

  lemma SameCycleRemainder(v: nat, t: nat, w: nat)
    requires t > 0 && v <= w < t * (v / t + 1)
    ensures w % t == v % t + (w - v)
  {
    NextCycle(v, t);
    DivMod(v, t);
    assert t * (v / t) == (v / t) * t;
    RemainderUnique(w, t, v / t);
  }

  /** `NextStart` is the first start of the own slot after `act`, at most one cycle away. */
  lemma NextIsLeast(tt: TimeTable, act: nat)
    requires SlotStart(tt) <= act < CLOCK_END && 0 < tt.tableSize < CLOCK_END
    ensures act < NextStart(tt, act) <= act + tt.tableSize
    ensures (NextStart(tt, act) - SlotStart(tt)) % tt.tableSize == 0
    ensures forall m: nat | SlotStart(tt) + m * tt.tableSize > act ::
      NextStart(tt, act) <= SlotStart(tt) + m * tt.tableSize
  {
    var v, t := act - SlotStart(tt), tt.tableSize;
    assert Elapsed(tt, act) == v;
    NextCycle(v, t);
    DivMod(v, t);
    forall m: nat | SlotStart(tt) + m * t > act
      ensures NextStart(tt, act) <= SlotStart(tt) + m * t
    {
      LeastStart(v, t, m);
    }
  }

  lemma SameCycle(tt: TimeTable, act: nat, t: nat)
    requires SlotStart(tt) <= act < CLOCK_END && 0 < tt.tableSize < CLOCK_END && act <= t < NextStart(tt, act)
    ensures (t - SlotStart(tt)) % tt.tableSize == (act - SlotStart(tt)) % tt.tableSize + (t - act)
  {
    var v := act - SlotStart(tt);
    assert Elapsed(tt, act) == v;
    NextCycle(v, tt.tableSize);
    DivMod(v, tt.tableSize);
    SameCycleRemainder(v, tt.tableSize, t - SlotStart(tt));
  }

  lemma NothingBeforeNext(slot: nat, n: nat, sync: nat, size: nat, act: nat, t: nat)
    requires Fits(slot, n, sync, size) && size >= TRANSMISSION_JITTER
    requires sync + slot * size <= act < CLOCK_END && !Sends(Slotted(slot, n, sync, size), act)
    requires act <= t < NextStart(Slotted(slot, n, sync, size), act) && t < CLOCK_END
    ensures !Sends(Slotted(slot, n, sync, size), t)
  {
    SlotFits(slot, n, sync, size);
    SameCycle(Slotted(slot, n, sync, size), act, t);
    SendsByRemainder(slot, n, sync, size, act);
    SendsByRemainder(slot, n, sync, size, t);
  }

  /** With a slot longer than the jitter, the next own slot can be used from its first instant. */
  lemma NextSends(slot: nat, n: nat, sync: nat, size: nat, act: nat)
    requires Fits(slot, n, sync, size) && size > TRANSMISSION_JITTER
    requires sync + slot * size <= act < CLOCK_END && NextStart(Slotted(slot, n, sync, size), act) < CLOCK_END
    ensures Sends(Slotted(slot, n, sync, size), NextStart(Slotted(slot, n, sync, size), act))
  {
    var tt := Slotted(slot, n, sync, size);
    SlotFits(slot, n, sync, size);
    NextIsLeast(tt, act);
    SendsByRemainder(slot, n, sync, size, NextStart(tt, act));
  }

  /** The instant that a sleeping decision is waiting for. */
  function Target(tt: TimeTable, act: nat): nat
    requires tt.tableSize > 0
  {
    if act < tt.sync then tt.sync
    else if act < SlotStart(tt) then SlotStart(tt)
    else NextStart(tt, act)
  }

  /** A sleep never passes its target, and misses it by less than a microsecond unless it lasts over an hour. */
  lemma WakesBeforeTarget(tt: TimeTable, act: nat)
    requires tt.sync != 0 && 0 < tt.tableSize < CLOCK_END && act < CLOCK_END && tt.sync < CLOCK_END
    requires !Sends(tt, act)
    ensures act < Target(tt, act)
    ensures act + Slept(Decide(tt, act)) <= Target(tt, act)
    ensures Target(tt, act) - act < 4_294_967_296_000 ==> Target(tt, act) < act + Slept(Decide(tt, act)) + 1000
  {
    var target := Target(tt, act);
    if tt.sync <= act && SlotStart(tt) <= act {
      NextIsLeast(tt, act);
      assert Decide(tt, act) == SleepNext(Microseconds(target - act));
    } else {
      assert Decide(tt, act) == SleepFirst(Microseconds(target - act));
    }
    SleepsNoLonger(target - act);
  }

  /**
   * The dispatcher never sleeps through its slot: it wakes no later than its target, no instant
   * before the target would have passed the send test, and the target is at most one cycle away
   * once the first slot has begun.
   */
  lemma NeverSleepsThroughSlot(slot: nat, n: nat, sync: nat, size: nat, act: nat)
    requires Fits(slot, n, sync, size) && size >= TRANSMISSION_JITTER && act < CLOCK_END
    requires !Sends(Slotted(slot, n, sync, size), act)
    ensures var tt := Slotted(slot, n, sync, size);
      && act < Target(tt, act)
      && act + Slept(Decide(tt, act)) <= Target(tt, act)
      && (forall t: nat | act <= t < Target(tt, act) && t < CLOCK_END :: !Sends(tt, t))
      && (act >= sync + slot * size ==> Target(tt, act) <= act + n * size)
  {
    var tt := Slotted(slot, n, sync, size);
    SlotFits(slot, n, sync, size);
    WakesBeforeTarget(tt, act);
    if act >= SlotStart(tt) {
      NextIsLeast(tt, act);
      forall t: nat | act <= t < Target(tt, act) && t < CLOCK_END
        ensures !Sends(tt, t)
      {
        NothingBeforeNext(slot, n, sync, size, act, t);
      }
    }
  }
}
