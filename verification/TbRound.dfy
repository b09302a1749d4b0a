/** A TB round at the master: starting or remaking it, counting acknowledgements, ending it. */
module TbRound {
  import opened Bytes
  import IpList
  import opened TbFormat
  import opened Retransmission
  import opened Transmissions

  datatype Begun = Begun(rt: Rt, ok: bool)

  /** `beginTBTransmission`; `b` is what `generateTB` would build now. */
  function Begin(rt: Rt, act: nat, b: seq<byte>): Begun {
    if Armed(rt, TB) then
      if rt.amm.At(TB) != 0 then Begun(rt, false) else Begun(rt.(msg := rt.msg[TB := b]), true)
    else Begun(ArmedTb(rt, b, act), true)
  }

  /** Byte `i` of the bitmap; the scan can look at one byte behind the buffer, which holds `stray`. */
  function ScannedByte(b: seq<byte>, i: nat, stray: byte): byte
    requires Readable(b)
  {
    var at := TB_HEADER + 2 * |Ips(b)| + i;
    if at < |b| then b[at] else stray
  }

  /** The completion scan looks at `1 + ip_amm/8` bytes. */
  predicate ScanClear(b: seq<byte>, stray: byte)
    requires Readable(b)
  {
    forall i | 0 <= i < 1 + |Ips(b)| / 8 :: ScannedByte(b, i, stray) == 0
  }

  /** `TA_RX` at the master. */
  function TaReceived(rt: Rt, ip: Ip, sender: Ip, originator: Ip, stray: byte): Rt
    requires TB in rt.msg ==> Readable(rt.msg[TB])
  {
    if sender == ip || TB !in rt.msg then rt
    else
      var b := WithoutTaOf(rt.msg[TB], originator);
      ClearingIsExact(rt.msg[TB], originator);
      var t := rt.(msg := rt.msg[TB := b]);
      if ScanClear(b, stray) then Stop(t, TB) else t
  }

  // ---------------------------------------------------------------- the completion scan

  ghost predicate NobodyOwes(b: seq<byte>)
    requires Readable(b)
  {
    forall i | 0 <= i < 8 * BitmapBytes(|Ips(b)|) :: !Owes(b, |Ips(b)|, i)
  }

  lemma BitmapByteClear(b: seq<byte>, n: nat, k: nat)
    requires TB_HEADER + 2 * n + k < |b|
    ensures b[TB_HEADER + 2 * n + k] == 0 <==> forall j | 8 * k <= j < 8 * k + 8 :: !Owes(b, n, j)
  {
    var x := b[TB_HEADER + 2 * n + k];
    ZeroHasNoBits(x);
    forall j | 8 * k <= j < 8 * k + 8
      ensures Owes(b, n, j) <==> Bit(x, j - 8 * k)
    {
      assert j / 8 == k && j % 8 == j - 8 * k;
    }
    if forall j | 8 * k <= j < 8 * k + 8 :: !Owes(b, n, j) {
      forall i | 0 <= i < 8
        ensures !Bit(x, i)
      {
        assert !Owes(b, n, 8 * k + i);
      }
    }
  }

  /**
   * The scan says "complete" exactly when nobody owes a TA and, if the node count is a multiple of
   * eight, the byte behind the buffer happens to be zero.
   */
  lemma ScanMeans(b: seq<byte>, stray: byte)
    requires Readable(b) && |b| == TB_HEADER + 2 * |Ips(b)| + BitmapBytes(|Ips(b)|)
    ensures ScanClear(b, stray) <==> NobodyOwes(b) && (|Ips(b)| % 8 == 0 ==> stray == 0)
  {
    var n := |Ips(b)|;
    forall k | 0 <= k < BitmapBytes(n)
      ensures ScannedByte(b, k, stray) == 0 <==> forall j | 8 * k <= j < 8 * k + 8 :: !Owes(b, n, j)
    {
      BitmapByteClear(b, n, k);
    }
    if ScanClear(b, stray) {
      forall i | 0 <= i < 8 * BitmapBytes(n)
        ensures !Owes(b, n, i)
      {
        assert ScannedByte(b, i / 8, stray) == 0;
      }
      assert n % 8 == 0 ==> ScannedByte(b, n / 8, stray) == 0;
    }
    if NobodyOwes(b) && (n % 8 == 0 ==> stray == 0) {
      forall i | 0 <= i < 1 + n / 8
        ensures ScannedByte(b, i, stray) == 0
      {
        assert i < BitmapBytes(n) || n % 8 == 0;
      }
    }
  }

  // ---------------------------------------------------------------- the master over time

  /**
   * The master with its history: `listed` and `core` are the slaves and the core of the pending
   * TB, `acked` the originators heard since it was built, `sends` the TBs that have gone into the
   * outbound queue since the start, `sentNow` those of the pending round.
   */
  datatype Master = Master(
    ip: Ip, subs: seq<Ip>, rt: Rt,
    listed: seq<Ip>, core: seq<byte>, acked: set<Ip>, sends: nat, sentNow: nat)

  datatype MasterEvent =
    | BeginRound(act: nat, now: nat, bytes: seq<byte>)           // a join reached the master
    | HearTa(sender: Ip, originator: Ip, stray: byte)
    | PassOver(act: nat, draw: PerKind)                          // a pass of the retransmission thread
    | Insert(ip: Ip)                                             // insertSubSlave
    | OtherKinds(after: Rt)                                      // whatever happens to the other four kinds

  ghost predicate MasterEnabled(m: Master, e: MasterEvent) {
    match e
    case BeginRound(_, now, b) => Generated(b, m.ip, now, m.subs) && |m.subs| < 32767
    case OtherKinds(t) => Consistent(t) && Labelled(t) && SameKind(m.rt, t, TB)
    case _ => true
  }

  /** The list of the pending TB: the master, then the slaves. */
  function ListOf(m: Master): seq<Ip> {
    [m.ip] + m.listed
  }

  /** The node at position `i` has been acknowledged: a TA names it, and it is the first with its address. */
  predicate Acknowledged(m: Master, i: nat)
    requires i < |ListOf(m)|
  {
    ListOf(m)[i] in m.acked && First(ListOf(m), ListOf(m)[i]) == i
  }

  /** The pending TB is the one that was built, minus the acknowledged bits. */
  ghost predicate GoodPending(m: Master, b: seq<byte>) {
    var n := |ListOf(m)|;
    && Readable(b) && Ips(b) == ListOf(m) && Core(b) == m.core
    && |b| == TB_HEADER + 2 * n + BitmapBytes(n)
    && forall i | 0 <= i < 8 * BitmapBytes(n) :: Owes(b, n, i) <==> 1 <= i < n && !Acknowledged(m, i)
  }

  ghost predicate MasterInv(m: Master) {
    && Consistent(m.rt) && Labelled(m.rt)
    && m.rt.amm.At(TB) == m.sends % 256
    && (TB in m.rt.msg ==> GoodPending(m, m.rt.msg[TB]) && Pbid(m.rt.msg[TB]) == Wrap16(m.sentNow))
  }

  /** A pass of the retransmission thread leaves `t` behind. */
  function WithPass(m: Master, t: Rt, act: nat): Master {
    var sent := OfKind(Queued(m.rt, act), TB);
    m.(rt := t, sends := m.sends + sent, sentNow := m.sentNow + sent)
  }

  ghost function MasterNext(m: Master, e: MasterEvent): Master
    requires MasterInv(m) && MasterEnabled(m, e)
  {
    match e
    case BeginRound(act, now, b) =>
      var begun := Begin(m.rt, act, b);
      if begun.ok then
        ReadsBack(b, m.ip, now, m.subs);
        m.(rt := begun.rt, listed := m.subs, core := Core(b), acked := {}, sentNow := 0)
      else m
    case HearTa(sender, originator, stray) =>
      m.(rt := TaReceived(m.rt, m.ip, sender, originator, stray),
         acked := if sender == m.ip then m.acked else m.acked + {originator})
    case PassOver(act, draw) =>
      WithPass(m, Pass(m.rt, act, draw), act)
    case Insert(ip) => m.(subs := IpList.Listed(m.subs, ip))
    case OtherKinds(t) => m.(rt := t)
  }

  lemma NewTbIsGood(m: Master, now: nat, b: seq<byte>)
    requires Generated(b, m.ip, now, m.listed) && |m.listed| < 32767 && m.acked == {}
    requires Readable(b) && m.core == Core(b)
    ensures GoodPending(m, b)
  {
    ReadsBack(b, m.ip, now, m.listed);
  }

  lemma BeginKeeps(m: Master, act: nat, now: nat, b: seq<byte>)
    requires MasterInv(m) && MasterEnabled(m, BeginRound(act, now, b))
    ensures MasterInv(MasterNext(m, BeginRound(act, now, b)))
  {
    ReadsBack(b, m.ip, now, m.subs);
    var t := MasterNext(m, BeginRound(act, now, b));
    if !Armed(m.rt, TB) {
      ArmTbConsistent(m.rt, b, act);
    }
    if Begin(m.rt, act, b).ok {
      NewTbIsGood(t, now, b);
    }
  }

  lemma ClearedStep(m: Master, o: Ip, i: nat)
    requires i < |ListOf(m)|
    ensures Acknowledged(m.(acked := m.acked + {o}), i) <==> Acknowledged(m, i) || First(ListOf(m), o) == i
  {
  }

  lemma TaIsGood(m: Master, b: seq<byte>, o: Ip)
    requires GoodPending(m, b)
    ensures GoodPending(m.(acked := m.acked + {o}), WithoutTaOf(b, o))
  {
    ClearingIsExact(b, o);
    var t := m.(acked := m.acked + {o});
    var r := WithoutTaOf(b, o);
    var n := |ListOf(m)|;
    forall i | 0 <= i < 8 * BitmapBytes(n)
      ensures Owes(r, n, i) <==> 1 <= i < n && !Acknowledged(t, i)
    {
      if i < n {
        ClearedStep(m, o, i);
      }
    }
  }

  lemma TaKeepsNumber(b: seq<byte>, o: Ip)
    requires Readable(b)
    ensures Pbid(WithoutTaOf(b, o)) == Pbid(b) && WithoutTaOf(b, o)[0] == b[0]
  {
    ClearingIsExact(b, o);
    assert WithoutTaOf(b, o)[..5][0] == b[..5][0];
    assert WithoutTaOf(b, o)[..5][3] == b[..5][3] && WithoutTaOf(b, o)[..5][4] == b[..5][4];
  }

  lemma HearTaKeeps(m: Master, sender: Ip, o: Ip, stray: byte)
    requires MasterInv(m)
    ensures MasterInv(MasterNext(m, HearTa(sender, o, stray)))
  {
    if sender != m.ip && TB in m.rt.msg {
      TaIsGood(m, m.rt.msg[TB], o);
      TaKeepsNumber(m.rt.msg[TB], o);
      StopConsistent(m.rt.(msg := m.rt.msg[TB := WithoutTaOf(m.rt.msg[TB], o)]), TB);
    }
  }

  /** What a pass does to the TB: it counts each transmission in a byte, and bumps the PBID. */
  ghost predicate TbServed(s: Rt, t: Rt, act: nat) {
    if Due(s, TB, act) then
      && Armed(t, TB) && TB in s.msg && TB in t.msg && |s.msg[TB]| >= TB_HEADER
      && t.amm.At(TB) == (s.amm.At(TB) + 1) % 256 && t.msg[TB] == WithNextPbid(s.msg[TB])
    else SameKind(s, t, TB)
  }

  lemma PassOnTb(s: Rt, act: nat, draw: PerKind)
    requires Consistent(s)
    ensures TbServed(s, Pass(s, act, draw), act)
  {
    var s1 := Serve(s, PB, act, draw.At(PB));
    var s2 := Serve(s1, TB, act, draw.At(TB));
    var s3 := Serve(s2, PR, act, draw.At(PR));
    var s4 := Serve(s3, NE, act, draw.At(NE));
    PassInOrder(s, act, draw);
    ServesOnlyOne(s, PB, act, draw.At(PB), TB);
    ServesOnlyOne(s2, PR, act, draw.At(PR), TB);
    ServesOnlyOne(s3, NE, act, draw.At(NE), TB);
    ServesOnlyOne(s4, NER, act, draw.At(NER), TB);
    assert TbServed(s1, s2, act);
    assert SameKind(s2, Pass(s, act, draw), TB);
  }

  lemma BumpIsGood(m: Master, b: seq<byte>)
    requires GoodPending(m, b)
    ensures GoodPending(m, WithNextPbid(b))
  {
    BumpingKeepsCore(b);
    CoreDecides(b, WithNextPbid(b));
  }

  lemma CountersAside(m: Master, b: seq<byte>, t: Rt, sends: nat, sentNow: nat)
    requires GoodPending(m, b)
    ensures GoodPending(m.(rt := t, sends := sends, sentNow := sentNow), b)
  {
  }

  lemma NextCount(sends: nat)
    ensures (sends % 256 + 1) % 256 == (sends + 1) % 256
  {
  }

  lemma NextNumber(b: seq<byte>, n: nat)
    requires |b| >= TB_HEADER && Pbid(b) == Wrap16(n)
    ensures Pbid(WithNextPbid(b)) == Wrap16(n + 1)
  {
    NextPbid(b);
  }

  lemma ServedMessage(m: Master, t: Rt, act: nat, sent: nat)
    requires MasterInv(m) && TbServed(m.rt, t, act) && TB in t.msg && sent == if Due(m.rt, TB, act) then 1 else 0
    ensures GoodPending(m, t.msg[TB]) && Pbid(t.msg[TB]) == Wrap16(m.sentNow + sent)
  {
    if Due(m.rt, TB, act) {
      BumpIsGood(m, m.rt.msg[TB]);
      NextNumber(m.rt.msg[TB], m.sentNow);
    }
  }

  lemma ServedCount(s: Rt, t: Rt, act: nat, sends: nat)
    requires TbServed(s, t, act) && s.amm.At(TB) == sends % 256
    ensures t.amm.At(TB) == (sends + (if Due(s, TB, act) then 1 else 0)) % 256
  {
    NextCount(sends);
  }

  lemma WithServed(m: Master, t: Rt, sends: nat, sentNow: nat)
    requires Consistent(t) && Labelled(t) && t.amm.At(TB) == sends % 256
    requires TB in t.msg ==> GoodPending(m, t.msg[TB]) && Pbid(t.msg[TB]) == Wrap16(sentNow)
    ensures MasterInv(m.(rt := t, sends := sends, sentNow := sentNow))
  {
    if TB in t.msg {
      CountersAside(m, t.msg[TB], t, sends, sentNow);
    }
  }

  lemma AnyPassKeeps(m: Master, t: Rt, act: nat)
    requires MasterInv(m) && Consistent(t) && Labelled(t) && TbServed(m.rt, t, act)
    ensures MasterInv(WithPass(m, t, act))
  {
    var sent := if Due(m.rt, TB, act) then 1 else 0;
    OneOfKind(m.rt, act, TB);
    ServedCount(m.rt, t, act, m.sends);
    if TB in t.msg {
      ServedMessage(m, t, act, sent);
    }
    WithServed(m, t, m.sends + sent, m.sentNow + sent);
  }

  lemma PassKeeps(m: Master, act: nat, draw: PerKind)
    requires MasterInv(m)
    ensures MasterInv(MasterNext(m, PassOver(act, draw)))
  {
    var t := Pass(m.rt, act, draw);
    PassOnTb(m.rt, act, draw);
    PassLabelled(m.rt, act, draw);
    AnyPassKeeps(m, t, act);
    assert MasterNext(m, PassOver(act, draw)) == WithPass(m, t, act);
  }

  lemma MasterStepKeeps(m: Master, e: MasterEvent)
    requires MasterInv(m) && MasterEnabled(m, e)
    ensures MasterInv(MasterNext(m, e))
  {
    match e
    case BeginRound(act, now, b) => BeginKeeps(m, act, now, b);
    case HearTa(sender, o, stray) => HearTaKeeps(m, sender, o, stray);
    case PassOver(act, draw) => PassKeeps(m, act, draw);
    case Insert(_) =>
    case OtherKinds(_) =>
  }

  // ---------------------------------------------------------------- whole runs

  /** The master before any TB: nothing sent, nobody listed. */
  ghost predicate MasterInitial(m: Master) {
    && m.rt.bits == 0 && m.rt.msg == map[] && m.rt.amm == PerKind(0, 0, 0, 0, 0)
    && m.subs == [] && m.listed == [] && m.acked == {} && m.sends == 0 && m.sentNow == 0
  }

  lemma InitiallyMasterInv(m: Master)
    requires MasterInitial(m)
    ensures MasterInv(m)
  {
    forall k: Kind
      ensures !Armed(m.rt, k)
    {
      ZeroBit(BitOf(k));
    }
  }

  ghost predicate MasterRun(m: Master, events: seq<MasterEvent>)
    requires MasterInv(m)
    decreases |events|
  {
    events != [] ==>
      && MasterEnabled(m, events[0])
      && (MasterStepKeeps(m, events[0]); MasterRun(MasterNext(m, events[0]), events[1..]))
  }

  ghost function MasterAfter(m: Master, events: seq<MasterEvent>): Master
    requires MasterInv(m) && MasterRun(m, events)
    decreases |events|
  {
    if events == [] then m
    else
      MasterStepKeeps(m, events[0]);
      MasterAfter(MasterNext(m, events[0]), events[1..])
  }

  lemma {:induction false} RunKeepsMasterInv(m: Master, events: seq<MasterEvent>)
    requires MasterInv(m) && MasterRun(m, events)
    ensures MasterInv(MasterAfter(m, events))
    ensures m.sends <= MasterAfter(m, events).sends
    decreases |events|
  {
    if events != [] {
      MasterStepKeeps(m, events[0]);
      RunKeepsMasterInv(MasterNext(m, events[0]), events[1..]);
    }
  }

  /** States that the master can get into. */
  ghost predicate Reached(m: Master) {
    exists start, events ::
      && MasterInitial(start) && MasterInv(start) && MasterRun(start, events)
      && m == MasterAfter(start, events)
  }

  lemma ReachedIsGood(m: Master)
    requires Reached(m)
    ensures MasterInv(m) && Distinct(m.subs) && Distinct(m.listed)
  {
    var start, events :| MasterInitial(start) && MasterInv(start) && MasterRun(start, events)
      && m == MasterAfter(start, events);
    RunKeepsMasterInv(start, events);
    RunKeepsDistinct(start, events);
  }

  lemma InsertKeepsDistinct(subs: seq<Ip>, ip: Ip)
    requires Distinct(subs) && ip !in subs
    ensures Distinct([ip] + subs)
  {
    var list := [ip] + subs;
    assert forall i | 0 < i < |list| :: list[i] == subs[i - 1];
  }

  /** The slave list never has duplicates, so neither has the list of any TB. */
  lemma {:induction false} RunKeepsDistinct(m: Master, events: seq<MasterEvent>)
    requires MasterInv(m) && MasterRun(m, events) && Distinct(m.subs) && Distinct(m.listed)
    ensures Distinct(MasterAfter(m, events).subs) && Distinct(MasterAfter(m, events).listed)
    decreases |events|
  {
    if events != [] {
      if events[0].Insert? && events[0].ip !in m.subs {
        InsertKeepsDistinct(m.subs, events[0].ip);
      }
      MasterStepKeeps(m, events[0]);
      RunKeepsDistinct(MasterNext(m, events[0]), events[1..]);
    }
  }

  lemma DistinctList(m: Master)
    requires Distinct(m.listed)
    ensures Distinct(ListOf(m)) <==> m.ip !in m.listed
  {
    var list := ListOf(m);
    assert list[0] == m.ip && forall i | 0 <= i < |m.listed| :: list[i + 1] == m.listed[i];
    if m.ip !in m.listed {
      forall i, j | 0 <= i < j < |list|
        ensures list[i] != list[j]
      {
        if i > 0 {
          assert list[i] == m.listed[i - 1] && list[j] == m.listed[j - 1];
        }
      }
    }
  }

  /**
   * Bit by bit: after any run, with TAs in any order and repeated at will, bit `i` of the pending
   * TB is set exactly if a slave is listed there and has not been acknowledged; padding is zero.
   */
  lemma BitmapIsExact(m: Master, i: nat)
    requires Reached(m) && TB in m.rt.msg && m.ip !in m.listed && i < 8 * BitmapBytes(|m.listed| + 1)
    ensures var b := m.rt.msg[TB];
      && Readable(b) && Ips(b) == [m.ip] + m.listed
      && (Owes(b, |m.listed| + 1, i) <==> 1 <= i <= |m.listed| && m.listed[i - 1] !in m.acked)
  {
    ReachedIsGood(m);
    DistinctList(m);
    if i < |ListOf(m)| {
      FirstOfDistinct(ListOf(m), i);
    }
  }

  lemma NobodyOwesMeans(m: Master, b: seq<byte>)
    requires GoodPending(m, b)
    ensures NobodyOwes(b) <==> AllCleared(m)
  {
    var n := |ListOf(m)|;
    if NobodyOwes(b) {
      forall i | 1 <= i < n
        ensures Acknowledged(m, i)
      {
        assert !Owes(b, n, i);
      }
    }
  }

  ghost predicate AllCleared(m: Master) {
    forall i | 1 <= i < |ListOf(m)| :: Acknowledged(m, i)
  }

  ghost predicate EverybodyAcked(m: Master) {
    m.ip !in m.listed && forall s | s in m.listed :: s in m.acked
  }

  lemma ClearedMeansAcked(m: Master)
    requires AllCleared(m)
    ensures EverybodyAcked(m)
  {
    var list := ListOf(m);
    forall i | 0 <= i < |m.listed|
      ensures m.listed[i] in m.acked && m.listed[i] != m.ip
    {
      assert list[i + 1] == m.listed[i] && list[0] == m.ip;
      assert Acknowledged(m, i + 1);
    }
  }

  lemma AckedMeansCleared(m: Master)
    requires EverybodyAcked(m) && Distinct(m.listed)
    ensures AllCleared(m)
  {
    var list := ListOf(m);
    DistinctList(m);
    forall i | 1 <= i < |list|
      ensures Acknowledged(m, i)
    {
      assert list[i] == m.listed[i - 1];
      FirstOfDistinct(list, i);
    }
  }

  /**
   * Completion is exact: a TA ends the round if and only if it is the last one missing, the master
   * has not got its own address into the list, and, when the number of nodes is a multiple of
   * eight, the byte behind the buffer is zero.
   */
  lemma CompletionIsExact(m: Master, sender: Ip, o: Ip, stray: byte)
    requires Reached(m) && TB in m.rt.msg && Readable(m.rt.msg[TB])
    ensures TB !in TaReceived(m.rt, m.ip, sender, o, stray).msg
      <==> && sender != m.ip
           && m.ip !in m.listed
           && (forall s | s in m.listed :: s in m.acked + {o})
           && ((|m.listed| + 1) % 8 == 0 ==> stray == 0)
  {
    ReachedIsGood(m);
    var t := m.(acked := m.acked + {o});
    var b := WithoutTaOf(m.rt.msg[TB], o);
    TaIsGood(m, m.rt.msg[TB], o);
    ScanMeans(b, stray);
    NobodyOwesMeans(t, b);
    if AllCleared(t) {
      ClearedMeansAcked(t);
    }
    if EverybodyAcked(t) {
      AckedMeansCleared(t);
    }
  }

  /**
   * What goes into the outbound queue: in every reachable state a pass sends the pending TB, as it
   * was before the pass, if and only if it is armed and overdue, and no other TB. Its PBID is the
   * number of TBs of this round that have been sent before, as a short.
   */
  lemma SendsNumberedTb(m: Master, act: nat)
    requires Reached(m)
    ensures var queue := Queued(m.rt, act);
      && OfKind(queue, TB) == (if Armed(m.rt, TB) && act > m.rt.time.At(TB) then 1 else 0)
      && forall i | 0 <= i < |queue| && IsOfKind(queue[i], TB) ::
           && TB in m.rt.msg && queue[i] == m.rt.msg[TB]
           && Readable(queue[i]) && Pbid(queue[i]) == Wrap16(m.sentNow) && Core(queue[i]) == m.core
  {
    ReachedIsGood(m);
    OneOfKind(m.rt, act, TB);
    OnlyTbs(m.rt, ORDER, act);
    assert Queued(m.rt, act) == QueuedAll(m.rt, ORDER, act);
  }

  lemma {:induction false} OnlyTbs(s: Rt, todo: seq<Kind>, act: nat)
    requires Consistent(s) && Labelled(s)
    ensures var queue := QueuedAll(s, todo, act);
      forall i | 0 <= i < |queue| && IsOfKind(queue[i], TB) :: TB in s.msg && queue[i] == s.msg[TB]
  {
    if todo != [] {
      OnlyTbs(s, todo[1..], act);
      assert QueuedAll(s, todo, act) == QueuedOf(s, todo[0], act) + QueuedAll(s, todo[1..], act);
    }
  }

  /** Nothing but a TA ends a round. */
  lemma OnlyTasEndRounds(m: Master, e: MasterEvent)
    requires MasterInv(m) && MasterEnabled(m, e) && TB in m.rt.msg && !e.HearTa?
    ensures TB in MasterNext(m, e).rt.msg
  {
    if e.PassOver? {
      PassOnTb(m.rt, e.act, e.draw);
    }
  }

  // ---------------------------------------------------------------- when a TB may still change

  /** Whenever `beginTBTransmission` returns true, the pending TB lists every current sub-slave. */
  lemma BegunListsEverybody(m: Master, act: nat, now: nat, b: seq<byte>)
    requires MasterInv(m) && MasterEnabled(m, BeginRound(act, now, b)) && Begin(m.rt, act, b).ok
    ensures var t := MasterNext(m, BeginRound(act, now, b));
      && TB in t.rt.msg && Armed(t.rt, TB) && Readable(t.rt.msg[TB])
      && Ips(t.rt.msg[TB]) == [m.ip] + m.subs && Stamp(t.rt.msg[TB]) == now
      && (forall s | s in m.subs :: OwesTa(t.rt.msg[TB], s) || s == m.ip)
  {
    ReadsBack(b, m.ip, now, m.subs);
    MasterStepKeeps(m, BeginRound(act, now, b));
    var t := MasterNext(m, BeginRound(act, now, b));
    assert t.rt.msg[TB] == b;
    forall s | s in m.subs && s != m.ip
      ensures OwesTa(b, s)
    {
      assert s in Ips(b);
      assert First(Ips(b), s) != 0;
    }
  }

  /** The rule in terms of history: a running round is remade exactly when the transmissions so far fill whole bytes. */
  lemma RemadeIff(m: Master, act: nat, b: seq<byte>)
    requires MasterInv(m)
    ensures Begin(m.rt, act, b).ok <==> TB !in m.rt.msg || m.sends % 256 == 0
  {
  }

  /** So a later round refuses newcomers before it has been sent even once, because the counter is never reset. */
  lemma UnsentRoundRefuses(m: Master, e: MasterEvent, act: nat, b: seq<byte>)
    requires MasterInv(m) && TB !in m.rt.msg && m.sends % 256 != 0
    requires e.BeginRound? && MasterEnabled(m, e)
    ensures var t := MasterNext(m, e);
      TB in t.rt.msg && t.sentNow == 0 && !Begin(t.rt, act, b).ok
  {
    MasterStepKeeps(m, e);
    ArmTbConsistent(m.rt, e.bytes, e.act);
    RemadeIff(MasterNext(m, e), act, b);
  }

  /** And a round that has been sent is replaced after every 256 transmissions. */
  lemma SentRoundRemade(m: Master, act: nat, now: nat, b: seq<byte>)
    requires MasterInv(m) && MasterEnabled(m, BeginRound(act, now, b))
    requires TB in m.rt.msg && m.sentNow > 0 && m.sends % 256 == 0
    ensures var t := MasterNext(m, BeginRound(act, now, b));
      t.rt.msg[TB] == b && t.sentNow == 0 && t.rt.time == m.rt.time
  {
    RemadeIff(m, act, b);
  }

  ghost predicate StaysPending(m: Master, events: seq<MasterEvent>)
    requires MasterInv(m) && MasterRun(m, events)
    decreases |events|
  {
    && TB in m.rt.msg
    && (events != [] ==> (MasterStepKeeps(m, events[0]); StaysPending(MasterNext(m, events[0]), events[1..])))
  }

  /** One step leaves the core and the list alone, unless it remakes the round. */
  lemma StepFrozen(m: Master, e: MasterEvent)
    requires MasterInv(m) && MasterEnabled(m, e) && TB in m.rt.msg && m.sends % 256 != 0
    ensures var t := MasterNext(m, e);
      t.core == m.core && t.listed == m.listed && m.sends <= t.sends
  {
    if e.BeginRound? {
      RemadeIff(m, e.act, e.bytes);
    }
  }

  lemma SameBlock(a: nat, b: nat, c: nat)
    requires a <= b <= c && a / 256 == c / 256 && a % 256 != 0
    ensures b / 256 == a / 256 && b % 256 != 0
  {
  }

  /**
   * Freezing: while a round runs and its counter stays between two multiples of 256, the list, the
   * clock stamp and everything else that decides a timetable stay what they are.
   */
  lemma {:induction false} RoundIsFrozen(m: Master, events: seq<MasterEvent>)
    requires MasterInv(m) && MasterRun(m, events) && StaysPending(m, events)
    requires m.sends % 256 != 0 && MasterAfter(m, events).sends / 256 == m.sends / 256
    ensures MasterAfter(m, events).core == m.core && MasterAfter(m, events).listed == m.listed
    decreases |events|
  {
    if events != [] {
      MasterStepKeeps(m, events[0]);
      var t := MasterNext(m, events[0]);
      StepFrozen(m, events[0]);
      RunKeepsMasterInv(t, events[1..]);
      SameBlock(m.sends, t.sends, MasterAfter(m, events).sends);
      RoundIsFrozen(t, events[1..]);
    }
  }
}
