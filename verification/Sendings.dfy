/** How many sendings of a TB it takes to bring the TA of the last node of a row back. */
module Sendings {
  import opened Bytes
  import opened TbFormat
  import opened Node
  import opened Flooding
  import opened TbRound
  import opened RoundTrip
  import opened TaReturn
  import Retransmission
  import Transmissions

  // ---------------------------------------------------------------- the first sending

  /** What `m` is after beginning a round with `b` and the pass of the timer thread that first sends it. */
  ghost function FirstSent(
      m: Master, act: nat, now: nat, b: seq<byte>, later: nat, draw: Retransmission.PerKind): Master
    requires MasterInv(m) && MasterEnabled(m, BeginRound(act, now, b))
  {
    MasterStepKeeps(m, BeginRound(act, now, b));
    MasterNext(MasterNext(m, BeginRound(act, now, b)), PassOver(later, draw))
  }

  lemma FirstPass(m: Master, later: nat, draw: Retransmission.PerKind)
    requires MasterInv(m) && Retransmission.Due(m.rt, Retransmission.TB, later)
    ensures var t := MasterNext(m, PassOver(later, draw));
      MasterInv(t) && t.ip == m.ip && t.acked == m.acked && t.listed == m.listed && t.sentNow == m.sentNow + 1
  {
    MasterStepKeeps(m, PassOver(later, draw));
    Transmissions.OneOfKind(m.rt, later, Retransmission.TB);
  }

  lemma FirstSentIs(m: Master, act: nat, now: nat, b: seq<byte>, later: nat, draw: Retransmission.PerKind)
    requires MasterInv(m) && MasterEnabled(m, BeginRound(act, now, b)) && !Retransmission.Armed(m.rt, Retransmission.TB)
    requires later > act + Retransmission.TB_GENERATION_DELAY
    ensures var t := FirstSent(m, act, now, b, later, draw);
      MasterInv(t) && t.ip == m.ip && t.acked == {} && t.listed == m.subs && t.sentNow == 1
  {
    MasterStepKeeps(m, BeginRound(act, now, b));
    var begun := MasterNext(m, BeginRound(act, now, b));
    assert Retransmission.TB in begun.rt.msg && Retransmission.Due(begun.rt, Retransmission.TB, later);
    FirstPass(begun, later, draw);
  }

  /** Up to 256 nodes find their own bit. */
  lemma OwnBit(b: seq<byte>, ip: Ip)
    requires Readable(b) && ip in Ips(b) && First(Ips(b), ip) < 256
    ensures AsksForTa(b, First(Ips(b), ip)) <==> OwesTa(b, ip)
  {
    assert First(Ips(b), ip) % 256 == First(Ips(b), ip);
  }

  lemma FreshPlace(m: Ip, subs: seq<Ip>, ip: Ip)
    requires ip in subs && ip != m && |subs| < 256
    ensures ip in [m] + subs && 1 <= First([m] + subs, ip) < 256
  {
    var i :| 0 <= i < |subs| && subs[i] == ip;
    assert ([m] + subs)[i + 1] == ip;
  }

  /** Every slave owes its TA in `b`, which is the first of its kind, and finds its own bit. */
  ghost predicate AsksAll(b: seq<byte>, m: Ip, subs: seq<Ip>) {
    Readable(b) && Sender(b) == m && Pbid(b) == 0 && forall ip | ip in subs && ip != m :: Asks(b, ip)
  }

  predicate Asks(b: seq<byte>, ip: Ip)
    requires Readable(b)
  {
    ip in Ips(b) && First(Ips(b), ip) < 256 && OwesTa(b, ip) && AsksForTa(b, First(Ips(b), ip))
  }

  lemma FreshOwes(b: seq<byte>, m: Ip, subs: seq<Ip>, n: nat, ip: Ip)
    requires Readable(b) && Ips(b) == [m] + subs && |subs| < 256 && ip in subs && ip != m
    requires n == |subs| + 1 && forall i | 1 <= i < n :: Owes(b, n, i)
    ensures Asks(b, ip)
  {
    FreshPlace(m, subs, ip);
    OwnBit(b, ip);
  }

  lemma FreshAsksAll(b: seq<byte>, m: Ip, now: nat, subs: seq<Ip>)
    requires Generated(b, m, now, subs) && now < U64 && |subs| < 256
    ensures AsksAll(b, m, subs)
  {
    ReadsBack(b, m, now, subs);
    forall ip | ip in subs && ip != m
      ensures Asks(b, ip)
    {
      FreshOwes(b, m, subs, |subs| + 1, ip);
    }
  }

  /** A slave that has not taken part in the timetable of `b` and, unless it is the leaf itself, lists the leaf. */
  ghost predicate NewTo(w: World, ip: Ip, b: seq<byte>, leaf: Ip) {
    && Readable(b) && ip in w.nodes && w.nodes[ip].ip == ip && !w.nodes[ip].isMaster
    && IsNew(w.nodes[ip], b) && -32768 <= w.nodes[ip].tbPbid < 32767 && (ip == leaf || leaf in w.nodes[ip].subs)
  }

  /** The master has sent the first TB `b` of a round with `subs`, and the row has sent nothing. */
  ghost predicate FirstOut(w: World, row: seq<Ip>, b: seq<byte>, subs: seq<Ip>) {
    && |row| >= 2 && Distinct(row) && w.master == row[0] && row[0] !in w.nodes && w.heard == {}
    && (forall i | 0 < i < |row| :: row[i] in subs && NewTo(w, row[i], b, Leaf(row)))
    && Copy(row[0], Tb(b)) in w.air && forall c | c in w.air && c.sender in row :: c == Copy(row[0], Tb(b))
  }

  lemma SomeOwes(subs: seq<Ip>, b: seq<byte>, leaf: Ip)
    requires Readable(b) && leaf in subs && OwesTa(b, leaf)
    ensures SomeSubOwes(subs, b)
  {
    SomeSubOwesMeans(subs, b);
  }

  lemma NewRelays(s: NodeState, b: seq<byte>, leaf: Ip)
    requires Readable(b) && TakesPart(s, b) && IsNew(s, b) && Pbid(b) == 0 && -32768 <= s.tbPbid < 32767
    requires leaf in s.subs && OwesTa(b, leaf)
    ensures PassesTb(s, b)
  {
    SomeOwes(s.subs, b, leaf);
  }

  lemma FreshIsServed(w: World, row: seq<Ip>, b: seq<byte>, subs: seq<Ip>, i: nat)
    requires FirstOut(w, row, b, subs) && AsksAll(b, row[0], subs) && 0 < i < |row|
    ensures Slave(w, row[i], b) && IsNew(w.nodes[row[i]], b)
    ensures i < |row| - 1 ==> Serves(w, row[i], b, Leaf(row))
  {
    assert NewTo(w, row[i], b, Leaf(row)) && Asks(b, row[i]) && Asks(b, Leaf(row));
    if i < |row| - 1 {
      NewRelays(w.nodes[row[i]], b, Leaf(row));
    }
  }

  lemma FreshLeafAnswers(w: World, row: seq<Ip>, b: seq<byte>, subs: seq<Ip>)
    requires FirstOut(w, row, b, subs) && AsksAll(b, row[0], subs)
    ensures Leaf(row) in w.nodes && GivesTa(w.nodes[Leaf(row)], b)
  {
    var last := |row| - 1;
    assert NewTo(w, row[last], b, Leaf(row)) && Asks(b, row[last]);
  }

  lemma FirstOutIsRow(w: World, row: seq<Ip>, b: seq<byte>, subs: seq<Ip>)
    requires FirstOut(w, row, b, subs) && AsksAll(b, row[0], subs)
    ensures Row(w, row, b) && Leaf(row) in w.nodes && forall p :: AllOlder(w, row, b, p)
  {
    forall i | 0 < i < |row|
      ensures Slave(w, row[i], b) && IsNew(w.nodes[row[i]], b)
    {
      FreshIsServed(w, row, b, subs, i);
    }
  }

  lemma FirstOutIsAlone(w: World, row: seq<Ip>, b: seq<byte>, subs: seq<Ip>)
    requires FirstOut(w, row, b, subs) && Readable(b) && Sender(b) == row[0]
    ensures OneTb(w, row, b) && NoTbFrom(w, row, 1) && NoTaUpTo(w, row, Leaf(row), |row| - 1)
  {
    assert Stamped(b, row[0]) == b;
  }

  lemma FirstOutIsJustSent(w: World, row: seq<Ip>, b: seq<byte>, subs: seq<Ip>)
    requires FirstOut(w, row, b, subs) && AsksAll(b, row[0], subs)
    ensures JustSent(w, row, b)
  {
    FirstOutIsRow(w, row, b, subs);
    FirstOutIsAlone(w, row, b, subs);
  }

  lemma FirstOutIsNewer(w: World, row: seq<Ip>, b: seq<byte>, subs: seq<Ip>)
    requires FirstOut(w, row, b, subs) && AsksAll(b, row[0], subs)
    ensures Leaf(row) in w.nodes && NewerAfter(w, row, b, 1)
  {
    FirstOutIsRow(w, row, b, subs);
    FreshLeafAnswers(w, row, b, subs);
    assert GivesTa(Retook(w.nodes[Leaf(row)], b, 0), b);
  }

  lemma FirstOutIsServed(w: World, row: seq<Ip>, b: seq<byte>, subs: seq<Ip>)
    requires FirstOut(w, row, b, subs) && AsksAll(b, row[0], subs)
    ensures AllServe(w, row, b)
  {
    FreshLeafAnswers(w, row, b, subs);
    forall j | 0 < j < |row| - 1
      ensures Serves(w, row[j], b, Leaf(row))
    {
      FreshIsServed(w, row, b, subs, j);
    }
  }

  /**
   * From the generation of a TB to the cleared bit: if it is new to the slaves of a row, and each
   * lists the last one, then the first sending of a new round can bring the TA of the last one back.
   */
  lemma FirstSendingComesBack(m: Master, act: nat, now: nat, b: seq<byte>, later: nat, draw: Retransmission.PerKind,
      w: World, row: seq<Ip>)
    requires MasterInv(m) && !Retransmission.Armed(m.rt, Retransmission.TB)
    requires MasterEnabled(m, BeginRound(act, now, b)) && now < U64 && |m.subs| < 256
    requires m.ip == w.master && FirstOut(w, row, b, m.subs) && later > act + Retransmission.TB_GENERATION_DELAY
    ensures var t := FirstSent(m, act, now, b, later, draw);
      MasterInv(t) && t.sentNow == 1 && LeafCleared(t, w, row, 1)
  {
    FirstSentIs(m, act, now, b, later, draw);
    FreshAsksAll(b, m.ip, now, m.subs);
    FirstOutIsJustSent(w, row, b, m.subs);
    FirstOutIsServed(w, row, b, m.subs);
    FirstOutIsNewer(w, row, b, m.subs);
    BitClearedExactly(FirstSent(m, act, now, b, later, draw), w, row, b, 1);
  }

  // ---------------------------------------------------------------- sending again

  /** A slave that has taken part in the timetable of `b`, is one of its first 256 nodes, and lists the leaf. */
  ghost predicate Knows(w: World, ip: Ip, b: seq<byte>, leaf: Ip) {
    && Slave(w, ip, b) && !IsNew(w.nodes[ip], b) && -32768 <= w.nodes[ip].tbPbid < 32767
    && First(Ips(b), ip) < 256 && (ip == leaf || leaf in w.nodes[ip].subs)
  }

  /** How far the PBID must be ahead of a slave's own to be relayed. */
  function Lead(b: seq<byte>, ip: Ip): int
    requires Readable(b)
  {
    if OwesTa(b, ip) then 2 else 1
  }

  ghost predicate IsAhead(w: World, ip: Ip, b: seq<byte>)
    requires Readable(b)
  {
    ip in w.nodes && Pbid(b) >= w.nodes[ip].tbPbid + Lead(b, ip)
  }

  lemma KnownRelays(s: NodeState, b: seq<byte>, leaf: Ip)
    requires Readable(b) && TakesPart(s, b) && !IsNew(s, b) && -32768 <= s.tbPbid < 32767
    requires First(Ips(b), s.ip) < 256 && leaf in s.subs && OwesTa(b, leaf)
    ensures PassesTb(s, b) <==> Pbid(b) >= s.tbPbid + Lead(b, s.ip)
  {
    var place := First(Ips(b), s.ip);
    SomeOwes(s.subs, b, leaf);
    OwnBit(b, s.ip);
    RelayRule(s, b, place);
    assert PassesTb(s, b) <==> Relays(s, b, place);
  }

  lemma KnownServes(w: World, row: seq<Ip>, b: seq<byte>, j: nat)
    requires Row(w, row, b) && 0 < j < |row| - 1 && Knows(w, row[j], b, Leaf(row)) && OwesTa(b, Leaf(row))
    ensures Serves(w, row[j], b, Leaf(row)) <==> IsAhead(w, row[j], b)
  {
    KnownRelays(w.nodes[row[j]], b, Leaf(row));
  }

  lemma KnownAnswers(s: NodeState, b: seq<byte>)
    requires Readable(b) && TakesPart(s, b) && First(Ips(b), s.ip) < 256 && OwesTa(b, s.ip)
    requires -32768 <= s.tbPbid < 32767
    ensures GivesTa(s, b)
  {
    OwnBit(b, s.ip);
  }

  /** All in between are behind the PBID by as much as they need. */
  ghost predicate AllAhead(w: World, row: seq<Ip>, b: seq<byte>)
    requires Readable(b)
  {
    forall j | 0 < j < |row| - 1 :: IsAhead(w, row[j], b)
  }

  lemma ServedIffAhead(w: World, row: seq<Ip>, b: seq<byte>)
    requires Row(w, row, b) && OwesTa(b, Leaf(row)) && forall j | 0 < j < |row| :: Knows(w, row[j], b, Leaf(row))
    ensures AllServe(w, row, b) <==> AllAhead(w, row, b)
  {
    assert Knows(w, row[|row| - 1], b, Leaf(row));
    KnownAnswers(w.nodes[Leaf(row)], b);
    forall j | 0 < j < |row| - 1
      ensures Serves(w, row[j], b, Leaf(row)) <==> IsAhead(w, row[j], b)
    {
      assert Knows(w, row[j], b, Leaf(row));
      KnownServes(w, row, b, j);
    }
  }

  /**
   * A TB that is sent again, and heard once by the last node, gets its TA back exactly if its PBID is
   * ahead of that of every node in between, by one if the node has been acknowledged and by two if
   * not, and the PBID of the last node is above all that they have recorded of it.
   */
  lemma ResendingComesBackExactly(w: World, row: seq<Ip>, b: seq<byte>)
    requires JustSent(w, row, b) && OwesTa(b, Leaf(row))
    requires forall j | 0 < j < |row| :: Knows(w, row[j], b, Leaf(row))
    ensures CanComeBack(w, row, 1) <==> AllAhead(w, row, b) && AllOlder(w, row, b, w.nodes[Leaf(row)].tbPbid)
  {
    TaComesBackOnce(w, row, b);
    ServedIffAhead(w, row, b);
  }

  // ---------------------------------------------------------------- one sending after another

  /** The world, and the TB that the master sends next. */
  datatype Round = Round(world: World, tb: seq<byte>)

  /** The master sends the TB; by then all that was sent before is gone. */
  function Sent(r: Round): World {
    r.world.(air := {Copy(r.world.master, Tb(r.tb))})
  }

  /** The master's TB after the TAs that are counted in `events`. */
  function Counted(b: seq<byte>, events: seq<Event>): (r: seq<byte>)
    requires Readable(b)
    ensures Readable(r)
    decreases |events|
  {
    if events == [] then b
    else if events[0].Counts? && events[0].copy.message.Ta? then
      ClearingKeepsCore(b, events[0].copy.message.originator);
      Counted(WithoutTaOf(b, events[0].copy.message.originator), events[1..])
    else Counted(b, events[1..])
  }

  /** What can happen between one sending and the next. */
  ghost predicate PhaseRuns(r: Round, row: seq<Ip>, events: seq<Event>) {
    Readable(r.tb) && Runs(Sent(r), row, events)
  }

  ghost function AfterPhase(r: Round, row: seq<Ip>, events: seq<Event>): Round
    requires PhaseRuns(r, row, events)
  {
    BumpingKeepsCore(r.tb);
    Round(End(Sent(r), row, events), Counted(WithNextPbid(r.tb), events))
  }

  /** What the TAs of a run do to the pending TB, as long as they do not end the round. */
  lemma {:induction false} CountedAtMaster(m: Master, w: World, row: seq<Ip>, events: seq<Event>, b: seq<byte>)
    requires MasterInv(m) && m.ip == w.master && m.acked == w.heard && Runs(w, row, events) && Readable(b)
    requires Retransmission.TB in m.rt.msg ==> m.rt.msg[Retransmission.TB] == b
    ensures MasterRun(m, TaEvents(events))
    ensures var rt := MasterAfter(m, TaEvents(events)).rt;
      Retransmission.TB in rt.msg ==> rt.msg[Retransmission.TB] == Counted(b, events)
    decreases |events|
  {
    if events != [] {
      var e, later := events[0], TaEvents(events[1..]);
      if e.Counts? {
        var o := e.copy.message.originator;
        var ta := HearTa(e.copy.sender, o, e.stray);
        MasterStepKeeps(m, ta);
        ClearingKeepsCore(b, o);
        CountedAtMaster(MasterNext(m, ta), After(w, e), row, events[1..], WithoutTaOf(b, o));
        assert TaEvents(events) == [ta] + later && ([ta] + later)[1..] == later;
      } else {
        CountedAtMaster(m, After(w, e), row, events[1..], b);
        assert TaEvents(events) == later;
      }
    }
  }

  lemma PassBumps(m: Master, act: nat, draw: Retransmission.PerKind)
    requires MasterInv(m) && Retransmission.Due(m.rt, Retransmission.TB, act)
    ensures Retransmission.TB in m.rt.msg && Readable(m.rt.msg[Retransmission.TB])
    ensures var t := MasterNext(m, PassOver(act, draw));
      && MasterInv(t) && t.ip == m.ip && t.acked == m.acked
      && Retransmission.TB in t.rt.msg
      && t.rt.msg[Retransmission.TB] == WithNextPbid(m.rt.msg[Retransmission.TB])
  {
    MasterStepKeeps(m, PassOver(act, draw));
    PassOnTb(m.rt, act, draw);
  }

  /**
   * A phase is a pass of the master's timers and the TAs that it hears until the next: the pass queues
   * exactly one TB, the one that the phase sends, and what is pending at the end, unless the round is
   * over, is the one that the next phase sends.
   */
  lemma PhaseIsPass(m: Master, r: Round, row: seq<Ip>, events: seq<Event>, act: nat, draw: Retransmission.PerKind)
    requires MasterInv(m) && Retransmission.TB in m.rt.msg && m.rt.msg[Retransmission.TB] == r.tb
    requires m.ip == r.world.master && m.acked == r.world.heard && PhaseRuns(r, row, events)
    requires Retransmission.Armed(m.rt, Retransmission.TB) && act > m.rt.time.At(Retransmission.TB)
    ensures Transmissions.OfKind(Retransmission.Queued(m.rt, act), Retransmission.TB) == 1
    ensures r.tb in Retransmission.Queued(m.rt, act)
    ensures var t := MasterNext(m, PassOver(act, draw)); MasterInv(t) && MasterRun(t, TaEvents(events))
    ensures var end := MasterAfter(MasterNext(m, PassOver(act, draw)), TaEvents(events));
      && end.acked == AfterPhase(r, row, events).world.heard
      && (Retransmission.TB in end.rt.msg ==> end.rt.msg[Retransmission.TB] == AfterPhase(r, row, events).tb)
  {
    Transmissions.OneOfKind(m.rt, act, Retransmission.TB);
    QueuesTb(m, act);
    PassBumps(m, act, draw);
    BumpingKeepsCore(r.tb);
    var t := MasterNext(m, PassOver(act, draw));
    CountedAtMaster(t, Sent(r), row, events, WithNextPbid(r.tb));
    MasterAcknowledges(t, Sent(r), row, events);
  }

  lemma QueuesTb(m: Master, act: nat)
    requires MasterInv(m) && Retransmission.TB in m.rt.msg && Retransmission.Due(m.rt, Retransmission.TB, act)
    ensures m.rt.msg[Retransmission.TB] in Retransmission.Queued(m.rt, act)
  {
    Transmissions.QueuesMessage(m.rt, act, Retransmission.TB);
  }

  /** As many sendings as there are phases. */
  ghost predicate RoundRuns(r: Round, row: seq<Ip>, phases: seq<seq<Event>>)
    decreases |phases|
  {
    phases != [] ==> PhaseRuns(r, row, phases[0]) && RoundRuns(AfterPhase(r, row, phases[0]), row, phases[1..])
  }

  ghost function RoundEnd(r: Round, row: seq<Ip>, phases: seq<seq<Event>>): Round
    requires RoundRuns(r, row, phases)
    decreases |phases|
  {
    if phases == [] then r else RoundEnd(AfterPhase(r, row, phases[0]), row, phases[1..])
  }

  /** The leaf hears each sending at most once. */
  ghost predicate HeardOnce(row: seq<Ip>, phases: seq<seq<Event>>)
    requires row != []
  {
    forall i | 0 <= i < |phases| :: Hearings(phases[i], Leaf(row)) <= 1
  }

  /** With at most `n` sendings, each heard at most once by the leaf, its TA gets to the master. */
  ghost predicate Suffice(r: Round, row: seq<Ip>, n: nat)
    requires row != []
  {
    exists phases ::
      |phases| <= n && RoundRuns(r, row, phases) && HeardOnce(row, phases)
      && Leaf(row) in RoundEnd(r, row, phases).world.heard
  }

  // ---------------------------------------------------------------- the TB from one sending to the next

  /** The same list and timetable, from the same sender. */
  ghost predicate SameRound(b: seq<byte>, c: seq<byte>) {
    Readable(b) && Readable(c) && Ips(c) == Ips(b) && Sender(c) == Sender(b) && Signature(c) == Signature(b)
  }

  lemma CoreHoldsSignature(b: seq<byte>)
    requires Readable(b)
    ensures |Core(b)| >= 10 && Signature(b) == Core(b)[10..]
  {
  }

  lemma SameCore(b: seq<byte>, c: seq<byte>)
    requires Readable(b) && Readable(c) && Core(c) == Core(b) && Sender(c) == Sender(b)
    ensures SameRound(b, c)
  {
    CoreDecides(b, c);
    CoreHoldsSignature(b);
    CoreHoldsSignature(c);
  }

  lemma BumpKeepsBits(b: seq<byte>, place: nat)
    requires Readable(b) && place < |Ips(b)|
    ensures Owes(WithNextPbid(b), |Ips(b)|, place) <==> Owes(b, |Ips(b)|, place)
  {
  }

  lemma BumpedTb(b: seq<byte>)
    requires Readable(b) && Pbid(b) < 32767
    ensures var c := WithNextPbid(b);
      SameRound(b, c) && Pbid(c) == Pbid(b) + 1 && forall o :: OwesTa(c, o) <==> OwesTa(b, o)
  {
    var c := WithNextPbid(b);
    NextPbid(b);
    BumpingKeepsCore(b);
    SameCore(b, c);
    forall o
      ensures OwesTa(c, o) <==> OwesTa(b, o)
    {
      if First(Ips(b), o) != -1 {
        BumpKeepsBits(b, First(Ips(b), o));
      }
    }
  }

  lemma ClearedTb(b: seq<byte>, ip: Ip)
    requires Readable(b)
    ensures var c := WithoutTaOf(b, ip);
      SameRound(b, c) && Pbid(c) == Pbid(b) && forall o :: OwesTa(c, o) <==> OwesTa(b, o) && o != ip
  {
    var c := WithoutTaOf(b, ip);
    ClearingIsExact(b, ip);
    assert c[1] == c[..5][1] && c[2] == c[..5][2] && c[3] == c[..5][3] && c[4] == c[..5][4];
    assert b[1] == b[..5][1] && b[2] == b[..5][2] && b[3] == b[..5][3] && b[4] == b[..5][4];
    SameCore(b, c);
  }

  predicate CountsTa(events: seq<Event>, o: Ip) {
    exists e | e in events :: e.Counts? && e.copy.message.Ta? && e.copy.message.originator == o
  }

  lemma {:induction false} CountedTb(b: seq<byte>, events: seq<Event>)
    requires Readable(b)
    ensures var c := Counted(b, events);
      SameRound(b, c) && Pbid(c) == Pbid(b) && forall o :: OwesTa(c, o) <==> OwesTa(b, o) && !CountsTa(events, o)
    decreases |events|
  {
    if events != [] {
      var e := events[0];
      forall o
        ensures CountsTa(events, o)
          <==> (e.Counts? && e.copy.message.Ta? && e.copy.message.originator == o) || CountsTa(events[1..], o)
      {
        assert events == [e] + events[1..];
      }
      if e.Counts? && e.copy.message.Ta? {
        ClearedTb(b, e.copy.message.originator);
        CountedTb(WithoutTaOf(b, e.copy.message.originator), events[1..]);
      } else {
        CountedTb(b, events[1..]);
      }
    }
  }

  /** Who has been heard is whoever was, and the originators of the TAs counted since. */
  lemma {:induction false} HeardIsCounted(w: World, row: seq<Ip>, events: seq<Event>, o: Ip)
    requires Runs(w, row, events)
    ensures o in End(w, row, events).heard <==> o in w.heard || CountsTa(events, o)
    decreases |events|
  {
    if events != [] {
      var e := events[0];
      HeardIsCounted(After(w, e), row, events[1..], o);
      assert events == [e] + events[1..];
    }
  }

  /** The TB of the next sending: one PBID on, and without those that have been heard meanwhile. */
  lemma NextTb(r: Round, row: seq<Ip>, events: seq<Event>)
    requires PhaseRuns(r, row, events) && Pbid(r.tb) < 32767
    ensures var t := AfterPhase(r, row, events);
      && SameRound(r.tb, t.tb) && Pbid(t.tb) == Pbid(r.tb) + 1
      && (forall o :: OwesTa(t.tb, o) ==> OwesTa(r.tb, o))
      && (forall o :: o !in r.world.heard ==> (OwesTa(t.tb, o) <==> OwesTa(r.tb, o) && o !in t.world.heard))
  {
    BumpedTb(r.tb);
    CountedTb(WithNextPbid(r.tb), events);
    forall o | o !in r.world.heard
      ensures o in End(Sent(r), row, events).heard <==> CountsTa(events, o)
    {
      HeardIsCounted(Sent(r), row, events, o);
    }
  }

  // ---------------------------------------------------------------- what a phase leaves

  /** The row is there for the next sending, and the leaf has not been acknowledged. */
  ghost predicate Ready(r: Round, row: seq<Ip>) {
    Row(Sent(r), row, r.tb) && Leaf(row) in r.world.nodes && Leaf(row) !in r.world.heard
  }

  lemma ReadyIsJustSent(r: Round, row: seq<Ip>)
    requires Ready(r, row)
    ensures JustSent(Sent(r), row, r.tb)
  {
    assert Stamped(r.tb, row[0]) == r.tb;
  }

  lemma RowOfRound(w: World, row: seq<Ip>, b: seq<byte>, c: seq<byte>)
    requires Row(w, row, b) && SameRound(b, c)
    ensures Row(w, row, c)
  {
    forall i | 0 < i < |row|
      ensures Slave(w, row[i], c)
    {
      assert Slave(w, row[i], b);
    }
  }

  lemma RowAside(w: World, row: seq<Ip>, b: seq<byte>, air: set<Copy>)
    requires Row(w, row, b)
    ensures Row(w.(air := air), row, b)
  {
    forall i | 0 < i < |row|
      ensures Slave(w.(air := air), row[i], b)
    {
      assert Slave(w, row[i], b);
    }
  }

  /** What has become of the leaf, if it has heard the sending at most once. */
  predicate LeafMoved(s: NodeState, t: NodeState, b: seq<byte>, heard: bool)
    requires Readable(b)
  {
    Alike(if heard then Took(s, b) else s, t)
  }

  lemma PhaseLeaves(r: Round, row: seq<Ip>, events: seq<Event>, s: NodeState)
    requires Ready(r, row) && PhaseRuns(r, row, events) && Hearings(events, Leaf(row)) <= 1
    requires s == r.world.nodes[Leaf(row)]
    ensures var w := End(Sent(r), row, events);
      && Row(w, row, r.tb) && AllKeep(Sent(r), w, row, r.tb)
      && Leaf(row) in w.nodes && LeafMoved(s, w.nodes[Leaf(row)], r.tb, Hearings(events, Leaf(row)) == 1)
  {
    ReadyIsJustSent(r, row);
    JustSentIsTraced(Sent(r), row, r.tb, s);
    var given, t := RunTraced(Sent(r), Sent(r), row, r.tb, s, {}, events);
    if |given| == 1 {
      assert Replays(Took(s, r.tb), r.tb, given[1..], t);
    }
  }

  lemma StillReady(r: Round, row: seq<Ip>, events: seq<Event>)
    requires Ready(r, row) && PhaseRuns(r, row, events) && Pbid(r.tb) < 32767
    requires var w := End(Sent(r), row, events);
      Row(w, row, r.tb) && Leaf(row) in w.nodes && Leaf(row) !in w.heard
    ensures Ready(AfterPhase(r, row, events), row)
  {
    var t := AfterPhase(r, row, events);
    NextTb(r, row, events);
    RowOfRound(t.world, row, r.tb, t.tb);
    RowAside(t.world, row, t.tb, Sent(t).air);
  }

  // ---------------------------------------------------------------- how many sendings are too few

  /** Position `j` knows the timetable of `b`, and has recorded a TA of the leaf with `p` or more. */
  ghost predicate RecordedAt(w: World, row: seq<Ip>, b: seq<byte>, j: nat, p: int)
    requires Readable(b) && row != []
  {
    && 0 < j < |row| - 1 && row[j] in w.nodes && !IsNew(w.nodes[row[j]], b)
    && Leaf(row) in w.nodes[row[j]].taSeen && w.nodes[row[j]].taSeen[Leaf(row)] >= p
  }

  lemma TookIsBehind(s: NodeState, b: seq<byte>)
    requires Readable(b) && s.tbPbid < Pbid(b) && -32768 <= s.tbPbid
    ensures -32768 <= Took(s, b).tbPbid <= Pbid(b)
  {
  }

  lemma StillRecorded(v: World, w: World, row: seq<Ip>, b: seq<byte>, c: seq<byte>, j: nat, p: int)
    requires SameRound(b, c) && row != [] && RecordedAt(v, row, b, j, p) && AllKeep(v, w, row, b)
    ensures RecordedAt(w, row, c, j, p)
  {
    assert KeepsAt(v, w, row[j], b, Leaf(row));
  }

  /** The leaf's PBID is behind that of the next TB. */
  ghost predicate LeafBehind(r: Round, row: seq<Ip>)
    requires Ready(r, row)
  {
    -32768 <= r.world.nodes[Leaf(row)].tbPbid < Pbid(r.tb)
  }

  lemma RecordedIsNotOlder(w: World, row: seq<Ip>, b: seq<byte>, j: nat, p: int, q: int)
    requires Readable(b) && row != [] && RecordedAt(w, row, b, j, p) && q <= p
    ensures !AllOlder(w, row, b, q)
  {
    assert !OlderAt(w, row[j], b, Leaf(row), q);
  }

  lemma SwallowedInPhase(r: Round, row: seq<Ip>, events: seq<Event>, j: nat, n: nat)
    requires Ready(r, row) && LeafBehind(r, row) && n > 0 && Pbid(r.tb) + n <= 32767
    requires RecordedAt(r.world, row, r.tb, j, Pbid(r.tb) + n - 2)
    requires PhaseRuns(r, row, events) && Hearings(events, Leaf(row)) <= 1
    ensures Leaf(row) !in End(Sent(r), row, events).heard
  {
    ReadyIsJustSent(r, row);
    TaComesBackOnce(Sent(r), row, r.tb);
    RecordedIsNotOlder(Sent(r), row, r.tb, j, Pbid(r.tb) + n - 2, r.world.nodes[Leaf(row)].tbPbid);
  }

  lemma AfterSwallowed(r: Round, row: seq<Ip>, events: seq<Event>, j: nat, n: nat)
    requires Ready(r, row) && LeafBehind(r, row) && n > 0 && Pbid(r.tb) + n <= 32767
    requires RecordedAt(r.world, row, r.tb, j, Pbid(r.tb) + n - 2)
    requires PhaseRuns(r, row, events) && Hearings(events, Leaf(row)) <= 1
    ensures var t := AfterPhase(r, row, events);
      && Ready(t, row) && LeafBehind(t, row) && Pbid(t.tb) == Pbid(r.tb) + 1
      && RecordedAt(t.world, row, t.tb, j, Pbid(r.tb) + n - 2)
  {
    var s := r.world.nodes[Leaf(row)];
    SwallowedInPhase(r, row, events, j, n);
    PhaseLeaves(r, row, events, s);
    StillReady(r, row, events);
    NextTb(r, row, events);
    TookIsBehind(s, r.tb);
    StillRecorded(Sent(r), AfterPhase(r, row, events).world, row, r.tb, AfterPhase(r, row, events).tb, j,
      Pbid(r.tb) + n - 2);
  }

  /**
   * Over every run of at most `n` sendings, if one node in between has recorded a TA of the leaf
   * with a PBID that the leaf's own does not pass in so many sendings, it swallows all its TAs.
   */
  lemma {:induction false} TooFewSendings(r: Round, row: seq<Ip>, phases: seq<seq<Event>>, j: nat, n: nat)
    requires Ready(r, row) && LeafBehind(r, row) && Pbid(r.tb) + n <= 32767
    requires RecordedAt(r.world, row, r.tb, j, Pbid(r.tb) + n - 2)
    requires RoundRuns(r, row, phases) && HeardOnce(row, phases) && |phases| <= n
    ensures Leaf(row) !in RoundEnd(r, row, phases).world.heard
    decreases |phases|
  {
    if phases != [] {
      AfterSwallowed(r, row, phases[0], j, n);
      assert forall i | 0 <= i < |phases[1..]| :: phases[1..][i] == phases[i + 1];
      TooFewSendings(AfterPhase(r, row, phases[0]), row, phases[1..], j, n - 1);
    }
  }

  // ---------------------------------------------------------------- how many are enough

  /** A slave that knows the timetable, is one of the first 256, and is one behind the next TB. */
  ghost predicate InStep(r: Round, ip: Ip, leaf: Ip) {
    Knows(r.world, ip, r.tb, leaf) && r.world.nodes[ip].tbPbid + 1 == Pbid(r.tb)
  }

  /** All in between have been acknowledged, the leaf has not, and all are in step. */
  ghost predicate AllInStep(r: Round, row: seq<Ip>) {
    && Ready(r, row) && OwesTa(r.tb, Leaf(row)) && (forall j | 0 < j < |row| :: InStep(r, row[j], Leaf(row)))
    && forall j | 0 < j < |row| - 1 :: !OwesTa(r.tb, row[j]) && row[j] in r.world.heard
  }

  lemma InStepServes(r: Round, row: seq<Ip>)
    requires AllInStep(r, row)
    ensures AllServe(Sent(r), row, r.tb)
  {
    forall j | 0 < j < |row|
      ensures Knows(Sent(r), row[j], r.tb, Leaf(row)) && (j < |row| - 1 ==> IsAhead(Sent(r), row[j], r.tb))
    {
      assert InStep(r, row[j], Leaf(row)) && Slave(Sent(r), row[j], r.tb);
    }
    ServedIffAhead(Sent(r), row, r.tb);
  }

  /** Hearing the TB once keeps a slave in step: it relays it if acknowledged, and else answers it. */
  lemma TookInStep(s: NodeState, b: seq<byte>, leaf: Ip)
    requires Readable(b) && TakesPart(s, b) && !IsNew(s, b) && s.tbPbid + 1 == Pbid(b) && -32768 <= s.tbPbid < 32767
    requires First(Ips(b), s.ip) < 256 && if s.ip == leaf then OwesTa(b, s.ip) else PassesTb(s, b)
    ensures var t := Took(s, b); t == s.(status := t.status, newTimeTable := t.newTimeTable, tbPbid := Pbid(b))
  {
    OwnBit(b, s.ip);
  }

  /** The TB floods to the leaf and is heard once by all; all TAs get lost. */
  lemma QuietPhase(r: Round, row: seq<Ip>) returns (events: seq<Event>)
    requires AllInStep(r, row)
    ensures PhaseRuns(r, row, events) && Hearings(events, Leaf(row)) <= 1
    ensures Flooded(Sent(r), End(Sent(r), row, events), row, r.tb, 1) && Row(End(Sent(r), row, events), row, r.tb)
  {
    ReadyIsJustSent(r, row);
    InStepServes(r, row);
    events := Floods(Sent(r), row, r.tb, r.world.nodes[Leaf(row)]);
  }

  lemma StillInStep(r: Round, row: seq<Ip>, events: seq<Event>, j: nat)
    requires AllInStep(r, row) && Pbid(r.tb) < 32766 && 0 < j < |row| && PhaseRuns(r, row, events)
    requires Flooded(Sent(r), End(Sent(r), row, events), row, r.tb, 1)
    ensures var t := AfterPhase(r, row, events);
      InStep(t, row[j], Leaf(row)) && t.world.nodes[row[j]].taSeen == r.world.nodes[row[j]].taSeen
  {
    var s, t := r.world.nodes[row[j]], AfterPhase(r, row, events);
    assert InStep(r, row[j], Leaf(row)) && TookIf(Sent(r), t.world, row[j], r.tb, true);
    InStepServes(r, row);
    assert j < |row| - 1 ==> Serves(Sent(r), row[j], r.tb, Leaf(row));
    TookInStep(s, r.tb, Leaf(row));
    NextTb(r, row, events);
  }

  lemma StillOlder(r: Round, t: Round, row: seq<Ip>, j: nat, p: int)
    requires row != [] && SameRound(r.tb, t.tb) && 0 < j < |row| - 1 && AllOlder(r.world, row, r.tb, p)
    requires InStep(r, row[j], Leaf(row)) && InStep(t, row[j], Leaf(row))
    requires t.world.nodes[row[j]].taSeen == r.world.nodes[row[j]].taSeen
    ensures OlderAt(t.world, row[j], t.tb, Leaf(row), p)
  {
    assert OlderAt(r.world, row[j], r.tb, Leaf(row), p);
  }

  /** After such a phase all are in step again, and nothing new has been recorded. */
  lemma QuietLeavesInStep(r: Round, row: seq<Ip>, events: seq<Event>, t: Round, p: int)
    requires AllInStep(r, row) && Pbid(r.tb) < 32766 && AllOlder(r.world, row, r.tb, p)
    requires PhaseRuns(r, row, events) && Hearings(events, Leaf(row)) <= 1 && t == AfterPhase(r, row, events)
    requires Flooded(Sent(r), t.world, row, r.tb, 1) && Row(t.world, row, r.tb)
    ensures AllInStep(t, row) && Pbid(t.tb) == Pbid(r.tb) + 1 && AllOlder(t.world, row, t.tb, p)
  {
    NextTb(r, row, events);
    forall j | 0 < j < |row|
      ensures InStep(t, row[j], Leaf(row))
      ensures j < |row| - 1 ==> OlderAt(t.world, row[j], t.tb, Leaf(row), p)
    {
      StillInStep(r, row, events, j);
      assert InStep(r, row[j], Leaf(row));
      if j < |row| - 1 {
        StillOlder(r, t, row, j, p);
      }
    }
    assert InStep(t, row[|row| - 1], Leaf(row));
    StillReady(r, row, events);
  }

  lemma OnePhase(r: Round, row: seq<Ip>, events: seq<Event>)
    requires row != [] && PhaseRuns(r, row, events) && Hearings(events, Leaf(row)) <= 1
    requires Leaf(row) in End(Sent(r), row, events).heard
    ensures Suffice(r, row, 1)
  {
    var phases := [events];
    assert phases[1..] == [] && RoundRuns(AfterPhase(r, row, events), row, []);
    assert RoundRuns(r, row, phases) && RoundEnd(r, row, phases) == AfterPhase(r, row, events);
    assert HeardOnce(row, phases);
  }

  lemma OneMorePhase(r: Round, row: seq<Ip>, events: seq<Event>, n: nat)
    requires row != [] && PhaseRuns(r, row, events) && Hearings(events, Leaf(row)) <= 1
    requires Suffice(AfterPhase(r, row, events), row, n)
    ensures Suffice(r, row, n + 1)
  {
    var t := AfterPhase(r, row, events);
    var rest :| |rest| <= n && RoundRuns(t, row, rest) && HeardOnce(row, rest)
      && Leaf(row) in RoundEnd(t, row, rest).world.heard;
    var phases := [events] + rest;
    assert phases[0] == events && phases[1..] == rest;
    assert RoundRuns(r, row, phases) && HeardOnce(row, phases) && RoundEnd(r, row, phases) == RoundEnd(t, row, rest);
  }

  /** One sending that can bring the TA back is enough. */
  lemma ThisOneSuffices(r: Round, row: seq<Ip>)
    requires Ready(r, row) && CanComeBack(Sent(r), row, 1)
    ensures Suffice(r, row, 1)
  {
    var events :| Runs(Sent(r), row, events) && Hearings(events, Leaf(row)) <= 1
      && Leaf(row) in End(Sent(r), row, events).heard;
    OnePhase(r, row, events);
  }

  lemma {:induction false} EnoughSendings(r: Round, row: seq<Ip>, n: nat)
    requires AllInStep(r, row) && n > 0 && Pbid(r.tb) + n <= 32767
    requires AllOlder(r.world, row, r.tb, Pbid(r.tb) + n - 2)
    ensures Suffice(r, row, n)
    decreases n
  {
    if n == 1 {
      assert InStep(r, row[|row| - 1], Leaf(row));
      ReadyIsJustSent(r, row);
      InStepServes(r, row);
      TaComesBackOnce(Sent(r), row, r.tb);
      ThisOneSuffices(r, row);
    } else {
      var events := QuietPhase(r, row);
      var t := AfterPhase(r, row, events);
      QuietLeavesInStep(r, row, events, t, Pbid(r.tb) + n - 2);
      EnoughSendings(t, row, n - 1);
      OneMorePhase(r, row, events, n - 1);
    }
  }

  /**
   * How many sendings it takes, each heard once by the last node, when all of the row are in step
   * with the master: exactly so many that the PBID of the last node has passed all that the nodes in
   * between have recorded of it.
   */
  lemma SendingsNeededExactly(r: Round, row: seq<Ip>, n: nat)
    requires AllInStep(r, row) && Pbid(r.tb) + n <= 32767
    ensures Suffice(r, row, n) <==> n > 0 && AllOlder(r.world, row, r.tb, Pbid(r.tb) + n - 2)
  {
    var p := Pbid(r.tb) + n - 2;
    if n > 0 && AllOlder(r.world, row, r.tb, p) {
      EnoughSendings(r, row, n);
    } else if Suffice(r, row, n) {
      var phases :| |phases| <= n && RoundRuns(r, row, phases) && HeardOnce(row, phases)
        && Leaf(row) in RoundEnd(r, row, phases).world.heard;
      if n > 0 {
        var j :| 0 < j < |row| - 1 && !OlderAt(r.world, row[j], r.tb, Leaf(row), p);
        assert InStep(r, row[j], Leaf(row)) && InStep(r, row[|row| - 1], Leaf(row));
        TooFewSendings(r, row, phases, j, n);
      }
    }
  }

  // ---------------------------------------------------------------- when all TAs of the first flood get lost

  /** All slaves of the row know the TB and, but for the leaf, are one behind it; the leaf and position 1 still owe. */
  ghost predicate OneBehind(r: Round, row: seq<Ip>) {
    && Ready(r, row) && |row| > 2 && Pbid(r.tb) < 32767 && OwesTa(r.tb, Leaf(row)) && OwesTa(r.tb, row[1])
    && row[1] !in r.world.heard && (forall j | 0 < j < |row| :: Knows(r.world, row[j], r.tb, Leaf(row)))
    && forall j | 0 < j < |row| - 1 :: IsBehind(r.world, row[j], r.tb)
  }

  ghost predicate IsBehind(w: World, ip: Ip, b: seq<byte>)
    requires Readable(b)
  {
    ip in w.nodes && w.nodes[ip].tbPbid + 1 == Pbid(b)
  }

  lemma OneBehindIsGap(r: Round, row: seq<Ip>)
    requires OneBehind(r, row)
    ensures RelayGap(Sent(r), row, r.tb, 1)
  {
    ReadyIsJustSent(r, row);
    assert Knows(r.world, row[1], r.tb, Leaf(row)) && IsBehind(r.world, row[1], r.tb);
    KnownRelays(r.world.nodes[row[1]], r.tb, Leaf(row));
  }

  /** Behind a node that does not relay, the leaf hears nothing. */
  lemma {:induction false} LeafHearsNothing(w: World, row: seq<Ip>, b: seq<byte>, j: nat, events: seq<Event>)
    requires RelayGap(w, row, b, j) && Runs(w, row, events)
    ensures Hearings(events, Leaf(row)) == 0
    decreases |events|
  {
    if events != [] {
      var e := events[0];
      RelayGapStays(w, row, b, j, e);
      LeafIsDeaf(w, row, b, j, e);
      assert Leaf(row) == row[|row| - 1];
      LeafHearsNothing(After(w, e), row, b, j, events[1..]);
    }
  }

  /** The next sending stops at position 1 in every run, so it leaves the leaf as it was. */
  lemma StopsAtFirst(r: Round, row: seq<Ip>, events: seq<Event>, s: NodeState)
    requires OneBehind(r, row) && PhaseRuns(r, row, events) && s == r.world.nodes[Leaf(row)]
    ensures var t := AfterPhase(r, row, events);
      && Ready(t, row) && SameRound(r.tb, t.tb) && AllKeep(Sent(r), t.world, row, r.tb)
      && t.world.nodes[Leaf(row)].tbPbid == s.tbPbid
  {
    OneBehindIsGap(r, row);
    LeafHearsNothing(Sent(r), row, r.tb, 1, events);
    assert Gap(Sent(r), row, r.tb, 1);
    GapForever(Sent(r), row, r.tb, 1, events);
    PhaseLeaves(r, row, events, s);
    StillReady(r, row, events);
    NextTb(r, row, events);
  }

  /** Position 1 hears the TB, and its TA is counted. */
  function FirstAnswers(r: Round, row: seq<Ip>): seq<Event>
    requires |row| > 2 && Readable(r.tb) && row[1] in r.world.nodes
  {
    [Down(row, r.tb, 1), Counts(Copy(row[1], Ta(row[1], r.world.nodes[row[1]].tbPbid)), 0)]
  }

  lemma FirstAnswersRuns(r: Round, row: seq<Ip>, s: NodeState)
    requires OneBehind(r, row) && row[1] in r.world.nodes && s == r.world.nodes[row[1]]
    ensures PhaseRuns(r, row, FirstAnswers(r, row)) && Hearings(FirstAnswers(r, row), Leaf(row)) == 0
    ensures var t := AfterPhase(r, row, FirstAnswers(r, row));
      && t.world.heard == r.world.heard + {row[1]}
      && t.world.nodes == r.world.nodes[row[1] := Took(s, r.tb)] && Row(t.world, row, r.tb)
  {
    var w, e, c := Sent(r), FirstAnswers(r, row)[0], FirstAnswers(r, row)[1];
    ReadyIsJustSent(r, row);
    assert Stamped(r.tb, row[0]) == r.tb && Knows(r.world, row[1], r.tb, Leaf(row));
    KnownAnswers(s, r.tb);
    DownStep(w, row, r.tb, 1);
    RowStays(w, row, r.tb, e);
    RowStays(After(w, e), row, r.tb, c);
    TwoRuns(w, row, e, c, Leaf(row));
  }

  /** A slave that is one behind and answers is then level with the TB; what it has recorded stays. */
  lemma TookOne(s: NodeState, b: seq<byte>)
    requires Readable(b) && TakesPart(s, b) && !IsNew(s, b) && -32768 <= s.tbPbid < 32767
    requires First(Ips(b), s.ip) < 256 && OwesTa(b, s.ip) && s.tbPbid + 1 == Pbid(b)
    ensures var t := Took(s, b); t == s.(status := t.status, newTimeTable := t.newTimeTable, tbPbid := Pbid(b))
  {
    OwnBit(b, s.ip);
    NextTbStopsAtUnacknowledgedNode(s, b);
  }

  /** What the sending after that finds. */
  ghost predicate FirstCounted(r: Round, row: seq<Ip>, t: Round)
    requires OneBehind(r, row)
  {
    && row[1] in r.world.nodes && t.world.nodes == r.world.nodes[row[1] := Took(r.world.nodes[row[1]], r.tb)]
    && Row(t.world, row, r.tb) && Row(Sent(t), row, t.tb) && Leaf(row) !in t.world.heard
    && SameRound(r.tb, t.tb) && Pbid(t.tb) == Pbid(r.tb) + 1 && !OwesTa(t.tb, row[1]) && OwesTa(t.tb, Leaf(row))
  }

  lemma FirstIsCounted(r: Round, row: seq<Ip>) returns (t: Round)
    requires OneBehind(r, row) && row[1] in r.world.nodes && Pbid(r.tb) < 32766
    ensures PhaseRuns(r, row, FirstAnswers(r, row)) && Hearings(FirstAnswers(r, row), Leaf(row)) == 0
    ensures t == AfterPhase(r, row, FirstAnswers(r, row)) && FirstCounted(r, row, t)
  {
    var events := FirstAnswers(r, row);
    FirstAnswersRuns(r, row, r.world.nodes[row[1]]);
    t := AfterPhase(r, row, events);
    NextTb(r, row, events);
    assert Leaf(row) == row[|row| - 1] && Slave(t.world, row[|row| - 1], r.tb);
    StillReady(r, row, events);
  }

  lemma LevelIsAhead(w: World, ip: Ip, b: seq<byte>, c: seq<byte>, s: NodeState, leaf: Ip)
    requires Knows(w, ip, b, leaf) && s == w.nodes[ip] && s.tbPbid + 1 == Pbid(b) < 32766 && OwesTa(b, ip)
    requires SameRound(b, c) && Pbid(c) == Pbid(b) + 1 && !OwesTa(c, ip) && Sender(b) != ip
    ensures var v := w.(nodes := w.nodes[ip := Took(s, b)]);
      && Knows(v, ip, c, leaf) && IsAhead(v, ip, c)
      && forall p :: Older(s, b, leaf, p) ==> OlderAt(v, ip, c, leaf, p)
  {
    TookOne(s, b);
  }

  lemma ThenAhead(r: Round, row: seq<Ip>, t: Round, j: nat, p: int)
    requires OneBehind(r, row) && FirstCounted(r, row, t) && 0 < j < |row| && Pbid(r.tb) < 32766
    requires j < |row| - 1 ==> OlderAt(r.world, row[j], r.tb, Leaf(row), p)
    ensures Knows(Sent(t), row[j], t.tb, Leaf(row))
    ensures j < |row| - 1 ==> IsAhead(Sent(t), row[j], t.tb) && OlderAt(Sent(t), row[j], t.tb, Leaf(row), p)
  {
    assert Knows(r.world, row[j], r.tb, Leaf(row)) && (j < |row| - 1 ==> IsBehind(r.world, row[j], r.tb));
    if j == 1 {
      LevelIsAhead(r.world, row[1], r.tb, t.tb, r.world.nodes[row[1]], Leaf(row));
    } else {
      assert Slave(Sent(t), row[j], t.tb);
    }
  }

  /** With the TA of position 1 counted, all in between are behind the next TB by as much as they need. */
  lemma ThenServed(r: Round, row: seq<Ip>, t: Round, p: int)
    requires OneBehind(r, row) && FirstCounted(r, row, t) && Pbid(r.tb) < 32766 && AllOlder(r.world, row, r.tb, p)
    ensures AllServe(Sent(t), row, t.tb) && AllOlder(Sent(t), row, t.tb, p)
  {
    forall j | 0 < j < |row|
      ensures Knows(Sent(t), row[j], t.tb, Leaf(row))
      ensures j < |row| - 1 ==> IsAhead(Sent(t), row[j], t.tb) && OlderAt(Sent(t), row[j], t.tb, Leaf(row), p)
    {
      assert j < |row| - 1 ==> OlderAt(r.world, row[j], r.tb, Leaf(row), p);
      ThenAhead(r, row, t, j, p);
    }
    ServedIffAhead(Sent(t), row, t.tb);
  }

  lemma TwoSuffice(r: Round, row: seq<Ip>, s: NodeState)
    requires OneBehind(r, row) && row[1] in r.world.nodes && s == r.world.nodes[Leaf(row)] && Pbid(r.tb) < 32766
    requires AllOlder(r.world, row, r.tb, s.tbPbid)
    ensures Suffice(r, row, 2)
  {
    var events := FirstAnswers(r, row);
    var t := FirstIsCounted(r, row);
    ThenServed(r, row, t, s.tbPbid);
    ReadyIsJustSent(t, row);
    TaComesBackOnce(Sent(t), row, t.tb);
    ThisOneSuffices(t, row);
    OneMorePhase(r, row, events, 1);
  }

  lemma OneIsTooFew(r: Round, row: seq<Ip>, phases: seq<seq<Event>>)
    requires OneBehind(r, row) && RoundRuns(r, row, phases) && |phases| <= 1
    ensures Leaf(row) !in RoundEnd(r, row, phases).world.heard
  {
    if phases != [] {
      StopsAtFirst(r, row, phases[0], r.world.nodes[Leaf(row)]);
      assert phases[1..] == [];
    }
  }

  lemma OlderAside(v: World, w: World, row: seq<Ip>, b: seq<byte>, p: int)
    requires Readable(b) && row != [] && v.nodes == w.nodes && AllOlder(v, row, b, p)
    ensures AllOlder(w, row, b, p)
  {
    forall j | 0 < j < |row| - 1
      ensures OlderAt(w, row[j], b, Leaf(row), p)
    {
      assert OlderAt(v, row[j], b, Leaf(row), p);
    }
  }

  lemma OlderBack(v: World, w: World, row: seq<Ip>, b: seq<byte>, c: seq<byte>, p: int)
    requires SameRound(b, c) && row != [] && AllKeep(v, w, row, b) && AllOlder(w, row, c, p)
    ensures AllOlder(v, row, b, p)
  {
    forall j | 0 < j < |row| - 1
      ensures OlderAt(v, row[j], b, Leaf(row), p)
    {
      assert OlderAt(w, row[j], c, Leaf(row), p) && KeepsAt(v, w, row[j], b, Leaf(row));
    }
  }

  lemma TwoOnlyIfOlder(r: Round, row: seq<Ip>, events: seq<Event>, t: Round, s: NodeState)
    requires OneBehind(r, row) && PhaseRuns(r, row, events) && s == r.world.nodes[Leaf(row)]
    requires t == AfterPhase(r, row, events) && CanComeBack(Sent(t), row, 1)
    ensures AllOlder(r.world, row, r.tb, s.tbPbid)
  {
    StopsAtFirst(r, row, events, s);
    ReadyIsJustSent(t, row);
    TaComesBackOnce(Sent(t), row, t.tb);
    OlderAside(Sent(t), t.world, row, t.tb, s.tbPbid);
    OlderBack(Sent(r), t.world, row, r.tb, t.tb, s.tbPbid);
    OlderAside(Sent(r), r.world, row, r.tb, s.tbPbid);
  }

  lemma LastComesBack(t: Round, row: seq<Ip>, phases: seq<seq<Event>>)
    requires row != [] && RoundRuns(t, row, phases) && |phases| == 1 && Hearings(phases[0], Leaf(row)) <= 1
    requires Leaf(row) in RoundEnd(t, row, phases).world.heard
    ensures CanComeBack(Sent(t), row, 1)
  {
    assert phases[1..] == [];
  }

  /**
   * How many sendings it takes if all TAs of the last one got lost: one more cannot bring the TA of
   * the last node back in any run, however long the row, since it stops at position 1; two can, each
   * heard once, if and only if nobody in between has recorded a TA of it that is not older.
   */
  lemma LostTasCostTwoSendings(r: Round, row: seq<Ip>)
    requires OneBehind(r, row) && Pbid(r.tb) < 32766
    ensures forall phases | RoundRuns(r, row, phases) && |phases| <= 1 ::
      Leaf(row) !in RoundEnd(r, row, phases).world.heard
    ensures Suffice(r, row, 2) <==> AllOlder(r.world, row, r.tb, r.world.nodes[Leaf(row)].tbPbid)
  {
    var s := r.world.nodes[Leaf(row)];
    forall phases | RoundRuns(r, row, phases) && |phases| <= 1
      ensures Leaf(row) !in RoundEnd(r, row, phases).world.heard
    {
      OneIsTooFew(r, row, phases);
    }
    if AllOlder(r.world, row, r.tb, s.tbPbid) {
      assert Knows(r.world, row[1], r.tb, Leaf(row));
      TwoSuffice(r, row, s);
    }
    if Suffice(r, row, 2) {
      var phases :| |phases| <= 2 && RoundRuns(r, row, phases) && HeardOnce(row, phases)
        && Leaf(row) in RoundEnd(r, row, phases).world.heard;
      assert |phases| == 2;
      var t := AfterPhase(r, row, phases[0]);
      assert phases[1..][0] == phases[1] && Hearings(phases[1], Leaf(row)) <= 1;
      LastComesBack(t, row, phases[1..]);
      TwoOnlyIfOlder(r, row, phases[0], t, s);
    }
  }

  // ---------------------------------------------------------------- how that comes about

  lemma TookNew(s: NodeState, b: seq<byte>)
    requires Readable(b) && TakesPart(s, b) && NoWrap(s, HeardTb(b))
    ensures var t := Took(s, b);
      && t.previous == Some(Signature(b)) && SamePlace(s, t) && (IsNew(s, b) ==> t.taSeen == map[])
      && t.tbPbid == if RelaysTb(s, b) then Pbid(b) else if AnswersTb(s, b) then s.tbPbid + 1 else s.tbPbid
  {
  }

  /** The first sending of a round. */
  ghost predicate FirstRound(r: Round, row: seq<Ip>, subs: seq<Ip>) {
    && FirstOut(Sent(r), row, r.tb, subs) && AsksAll(r.tb, row[0], subs)
    && Leaf(row) in r.world.nodes && r.world.nodes[Leaf(row)].tbPbid < 32766
  }

  lemma FirstIsReady(r: Round, row: seq<Ip>, subs: seq<Ip>)
    requires FirstRound(r, row, subs)
    ensures Ready(r, row)
  {
    FirstOutIsRow(Sent(r), row, r.tb, subs);
  }

  lemma KnowsAfterFlood(r: Round, row: seq<Ip>, subs: seq<Ip>, t: World, c: seq<byte>, j: nat)
    requires FirstRound(r, row, subs) && Flooded(Sent(r), t, row, r.tb, 1) && SameRound(r.tb, c) && 0 < j < |row|
    ensures Knows(t, row[j], c, Leaf(row)) && t.nodes[row[j]].taSeen == map[]
    ensures j < |row| - 1 ==> t.nodes[row[j]].tbPbid == 0
  {
    var w := Sent(r);
    FreshIsServed(w, row, r.tb, subs, j);
    FreshLeafAnswers(w, row, r.tb, subs);
    assert NewTo(w, row[j], r.tb, Leaf(row)) && Asks(r.tb, row[j]) && TookIf(w, t, row[j], r.tb, true);
    TookNew(w.nodes[row[j]], r.tb);
  }

  lemma FirstFlood(r: Round, row: seq<Ip>, subs: seq<Ip>) returns (events: seq<Event>)
    requires FirstRound(r, row, subs)
    ensures PhaseRuns(r, row, events) && Hearings(events, Leaf(row)) <= 1
    ensures var t := End(Sent(r), row, events); Row(t, row, r.tb) && Flooded(Sent(r), t, row, r.tb, 1)
  {
    FirstOutIsJustSent(Sent(r), row, r.tb, subs);
    FirstOutIsServed(Sent(r), row, r.tb, subs);
    events := Floods(Sent(r), row, r.tb, r.world.nodes[Leaf(row)]);
  }

  lemma FloodedRecordsNothing(r: Round, row: seq<Ip>, subs: seq<Ip>, t: World, c: seq<byte>, p: int)
    requires FirstRound(r, row, subs) && Flooded(Sent(r), t, row, r.tb, 1) && SameRound(r.tb, c)
    ensures AllOlder(t, row, c, p)
  {
    forall j | 0 < j < |row| - 1
      ensures OlderAt(t, row[j], c, Leaf(row), p)
    {
      KnowsAfterFlood(r, row, subs, t, c, j);
    }
  }

  lemma FloodedIsOneBehind(r: Round, row: seq<Ip>, subs: seq<Ip>, events: seq<Event>, t: Round)
    requires FirstRound(r, row, subs) && |row| > 2 && PhaseRuns(r, row, events) && t == AfterPhase(r, row, events)
    requires Row(t.world, row, r.tb) && Flooded(Sent(r), t.world, row, r.tb, 1)
    ensures OneBehind(t, row) && SameRound(r.tb, t.tb)
  {
    FirstIsReady(r, row, subs);
    NextTb(r, row, events);
    assert Asks(r.tb, row[1]) && Asks(r.tb, row[|row| - 1]);
    forall j | 0 < j < |row|
      ensures Knows(t.world, row[j], t.tb, Leaf(row)) && (j < |row| - 1 ==> IsBehind(t.world, row[j], t.tb))
    {
      KnowsAfterFlood(r, row, subs, t.world, t.tb, j);
    }
    assert Knows(t.world, row[|row| - 1], t.tb, Leaf(row));
    StillReady(r, row, events);
  }

  /** The first flood, with all its TAs lost, leaves the row exactly in that state, with nothing recorded. */
  lemma LostFloodLeavesOneBehind(r: Round, row: seq<Ip>, subs: seq<Ip>, p: int) returns (events: seq<Event>)
    requires FirstRound(r, row, subs) && |row| > 2
    ensures PhaseRuns(r, row, events)
    ensures var t := AfterPhase(r, row, events); OneBehind(t, row) && AllOlder(t.world, row, t.tb, p)
  {
    events := FirstFlood(r, row, subs);
    var t := AfterPhase(r, row, events);
    FloodedIsOneBehind(r, row, subs, events, t);
    FloodedRecordsNothing(r, row, subs, t.world, t.tb, p);
  }

  // ---------------------------------------------------------------- a TA that is swallowed

  /** Master, slave and leaf; the leaf has a sub-slave that owes a TA, and has come to PBID `p`. */
  ghost predicate ThreeInRow(r: Round, row: seq<Ip>, subs: seq<Ip>, p: nat) {
    && |row| == 3 && FirstRound(r, row, subs)
    && r.world.nodes[Leaf(row)].tbPbid == p && SomeSubOwes(r.world.nodes[Leaf(row)].subs, r.tb)
  }

  /** The slave between them hears the TA of the leaf with `p`, which then gets lost; its own, with `q`, is counted. */
  function RecordsAndAnswers(row: seq<Ip>, p: int, q: int): seq<Event>
    requires |row| == 3
  {
    [Up(row, 1, p), Counts(Copy(row[1], Ta(row[1], q)), 0)]
  }

  lemma RecordsRuns(w: World, row: seq<Ip>, b: seq<byte>, p: int, q: int)
    requires Row(w, row, b) && |row| == 3 && CanForward(w, row[1], Leaf(row), p)
    requires Copy(row[2], Ta(Leaf(row), p)) in w.air && Copy(row[1], Ta(row[1], q)) in w.air
    ensures Runs(w, row, RecordsAndAnswers(row, p, q)) && Hearings(RecordsAndAnswers(row, p, q), Leaf(row)) == 0
    ensures var t := End(w, row, RecordsAndAnswers(row, p, q)); var s := w.nodes[row[1]];
      && Row(t, row, b) && t.heard == w.heard + {row[1]} && t.master == w.master
      && t.nodes == w.nodes[row[1] := s.(taSeen := s.taSeen[Leaf(row) := p])]
  {
    var e, c := RecordsAndAnswers(row, p, q)[0], RecordsAndAnswers(row, p, q)[1];
    UpStep(w, row, b, 1, p);
    RowStays(w, row, b, e);
    RowStays(After(w, e), row, b, c);
    TwoRuns(w, row, e, c, Leaf(row));
  }

  /** Position `i` hears the TB, and answers it. */
  ghost predicate AnswersAt(w: World, t: World, row: seq<Ip>, b: seq<byte>, i: nat, s: NodeState)
    requires Readable(b)
  {
    && i < |row| && Row(t, row, b) && t == w.(nodes := w.nodes[row[i] := Took(s, b)], air := t.air) && w.air <= t.air
    && Copy(row[i], Ta(row[i], s.tbPbid)) in t.air
  }

  lemma OneAnswers(w: World, row: seq<Ip>, b: seq<byte>, i: nat, s: NodeState)
    requires Row(w, row, b) && 0 < i < |row| && Copy(row[i - 1], Tb(Stamped(b, row[i - 1]))) in w.air
    requires row[i] in w.nodes && s == w.nodes[row[i]] && GivesTa(s, b)
    ensures Enabled(w, Down(row, b, i)) && InRow(row, Down(row, b, i))
    ensures AnswersAt(w, After(w, Down(row, b, i)), row, b, i, s)
    ensures PassesTb(s, b) ==> Copy(row[i], Tb(Stamped(b, row[i]))) in After(w, Down(row, b, i)).air
  {
    DownStep(w, row, b, i);
    RowStays(w, row, b, Down(row, b, i));
  }

  /** Both hear the TB, and answer it. */
  lemma BothAnswer(w: World, row: seq<Ip>, b: seq<byte>, s: NodeState, l: NodeState) returns (v: World, t: World)
    requires Row(w, row, b) && |row| == 3 && Copy(row[0], Tb(b)) in w.air && row[1] in w.nodes && row[2] in w.nodes
    requires s == w.nodes[row[1]] && l == w.nodes[row[2]] && PassesTb(s, b) && GivesTa(s, b) && GivesTa(l, b)
    ensures var e, f := Down(row, b, 1), Down(row, b, 2);
      Enabled(w, e) && InRow(row, e) && v == After(w, e) && Enabled(v, f) && InRow(row, f) && t == After(v, f)
    ensures AnswersAt(w, v, row, b, 1, s) && AnswersAt(v, t, row, b, 2, l)
  {
    assert Stamped(b, row[0]) == b;
    OneAnswers(w, row, b, 1, s);
    v := After(w, Down(row, b, 1));
    OneAnswers(v, row, b, 2, l);
    t := After(v, Down(row, b, 2));
  }

  /** The whole first phase. */
  function Swallows(row: seq<Ip>, b: seq<byte>, p: int, q: int): seq<Event>
    requires |row| == 3 && Readable(b)
  {
    [Down(row, b, 1), Down(row, b, 2)] + RecordsAndAnswers(row, p, q)
  }

  /** What it leaves: the PBIDs of both at 0, and the old one of the leaf recorded in between. */
  ghost predicate Swallowed(r: Round, row: seq<Ip>, t: World, p: nat) {
    && Readable(r.tb) && |row| == 3 && Row(t, row, r.tb) && t.heard == r.world.heard + {row[1]}
    && row[1] in t.nodes && row[2] in t.nodes
    && t.nodes[row[1]].taSeen == map[Leaf(row) := p] && t.nodes[row[1]].tbPbid == t.nodes[row[2]].tbPbid == 0
    && Knows(t, row[1], r.tb, Leaf(row)) && Knows(t, row[2], r.tb, Leaf(row))
  }

  lemma BothTook(r: Round, row: seq<Ip>, subs: seq<Ip>, p: nat, s: NodeState, l: NodeState)
    requires ThreeInRow(r, row, subs, p) && row[1] in r.world.nodes && row[2] in r.world.nodes
    requires s == r.world.nodes[row[1]] && l == r.world.nodes[row[2]]
    ensures PassesTb(s, r.tb) && GivesTa(s, r.tb) && GivesTa(l, r.tb)
    ensures Took(s, r.tb).tbPbid == Took(l, r.tb).tbPbid == 0 && Took(s, r.tb).taSeen == map[]
    ensures ForwardsTa(Took(s, r.tb), Leaf(row), p)
    ensures !IsNew(Took(s, r.tb), r.tb) && !IsNew(Took(l, r.tb), r.tb)
    ensures SamePlace(s, Took(s, r.tb)) && SamePlace(l, Took(l, r.tb))
    ensures First(Ips(r.tb), row[1]) < 256 && First(Ips(r.tb), row[2]) < 256
  {
    var w := Sent(r);
    assert NewTo(w, row[1], r.tb, Leaf(row)) && NewTo(w, row[2], r.tb, Leaf(row));
    assert Asks(r.tb, row[1]) && Asks(r.tb, row[2]);
    FreshIsServed(w, row, r.tb, subs, 1);
    FreshLeafAnswers(w, row, r.tb, subs);
    TookNew(s, r.tb);
    TookNew(l, r.tb);
  }

  lemma FirstSwallows(r: Round, row: seq<Ip>, subs: seq<Ip>, p: nat) returns (events: seq<Event>)
    requires ThreeInRow(r, row, subs, p)
    ensures PhaseRuns(r, row, events) && Hearings(events, Leaf(row)) <= 1
    ensures Swallowed(r, row, End(Sent(r), row, events), p)
  {
    var w := Sent(r);
    FirstOutIsRow(w, row, r.tb, subs);
    assert Slave(w, row[1], r.tb) && Slave(w, row[2], r.tb);
    var s, l := w.nodes[row[1]], w.nodes[row[2]];
    BothTook(r, row, subs, p, s, l);
    var u, v := BothAnswer(w, row, r.tb, s, l);
    var first := [Down(row, r.tb, 1), Down(row, r.tb, 2)];
    TwoRuns(w, row, first[0], first[1], Leaf(row));
    RecordsRuns(v, row, r.tb, p, s.tbPbid);
    Appended(w, row, first, RecordsAndAnswers(row, p, s.tbPbid));
    events := Swallows(row, r.tb, p, s.tbPbid);
  }

  lemma SwallowedRecords(t: World, row: seq<Ip>, b: seq<byte>, p: nat, q: int)
    requires Readable(b) && |row| == 3 && row[1] in t.nodes && !IsNew(t.nodes[row[1]], b)
    requires t.nodes[row[1]].taSeen == map[Leaf(row) := p]
    ensures AllOlder(t, row, b, q) <==> p < q
  {
    assert OlderAt(t, row[1], b, Leaf(row), q) <==> p < q;
  }

  lemma SwallowedIsReady(r: Round, row: seq<Ip>, subs: seq<Ip>, p: nat, events: seq<Event>, t: Round)
    requires ThreeInRow(r, row, subs, p) && PhaseRuns(r, row, events) && t == AfterPhase(r, row, events)
    requires Swallowed(r, row, t.world, p)
    ensures Ready(t, row) && SameRound(r.tb, t.tb) && Pbid(t.tb) == 1
    ensures !OwesTa(t.tb, row[1]) && OwesTa(t.tb, row[2])
  {
    FirstIsReady(r, row, subs);
    NextTb(r, row, events);
    assert Asks(r.tb, row[1]) && Asks(r.tb, row[2]);
    StillReady(r, row, events);
  }

  lemma BothInStep(t: Round, row: seq<Ip>, b: seq<byte>)
    requires |row| == 3 && Ready(t, row) && SameRound(b, t.tb) && Pbid(t.tb) == 1 && row[1] in t.world.heard
    requires !OwesTa(t.tb, row[1]) && OwesTa(t.tb, row[2])
    requires Knows(t.world, row[1], b, Leaf(row)) && Knows(t.world, row[2], b, Leaf(row))
    requires t.world.nodes[row[1]].tbPbid == t.world.nodes[row[2]].tbPbid == 0
    ensures AllInStep(t, row)
  {
    NowInStep(t, row[1], b, Leaf(row));
    NowInStep(t, row[2], b, Leaf(row));
  }

  lemma NowInStep(t: Round, ip: Ip, b: seq<byte>, leaf: Ip)
    requires Knows(t.world, ip, b, leaf) && SameRound(b, t.tb) && t.world.nodes[ip].tbPbid + 1 == Pbid(t.tb)
    ensures InStep(t, ip, leaf)
  {
  }

  /**
   * A leaf with sub-slaves answers the first TB of a round with the PBID `p` that it has come to, and
   * then starts again at 0. If that TA gets lost behind a node that has recorded it, the node swallows
   * the later ones: from every such start there is a first phase after which it takes exactly `p + 2`
   * more sendings, each heard once by the leaf, though all nodes are in step and relay every TB.
   */
  lemma SwallowedTaCosts(r: Round, row: seq<Ip>, subs: seq<Ip>, p: nat, n: nat) returns (events: seq<Event>)
    requires ThreeInRow(r, row, subs, p) && n < 32767
    ensures PhaseRuns(r, row, events) && Hearings(events, Leaf(row)) <= 1
    ensures var t := AfterPhase(r, row, events);
      AllInStep(t, row) && AllServe(Sent(t), row, t.tb) && (Suffice(t, row, n) <==> n >= p + 2)
  {
    events := FirstSwallows(r, row, subs, p);
    var t := AfterPhase(r, row, events);
    SwallowedIsReady(r, row, subs, p, events, t);
    BothInStep(t, row, r.tb);
    SwallowedRecords(t.world, row, t.tb, p, n - 1);
    InStepServes(t, row);
    SendingsNeededExactly(t, row, n);
  }
}
