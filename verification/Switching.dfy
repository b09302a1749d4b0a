/** From one timetable to the next: when a node changes over, and what that means for exclusion. */
module Switching {
  import opened Bytes
  import opened TbFormat
  import opened Dispatcher
  import opened Node
  import opened Network

  // ---------------------------------------------------------------- over runs of the network

  /** In this step `v` goes over to the timetable `tt`, which was pending, after its sync by the node's clock. */
  ghost predicate GoesOver(s: Net, e: Event, v: Ip, tt: TimeTable)
    requires Enabled(s, e)
  {
    e.Check? && e.node == v && s.nodes[v].newTimeTable == tt && 0 < tt.sync < e.act
  }

  /** In some step of the run it does. */
  ghost predicate WentOver(s: Net, events: seq<Event>, v: Ip, tt: TimeTable)
    requires Possible(s, events)
    decreases |events|
  {
    events != [] && (GoesOver(s, events[0], v, tt) || WentOver(Next(s, events[0]), events[1..], v, tt))
  }

  lemma OnlyChecksInstall(s: Net, e: Event, v: Ip)
    requires Enabled(s, e) && v in s.nodes
    ensures var t := Next(s, e);
      v in t.nodes && (t.nodes[v].timeTable == s.nodes[v].timeTable || GoesOver(s, e, v, t.nodes[v].timeTable))
  {
  }

  /**
   * No node goes over to a timetable before its sync: in every run, what a node has installed at the
   * end it had at the start, or took over when it was pending, at a clock reading after its sync.
   */
  lemma {:induction false} InstalledAfterSync(s: Net, events: seq<Event>, v: Ip)
    requires Possible(s, events) && v in s.nodes
    ensures var end := After(s, events);
      && v in end.nodes
      && (end.nodes[v].timeTable == s.nodes[v].timeTable || WentOver(s, events, v, end.nodes[v].timeTable))
    decreases |events|
  {
    if events != [] {
      OnlyChecksInstall(s, events[0], v);
      InstalledAfterSync(Next(s, events[0]), events[1..], v);
    }
  }

  /** In some step of the run `v` goes over to a timetable. */
  ghost predicate EverWentOver(s: Net, events: seq<Event>, v: Ip)
    requires Possible(s, events)
  {
    exists tt :: WentOver(s, events, v, tt)
  }

  lemma {:induction false} BlindUntilThen(s: Net, events: seq<Event>, v: Ip, act: nat)
    requires Possible(s, events) && v in s.nodes
    ensures var end := After(s, events);
      v in end.nodes && (Decide(end.nodes[v].timeTable, act) == Blind
                         <==> s.nodes[v].timeTable.sync == 0 && !EverWentOver(s, events, v))
    decreases |events|
  {
    if events != [] {
      var e, rest := events[0], events[1..];
      var t := Next(s, e);
      OnlyChecksInstall(s, e, v);
      BlindUntilThen(t, rest, v, act);
      forall tt
        ensures WentOver(s, events, v, tt) <==> GoesOver(s, e, v, tt) || WentOver(t, rest, v, tt)
      {
      }
      if EverWentOver(t, rest, v) {
        var tt :| WentOver(t, rest, v, tt);
        assert WentOver(s, events, v, tt);
      } else if t.nodes[v].timeTable != s.nodes[v].timeTable {
        assert WentOver(s, events, v, t.nodes[v].timeTable);
      }
    }
  }

  /**
   * In every run a node transmits blindly, without regard to slots, until it first goes over to a
   * timetable, and never again.
   */
  lemma BlindUntilFirstChangeover(s: Net, events: seq<Event>, v: Ip, act: nat)
    requires Initial(s) && Possible(s, events) && v in s.nodes
    ensures var end := After(s, events);
      v in end.nodes && (Decide(end.nodes[v].timeTable, act) == Blind <==> !EverWentOver(s, events, v))
  {
    BlindUntilThen(s, events, v, act);
  }

  // ---------------------------------------------------------------- over passes of the dispatcher

  /** A pass of the dispatcher at a clock reading; `busy` says that it finds the lock taken. */
  datatype Pass = Pass(act: nat, busy: bool)

  function AfterPass(s: NodeState, p: Pass): NodeState {
    if p.busy then s else Install(s, p.act)
  }

  /** What a node that hears nothing meanwhile decides in one pass after another. */
  function Decisions(s: NodeState, passes: seq<Pass>): (ds: seq<Decision>)
    ensures |ds| == |passes|
    decreases |passes|
  {
    if passes == [] then []
    else
      var t := AfterPass(s, passes[0]);
      [Decide(t.timeTable, passes[0].act)] + Decisions(t, passes[1..])
  }

  /** Up to pass `i` one has got the lock after the sync of `tt`. */
  ghost predicate Noticed(tt: TimeTable, passes: seq<Pass>, i: nat)
    requires i < |passes|
  {
    exists j | 0 <= j <= i :: PastSync(tt, passes[j])
  }

  predicate PastSync(tt: TimeTable, p: Pass) {
    !p.busy && 0 < tt.sync < p.act
  }

  lemma NoticedLater(tt: TimeTable, passes: seq<Pass>, i: nat)
    requires 0 < i < |passes|
    ensures Noticed(tt, passes, i) <==> PastSync(tt, passes[0]) || Noticed(tt, passes[1..], i - 1)
  {
    var rest := passes[1..];
    if Noticed(tt, passes, i) {
      var j :| 0 <= j <= i && PastSync(tt, passes[j]);
      assert j > 0 ==> PastSync(tt, rest[j - 1]);
    }
    if Noticed(tt, rest, i - 1) {
      var j :| 0 <= j <= i - 1 && PastSync(tt, rest[j]);
      assert PastSync(tt, passes[j + 1]);
    }
  }

  /**
   * The changeover: as long as no pass has got the lock after the sync of the pending timetable, each
   * decides as under the old one, and from then on as under the pending one.
   */
  lemma {:induction false} ChangesOverAtSync(s: NodeState, passes: seq<Pass>, i: nat)
    requires i < |passes|
    ensures Decisions(s, passes)[i]
      == Decide(if Noticed(s.newTimeTable, passes, i) then s.newTimeTable else s.timeTable, passes[i].act)
    decreases |passes|
  {
    var t := AfterPass(s, passes[0]);
    if i == 0 {
      assert Noticed(s.newTimeTable, passes, 0) <==> PastSync(s.newTimeTable, passes[0]);
    } else {
      NoticedLater(s.newTimeTable, passes, i);
      ChangesOverAtSync(t, passes[1..], i - 1);
      assert PastSync(s.newTimeTable, passes[0]) ==>
        t.newTimeTable.sync == 0 && t.timeTable == s.newTimeTable && !Noticed(t.newTimeTable, passes[1..], i - 1);
    }
  }

  /** The clock does not go back, and the lock is free. */
  ghost predicate Undisturbed(passes: seq<Pass>) {
    && (forall i | 0 <= i < |passes| :: !passes[i].busy)
    && forall i, j | 0 <= i < j < |passes| :: passes[i].act <= passes[j].act
  }

  /** Then it is the clock alone that decides: up to its sync the old timetable holds, and after it the new one. */
  lemma ClockDecides(s: NodeState, passes: seq<Pass>, i: nat)
    requires Undisturbed(passes) && i < |passes| && s.newTimeTable.sync != 0
    ensures Decisions(s, passes)[i]
      == Decide(if passes[i].act > s.newTimeTable.sync then s.newTimeTable else s.timeTable, passes[i].act)
  {
    ChangesOverAtSync(s, passes, i);
    if passes[i].act > s.newTimeTable.sync {
      assert PastSync(s.newTimeTable, passes[i]);
    }
  }

  /**
   * A TB that does not list the node costs it its slot only before the changeover: heard after it, it
   * leaves every later decision to the timetable that has been installed.
   */
  lemma SlotSurvivesChangeover(s: NodeState, p: Pass, b: seq<byte>, passes: seq<Pass>, i: nat)
    requires PastSync(s.newTimeTable, p) && Readable(b) && s.ip !in Ips(b) && i < |passes|
    ensures Decisions(ReceiveTb(AfterPass(s, p), b).state, passes)[i] == Decide(s.newTimeTable, passes[i].act)
  {
    ChangesOverAtSync(ReceiveTb(AfterPass(s, p), b).state, passes, i);
  }

  // ---------------------------------------------------------------- exclusion across the changeover

  /** The node has its own slot of round `q`, and that of round `r` is pending. */
  ghost predicate Changing(s: NodeState, q: Round, r: Round) {
    Own(s.timeTable, s.ip, q) && Own(s.newTimeTable, s.ip, r)
  }

  lemma UnderOneRound(v: Ip, w: Ip, r: Round, tt: TimeTable, uu: TimeTable, a: nat, b: nat)
    requires GoodRound(r) && v != w && Own(tt, v, r) && Own(uu, w, r) && a < CLOCK_END && b < CLOCK_END
    requires Decide(tt, a) == Transmit && Decide(uu, b) == Transmit
    ensures Apart(a, b)
  {
    assert tt.sync != 0 && tt.tableSize > 0 && uu.sync != 0 && uu.tableSize > 0;
    SameRoundApart(Tx(v, a, tt), Tx(w, b, uu), r);
  }

  /**
   * Nodes that change from one round to the next do not collide on either side of the changeover: in
   * any passes of theirs, two transmissions both up to the new sync, or both after it, are apart.
   */
  lemma ApartOnEitherSide(s: NodeState, t: NodeState, q: Round, r: Round,
      ps: seq<Pass>, i: nat, us: seq<Pass>, j: nat)
    requires GoodRound(q) && GoodRound(r) && s.ip != t.ip && Changing(s, q, r) && Changing(t, q, r)
    requires Undisturbed(ps) && Undisturbed(us) && i < |ps| && j < |us|
    requires ps[i].act < CLOCK_END && us[j].act < CLOCK_END
    requires Decisions(s, ps)[i] == Transmit && Decisions(t, us)[j] == Transmit
    requires ps[i].act <= r.now + 1_000_000 <==> us[j].act <= r.now + 1_000_000
    ensures Apart(ps[i].act, us[j].act)
  {
    ClockDecides(s, ps, i);
    ClockDecides(t, us, j);
    if ps[i].act <= r.now + 1_000_000 {
      UnderOneRound(s.ip, t.ip, q, s.timeTable, t.timeTable, ps[i].act, us[j].act);
    } else {
      UnderOneRound(s.ip, t.ip, r, s.newTimeTable, t.newTimeTable, ps[i].act, us[j].act);
    }
  }

  lemma OpensAtStart(slot: nat, n: nat, sync: nat, act: nat)
    requires Fits(slot, n, sync, 200_000_000) && sync + slot * 200_000_000 <= act < CLOCK_END
    requires act <= sync + slot * 200_000_000 + 1
    ensures Decide(Slotted(slot, n, sync, 200_000_000), act) == Transmit
  {
    SlotFits(slot, n, sync, 200_000_000);
    assert Window(sync + slot * 200_000_000, n * 200_000_000, 200_000_000, 0, act);
    SendsIsWindow(slot, n, sync, 200_000_000, act);
  }

  lemma SlotOpens(tt: TimeTable, v: Ip, r: Round, act: nat)
    requires GoodRound(r) && Own(tt, v, r)
    requires tt.sync + tt.localSlot * 200_000_000 <= act <= tt.sync + tt.localSlot * 200_000_000 + 1
    requires act < CLOCK_END
    ensures Decide(tt, act) == Transmit
  {
    OpensAtStart(tt.localSlot, |r.subs| + 1, r.now + 1_000_000, act);
  }

  lemma MastersSlot(tt: TimeTable, r: Round)
    requires Own(tt, r.master, r)
    ensures tt.localSlot == 0
  {
    assert r.List()[0] == r.master;
    FirstIs(r.List(), r.master, 0);
  }

  lemma OnePass(s: NodeState, p: Pass)
    requires !p.busy && s.newTimeTable.sync != 0
    ensures Decisions(s, [p]) == [Decide(if p.act > s.newTimeTable.sync then s.newTimeTable else s.timeTable, p.act)]
  {
    ClockDecides(s, [p], 0);
  }

  /** A node whose slot in round `q` begins at the sync of round `r` still transmits then, under the old timetable. */
  lemma OldStillSends(s: NodeState, q: Round, r: Round)
    requires GoodRound(q) && GoodRound(r) && Changing(s, q, r)
    requires r.now == q.now + s.timeTable.localSlot * 200_000_000
    ensures Decisions(s, [Pass(r.now + 1_000_000, false)]) == [Transmit]
  {
    OnePass(s, Pass(r.now + 1_000_000, false));
    SlotOpens(s.timeTable, s.ip, q, r.now + 1_000_000);
  }

  /** The master of round `r` transmits one nanosecond after its sync, under the new one. */
  lemma NewSendsAtOnce(m: NodeState, q: Round, r: Round)
    requires GoodRound(r) && m.ip == r.master && Changing(m, q, r)
    ensures Decisions(m, [Pass(r.now + 1_000_001, false)]) == [Transmit]
  {
    OnePass(m, Pass(r.now + 1_000_001, false));
    MastersSlot(m.newTimeTable, r);
    SlotOpens(m.newTimeTable, m.ip, r, r.now + 1_000_001);
  }

  /**
   * Across it they can: if the new round begins when the slot of one node in the old round does, that
   * node still transmits at the new sync, and the master of the new round one nanosecond later.
   */
  lemma ChangeoverCollides(s: NodeState, m: NodeState, q: Round, r: Round)
    requires GoodRound(q) && GoodRound(r) && s.ip != m.ip && m.ip == r.master && Changing(s, q, r) && Changing(m, q, r)
    requires r.now == q.now + s.timeTable.localSlot * 200_000_000
    ensures var a := r.now + 1_000_000;
      && Decisions(s, [Pass(a, false)]) == [Transmit] && Decisions(m, [Pass(a + 1, false)]) == [Transmit]
      && !Apart(a, a + 1)
  {
    OldStillSends(s, q, r);
    NewSendsAtOnce(m, q, r);
  }
}
