/**
 * Runs of a whole network: masters generate and re-send timetables, nodes relay, acknowledge,
 * install and transmit, messages are lost, repeated and reordered at will.
 */
module Network {
  import opened Bytes
  import opened TbFormat
  import opened Dispatcher
  import opened Node

  /** A generated timetable: who made it, when, for which slaves, and its bytes. */
  datatype Round = Round(master: Ip, now: nat, subs: seq<Ip>, bytes: seq<byte>) {
    function List(): seq<Ip> {
      [master] + subs
    }
  }

  /** A slotted transmission: which node started it when, and under which installed timetable. */
  datatype Tx = Tx(ip: Ip, start: nat, tt: TimeTable)

  /**
   * `nodes` holds each node under its own address, `air` every TB copy that was ever handed to the
   * radio, `pending` each master's TB_ret_msg. `rounds` and `log` record what has happened.
   */
  datatype Net = Net(
    nodes: map<Ip, NodeState>, air: set<seq<byte>>, pending: map<Ip, seq<byte>>,
    rounds: set<Round>, log: set<Tx>)

  datatype Event =
    | Generate(master: Ip, now: nat, bytes: seq<byte>)  // generateTB, which also fills the master's own timetable
    | Resend(master: Ip)                                // the retransmission thread queues a copy and bumps the PBID
    | Acknowledge(master: Ip, originator: Ip)           // TA_RX at the master clears a bit
    | EndRound(master: Ip)                              // stopRetransmission(rTB)
    | Hear(node: Ip, copy: seq<byte>)                   // TB_RX
    | Check(node: Ip, act: nat)                         // checkNewTimeTable
    | Send(node: Ip, act: nat)                          // WF_dispatcher passes its send test
    | Elsewhere(node: Ip, after: NodeState)             // anything else a node does

  /** Readings of a clock that does not overflow during one whole cycle of the largest timetable. */
  const LAST_ROUND := CLOCK_END - 10_000_000_000_000

  ghost predicate Enabled(s: Net, e: Event) {
    match e
    case Generate(m, now, b) =>
      && m in s.nodes && s.nodes[m].isMaster
      && 0 < now < LAST_ROUND && (forall r | r in s.rounds :: r.now < now)
      && |s.nodes[m].subs| < 32767 && Generated(b, m, now, s.nodes[m].subs)
    case Resend(m) => m in s.pending && Readable(s.pending[m])
    case Acknowledge(m, _) => m in s.pending && Readable(s.pending[m])
    case EndRound(m) => m in s.pending
    case Hear(v, b) => v in s.nodes && b in s.air && Readable(b)
    case Check(v, _) => v in s.nodes
    case Send(v, act) => v in s.nodes && act < CLOCK_END && Sends(s.nodes[v].timeTable, act)
    case Elsewhere(v, t) =>
      && v in s.nodes && t.ip == v && t.isMaster == s.nodes[v].isMaster
      && t.timeTable == s.nodes[v].timeTable && t.newTimeTable == s.nodes[v].newTimeTable
  }

  /** The copies that a reaction hands to the radio. */
  ghost function Copies(sent: seq<Message>): set<seq<byte>> {
    set m | m in sent && m.Tb? :: m.bytes
  }

  ghost function Next(s: Net, e: Event): Net
    requires Enabled(s, e)
  {
    match e
    case Generate(m, now, b) =>
      var node := s.nodes[m];
      s.(nodes := s.nodes[m := node.(newTimeTable := Offer(b, 0), tbPbid := Wrap16(node.tbPbid + 1))],
         pending := s.pending[m := b],
         rounds := s.rounds + {Round(m, now, node.subs, b)})
    case Resend(m) =>
      s.(air := s.air + {s.pending[m]}, pending := s.pending[m := WithNextPbid(s.pending[m])])
    case Acknowledge(m, originator) =>
      s.(pending := s.pending[m := WithoutTaOf(s.pending[m], originator)])
    case EndRound(m) => s.(pending := s.pending - {m})
    case Hear(v, b) =>
      var reaction := ReceiveTb(s.nodes[v], b);
      s.(nodes := s.nodes[v := reaction.state], air := s.air + Copies(reaction.sent))
    case Check(v, act) => s.(nodes := s.nodes[v := Install(s.nodes[v], act)])
    case Send(v, act) => s.(log := s.log + {Tx(v, act, s.nodes[v].timeTable)})
    case Elsewhere(v, t) => s.(nodes := s.nodes[v := t])
  }

  /** Before anything is generated: no node has a timetable. */
  ghost predicate Initial(s: Net) {
    && s.air == {} && s.pending == map[] && s.rounds == {} && s.log == {}
    && forall v | v in s.nodes ::
         s.nodes[v].ip == v && s.nodes[v].timeTable.sync == 0 && s.nodes[v].newTimeTable.sync == 0
  }

  ghost predicate Possible(s: Net, events: seq<Event>)
    decreases |events|
  {
    events != [] ==> Enabled(s, events[0]) && Possible(Next(s, events[0]), events[1..])
  }

  ghost function After(s: Net, events: seq<Event>): Net
    requires Possible(s, events)
    decreases |events|
  {
    if events == [] then s else After(Next(s, events[0]), events[1..])
  }

  // ---------------------------------------------------------------- the invariant

  /** `tt` is a timetable of round `r` with slot `slot`. */
  ghost predicate Of(tt: TimeTable, r: Round, slot: nat) {
    tt == TimeTable(slot, r.now + 1_000_000, 200_000_000, (|r.subs| + 1) * 200_000_000)
  }

  /** The round's bytes read back as what the master put in. */
  ghost predicate GoodRound(r: Round) {
    && 0 < r.now < LAST_ROUND && |r.subs| < 32767
    && Readable(r.bytes) && Ips(r.bytes) == r.List() && TbPacketSize(r.bytes) == |r.bytes|
    && forall slot: nat :: Of(Offer(r.bytes, slot), r, slot)
  }

  /** `b` differs from the timetable it descends from only in sender, PBID and acknowledgement bits. */
  ghost predicate Descends(b: seq<byte>, r: Round) {
    && Readable(b) && Readable(r.bytes)
    && |b| == |r.bytes| && b[0] == r.bytes[0] && Core(b) == Core(r.bytes)
  }

  ghost predicate Descended(b: seq<byte>, rounds: set<Round>) {
    exists r | r in rounds :: Descends(b, r)
  }

  /** Either the node's own slot in some round, or the slot it does not have. */
  ghost predicate FromRound(tt: TimeTable, v: Ip, r: Round) {
    Of(tt, r, NO_SLOT) || (v in r.List() && Of(tt, r, First(r.List(), v)))
  }

  ghost predicate Own(tt: TimeTable, v: Ip, r: Round) {
    v in r.List() && Of(tt, r, First(r.List(), v))
  }

  /** Every round so far lists the node, or none does. */
  ghost predicate Steady(v: Ip, rounds: set<Round>) {
    (forall r | r in rounds :: v in r.List()) || (forall r | r in rounds :: v !in r.List())
  }

  ghost predicate GoodTable(tt: TimeTable, v: Ip, rounds: set<Round>) {
    tt.sync != 0 ==>
      && (exists r | r in rounds :: FromRound(tt, v, r))
      && (Steady(v, rounds) ==> exists r | r in rounds :: Own(tt, v, r))
  }

  ghost predicate GoodNode(node: NodeState, v: Ip, rounds: set<Round>) {
    node.ip == v && GoodTable(node.timeTable, v, rounds) && GoodTable(node.newTimeTable, v, rounds)
  }

  /** The dispatcher's send test was passed. */
  ghost predicate Passed(t: Tx) {
    t.start < CLOCK_END && Sends(t.tt, t.start)
  }

  ghost predicate GoodRounds(rounds: set<Round>) {
    && (forall r | r in rounds :: GoodRound(r))
    && (forall r, q | r in rounds && q in rounds :: r.now == q.now ==> r == q)
  }

  ghost predicate Inv(s: Net) {
    && GoodRounds(s.rounds)
    && (forall b | b in s.air :: Descended(b, s.rounds))
    && (forall m | m in s.pending :: Descended(s.pending[m], s.rounds))
    && (forall v | v in s.nodes :: GoodNode(s.nodes[v], v, s.rounds))
    && (forall t | t in s.log :: GoodTable(t.tt, t.ip, s.rounds))
  }

  // ---------------------------------------------------------------- one step

  lemma NewRound(b: seq<byte>, m: Ip, now: nat, subs: seq<Ip>)
    requires Generated(b, m, now, subs) && 0 < now < LAST_ROUND && |subs| < 32767
    ensures GoodRound(Round(m, now, subs, b))
  {
    ReadsBack(b, m, now, subs);
  }

  /** What any reader computes from a copy is what the master put into the original. */
  lemma ReadsLikeOriginal(b: seq<byte>, r: Round, slot: nat)
    requires GoodRound(r) && Descends(b, r)
    ensures Ips(b) == r.List() && Of(Offer(b, slot), r, slot)
  {
    CoreDecides(b, r.bytes);
    assert Offer(b, slot) == Offer(r.bytes, slot);
  }

  // Re-sending, acknowledging and relaying all stay within the round.

  lemma BumpDescended(b: seq<byte>, rounds: set<Round>)
    requires Descended(b, rounds)
    ensures Descended(WithNextPbid(b), rounds)
  {
    var r :| r in rounds && Descends(b, r);
    BumpingKeepsCore(b);
    assert Descends(WithNextPbid(b), r);
  }

  lemma ClearDescended(b: seq<byte>, rounds: set<Round>, ip: Ip)
    requires Descended(b, rounds)
    ensures Descended(WithoutTaOf(b, ip), rounds)
  {
    var r :| r in rounds && Descends(b, r);
    ClearingIsExact(b, ip);
    assert WithoutTaOf(b, ip)[..5][0] == b[..5][0];
    assert Descends(WithoutTaOf(b, ip), r);
  }

  lemma StampDescended(b: seq<byte>, rounds: set<Round>, ip: Ip)
    requires Descended(b, rounds)
    ensures Descended(Stamped(b, ip), rounds)
  {
    var r :| r in rounds && Descends(b, r);
    StampingKeepsCore(b, ip);
    assert Descends(Stamped(b, ip), r);
  }

  lemma CopySurvives(b: seq<byte>, before: set<Round>, after: set<Round>)
    requires Descended(b, before) && before <= after
    ensures Descended(b, after)
  {
    var r :| r in before && Descends(b, r);
    assert r in after;
  }

  lemma TableSurvives(tt: TimeTable, v: Ip, before: set<Round>, after: set<Round>)
    requires GoodTable(tt, v, before) && before <= after
    ensures GoodTable(tt, v, after)
  {
    if tt.sync != 0 {
      var r :| r in before && FromRound(tt, v, r);
      assert r in after;
      if Steady(v, after) {
        assert Steady(v, before);
        var q :| q in before && Own(tt, v, q);
        assert q in after;
      }
    }
  }

  /** A round more changes nothing for what is already there. */
  lemma MoreRounds(s: Net, rounds: set<Round>)
    requires Inv(s) && s.rounds <= rounds && GoodRounds(rounds)
    ensures Inv(s.(rounds := rounds))
  {
    var after := s.(rounds := rounds);
    forall b | b in after.air
      ensures Descended(b, rounds)
    {
      CopySurvives(b, s.rounds, rounds);
    }
    forall m | m in after.pending
      ensures Descended(after.pending[m], rounds)
    {
      CopySurvives(s.pending[m], s.rounds, rounds);
    }
    forall v | v in after.nodes
      ensures GoodNode(after.nodes[v], v, rounds)
    {
      TableSurvives(s.nodes[v].timeTable, v, s.rounds, rounds);
      TableSurvives(s.nodes[v].newTimeTable, v, s.rounds, rounds);
    }
    forall t | t in after.log
      ensures GoodTable(t.tt, t.ip, rounds)
    {
      TableSurvives(t.tt, t.ip, s.rounds, rounds);
    }
  }

  lemma NodeChanges(s: Net, v: Ip, node: NodeState)
    requires Inv(s) && v in s.nodes && GoodNode(node, v, s.rounds)
    ensures Inv(s.(nodes := s.nodes[v := node]))
  {
  }

  lemma PendingChanges(s: Net, m: Ip, b: seq<byte>)
    requires Inv(s) && Descended(b, s.rounds)
    ensures Inv(s.(pending := s.pending[m := b]))
  {
  }

  lemma AirGrows(s: Net, more: set<seq<byte>>)
    requires Inv(s) && forall b | b in more :: Descended(b, s.rounds)
    ensures Inv(s.(air := s.air + more))
  {
  }

  /** The master's own timetable after `generateTB` is its slot 0 of the new round. */
  lemma MastersTable(r: Round)
    requires GoodRound(r)
    ensures Own(Offer(r.bytes, 0), r.master, r)
  {
    assert r.List()[0] == r.master;
    FirstIs(r.List(), r.master, 0);
  }

  lemma RoundAdded(s: Net, r: Round)
    requires Inv(s) && GoodRound(r) && forall q | q in s.rounds :: q.now < r.now
    ensures var rounds := s.rounds + {r};
      && Inv(s.(rounds := rounds))
      && Descended(r.bytes, rounds)
      && GoodTable(Offer(r.bytes, 0), r.master, rounds)
  {
    var rounds := s.rounds + {r};
    assert r in rounds && GoodRounds(rounds);
    MoreRounds(s, rounds);
    MastersTable(r);
    assert Descends(r.bytes, r);
  }

  lemma GenerateKeeps(s: Net, r: Round, node: NodeState)
    requires Inv(s) && r.master in s.nodes && GoodRound(r) && (forall q | q in s.rounds :: q.now < r.now)
    requires node.ip == r.master && node.newTimeTable == Offer(r.bytes, 0)
    requires node.timeTable == s.nodes[r.master].timeTable
    ensures Inv(s.(nodes := s.nodes[r.master := node], pending := s.pending[r.master := r.bytes],
                   rounds := s.rounds + {r}))
  {
    RoundAdded(s, r);
    var grown := s.(rounds := s.rounds + {r});
    assert GoodNode(grown.nodes[r.master], r.master, grown.rounds);
    PendingChanges(grown, r.master, r.bytes);
    NodeChanges(grown.(pending := s.pending[r.master := r.bytes]), r.master, node);
  }

  lemma ResendKeeps(s: Net, m: Ip)
    requires Inv(s) && m in s.pending
    ensures Inv(s.(air := s.air + {s.pending[m]}, pending := s.pending[m := WithNextPbid(s.pending[m])]))
  {
    var b := s.pending[m];
    AirGrows(s, {b});
    BumpDescended(b, s.rounds);
    PendingChanges(s.(air := s.air + {b}), m, WithNextPbid(b));
  }

  lemma AcknowledgeKeeps(s: Net, m: Ip, originator: Ip)
    requires Inv(s) && Enabled(s, Acknowledge(m, originator))
    ensures Inv(Next(s, Acknowledge(m, originator)))
  {
    ClearDescended(s.pending[m], s.rounds, originator);
    PendingChanges(s, m, WithoutTaOf(s.pending[m], originator));
  }

  /** A received TB leaves the node with its own slot, or without one. */
  lemma HeardTable(s: NodeState, t: NodeState, b: seq<byte>, r: Round, rounds: set<Round>)
    requires GoodNode(s, s.ip, rounds) && r in rounds && GoodRound(r) && Descends(b, r) && TableEffect(s, b, t)
    ensures GoodNode(t, s.ip, rounds)
  {
    if s.ip in Ips(b) {
      ReadsLikeOriginal(b, r, First(Ips(b), s.ip));
      assert Own(Offer(b, First(Ips(b), s.ip)), s.ip, r);
    } else if s.newTimeTable.sync != 0 {
      ReadsLikeOriginal(b, r, 0);
      var q :| q in rounds && FromRound(s.newTimeTable, s.ip, q);
      assert FromRound(s.newTimeTable.(localSlot := NO_SLOT), s.ip, q);
    }
  }

  lemma HearKeeps(s: Net, v: Ip, b: seq<byte>)
    requires Inv(s) && Enabled(s, Hear(v, b))
    ensures Inv(Next(s, Hear(v, b)))
  {
    var node := s.nodes[v];
    var reaction := ReceiveTb(node, b);
    var r :| r in s.rounds && Descends(b, r);
    HearingEffect(node, b);
    HeardTable(node, reaction.state, b, r, s.rounds);
    StampDescended(b, s.rounds, v);
    assert Copies(reaction.sent) <= {Stamped(b, v)};
    AirGrows(s, Copies(reaction.sent));
    NodeChanges(s.(air := s.air + Copies(reaction.sent)), v, reaction.state);
  }

  lemma SendKeeps(s: Net, v: Ip, act: nat)
    requires Inv(s) && v in s.nodes
    ensures Inv(s.(log := s.log + {Tx(v, act, s.nodes[v].timeTable)}))
  {
    assert GoodNode(s.nodes[v], v, s.rounds);
  }

  lemma StepKeeps(s: Net, e: Event)
    requires Inv(s) && Enabled(s, e)
    ensures Inv(Next(s, e))
  {
    match e
    case Generate(m, now, b) =>
      NewRound(b, m, now, s.nodes[m].subs);
      GenerateKeeps(s, Round(m, now, s.nodes[m].subs, b), Next(s, e).nodes[m]);
    case Resend(m) => ResendKeeps(s, m);
    case Acknowledge(m, originator) => AcknowledgeKeeps(s, m, originator);
    case EndRound(_) =>
    case Hear(v, b) => HearKeeps(s, v, b);
    case Check(v, act) => NodeChanges(s, v, Install(s.nodes[v], act));
    case Send(v, act) => SendKeeps(s, v, act);
    case Elsewhere(v, t) => NodeChanges(s, v, t);
  }

  // ---------------------------------------------------------------- whole runs

  lemma {:induction false} RunKeeps(s: Net, events: seq<Event>)
    requires Inv(s) && Possible(s, events)
    ensures Inv(After(s, events)) && s.rounds <= After(s, events).rounds
    decreases |events|
  {
    if events != [] {
      StepKeeps(s, events[0]);
      RunKeeps(Next(s, events[0]), events[1..]);
    }
  }

  lemma {:induction false} RunOnlyLogsPassed(s: Net, events: seq<Event>)
    requires Possible(s, events) && forall t | t in s.log :: Passed(t)
    ensures forall t | t in After(s, events).log :: Passed(t)
    decreases |events|
  {
    if events != [] {
      RunOnlyLogsPassed(Next(s, events[0]), events[1..]);
    }
  }

  lemma InitiallyGood(s: Net)
    requires Initial(s)
    ensures Inv(s)
  {
  }

  ghost predicate AgreesWith(b: seq<byte>, r: Round) {
    && Descends(b, r)
    && Ips(b) == r.List()
    && TbPacketSize(b) == |b|
    && forall slot: nat :: Offer(b, slot) == Offer(r.bytes, slot)
  }

  lemma DescendantAgrees(b: seq<byte>, r: Round)
    requires GoodRound(r) && Descends(b, r)
    ensures AgreesWith(b, r)
  {
    CoreDecides(b, r.bytes);
  }

  lemma CopyAgrees(b: seq<byte>, rounds: set<Round>)
    requires GoodRounds(rounds) && Descended(b, rounds)
    ensures exists r | r in rounds :: AgreesWith(b, r)
  {
    var r :| r in rounds && Descends(b, r);
    DescendantAgrees(b, r);
  }

  /**
   * Relay invariance: through any number of relays, re-sendings and acknowledgements, every copy
   * in flight agrees with a generated TB on its type, its length and every byte that decides a
   * timetable, so every receiver computes the timetable that the master computed.
   */
  lemma CopiesAgreeWithOriginal(s: Net, events: seq<Event>, b: seq<byte>)
    requires Initial(s) && Possible(s, events) && b in After(s, events).air
    ensures exists r | r in After(s, events).rounds :: AgreesWith(b, r)
  {
    InitiallyGood(s);
    RunKeeps(s, events);
    CopyAgrees(b, After(s, events).rounds);
  }

  lemma SameRoundApart(t: Tx, u: Tx, r: Round)
    requires 0 < r.now < LAST_ROUND && |r.subs| < 32767 && t.ip != u.ip
    requires Own(t.tt, t.ip, r) && Own(u.tt, u.ip, r)
    requires Passed(t) && Passed(u)
    ensures Apart(t.start, u.start)
  {
    var i, j := First(r.List(), t.ip), First(r.List(), u.ip);
    SlotsNeverCollide(i, j, |r.subs| + 1, r.now + 1_000_000, 200_000_000, t.start, u.start);
  }

  lemma TableOfRound(tt: TimeTable, v: Ip, rounds: set<Round>) returns (r: Round)
    requires GoodTable(tt, v, rounds) && tt.sync != 0
    ensures r in rounds && FromRound(tt, v, r) && tt.sync == r.now + 1_000_000
  {
    r :| r in rounds && FromRound(tt, v, r);
  }

  lemma LoggedApart(t: Tx, u: Tx, rounds: set<Round>)
    requires GoodRounds(rounds) && Passed(t) && Passed(u)
    requires GoodTable(t.tt, t.ip, rounds) && GoodTable(u.tt, u.ip, rounds)
    requires t.ip != u.ip && t.tt.sync == u.tt.sync
    requires t.tt.localSlot != NO_SLOT && u.tt.localSlot != NO_SLOT
    ensures Apart(t.start, u.start)
  {
    var r := TableOfRound(t.tt, t.ip, rounds);
    var q := TableOfRound(u.tt, u.ip, rounds);
    SameRoundApart(t, u, r);
  }

  /**
   * In every run, two slotted transmissions by different nodes under timetables with the same sync
   * are apart, if both nodes still have their slot.
   */
  lemma OwnSlotsNeverCollide(s: Net, events: seq<Event>, t: Tx, u: Tx)
    requires Initial(s) && Possible(s, events)
    requires t in After(s, events).log && u in After(s, events).log
    requires t.ip != u.ip && t.tt.sync == u.tt.sync
    requires t.tt.localSlot != NO_SLOT && u.tt.localSlot != NO_SLOT
    ensures Apart(t.start, u.start)
  {
    InitiallyGood(s);
    RunKeeps(s, events);
    RunOnlyLogsPassed(s, events);
    LoggedApart(t, u, After(s, events).rounds);
  }

  lemma OwnIsSlot(t: Tx, rounds: set<Round>)
    requires GoodRounds(rounds) && Passed(t) && GoodTable(t.tt, t.ip, rounds) && Steady(t.ip, rounds)
    ensures t.tt.localSlot != NO_SLOT
  {
    var r :| r in rounds && Own(t.tt, t.ip, r);
  }

  /** A node that every round lists, or none does, never transmits without a slot of its own. */
  lemma SteadyNodesKeepTheirSlot(s: Net, events: seq<Event>, t: Tx)
    requires Initial(s) && Possible(s, events) && t in After(s, events).log
    requires Steady(t.ip, After(s, events).rounds)
    ensures t.tt.localSlot != NO_SLOT
  {
    InitiallyGood(s);
    RunKeeps(s, events);
    RunOnlyLogsPassed(s, events);
    OwnIsSlot(t, After(s, events).rounds);
  }

  lemma LoggedInSingleRound(t: Tx, u: Tx, rounds: set<Round>)
    requires GoodRounds(rounds) && Passed(t) && Passed(u)
    requires GoodTable(t.tt, t.ip, rounds) && GoodTable(u.tt, u.ip, rounds)
    requires t.ip != u.ip
    requires forall r, q | r in rounds && q in rounds :: r == q
    ensures Apart(t.start, u.start)
  {
    var r :| r in rounds && FromRound(t.tt, t.ip, r);
    var q :| q in rounds && FromRound(u.tt, u.ip, q);
    OwnIsSlot(t, rounds);
    OwnIsSlot(u, rounds);
    LoggedApart(t, u, rounds);
  }

  /** With a single generated timetable there is no condition at all. */
  lemma SingleRoundNeverCollides(s: Net, events: seq<Event>, t: Tx, u: Tx)
    requires Initial(s) && Possible(s, events)
    requires forall r, q | r in After(s, events).rounds && q in After(s, events).rounds :: r == q
    requires t in After(s, events).log && u in After(s, events).log && t.ip != u.ip
    ensures Apart(t.start, u.start)
  {
    InitiallyGood(s);
    RunKeeps(s, events);
    RunOnlyLogsPassed(s, events);
    LoggedInSingleRound(t, u, After(s, events).rounds);
  }

  // ---------------------------------------------------------------- exclusion within a round, exactly

  /** The slot that is none: within one slot of the epoch, slot -1 never comes. */
  const NEVER := -1

  /** The slot that a timetable of round `r` really uses: without one, it is the last. */
  function Effective(tt: TimeTable, r: Round): int {
    if tt.localSlot != NO_SLOT then tt.localSlot else if tt.slotSize <= tt.sync then |r.subs| else NEVER
  }

  /** The instants at which a transmission may start under `tt`. */
  ghost function Times(tt: TimeTable): iset<nat> {
    iset a: nat | a < CLOCK_END && Sends(tt, a)
  }

  /** The instants of a slot of round `r`. */
  ghost function TimesInRound(slot: int, r: Round): iset<nat> {
    if slot < 0 then iset{} else SlotTimes(slot, |r.subs| + 1, r.now + 1_000_000, 200_000_000)
  }

  lemma TimesOfSlot(tt: TimeTable, v: Ip, r: Round)
    requires GoodRound(r) && FromRound(tt, v, r) && tt.localSlot != NO_SLOT
    ensures tt.localSlot <= |r.subs| && Times(tt) == TimesInRound(tt.localSlot, r)
  {
    TimesAreSlotTimes(tt.localSlot, |r.subs| + 1, r.now + 1_000_000, 200_000_000);
  }

  lemma TimesWithoutSlot(tt: TimeTable, r: Round)
    requires GoodRound(r) && Of(tt, r, NO_SLOT)
    ensures Times(tt) == TimesInRound(Effective(tt, r), r)
  {
    var n, sync := |r.subs| + 1, r.now + 1_000_000;
    if 200_000_000 <= sync {
      SlotlessTimesAreLast(n, sync, 200_000_000);
    } else {
      forall a: nat | a < CLOCK_END
        ensures !Sends(tt, a)
      {
        SlotlessNearEpochIsSilent(n, sync, 200_000_000, a);
      }
    }
  }

  /** A timetable of the round allows exactly the instants of the slot that it really uses. */
  lemma TimesOfTable(tt: TimeTable, v: Ip, r: Round)
    requires GoodRound(r) && FromRound(tt, v, r)
    ensures NEVER <= Effective(tt, r) <= |r.subs| && Times(tt) == TimesInRound(Effective(tt, r), r)
  {
    if tt.localSlot == NO_SLOT {
      TimesWithoutSlot(tt, r);
    } else {
      TimesOfSlot(tt, v, r);
    }
  }

  lemma TimesInRoundExclude(i: int, j: int, r: Round)
    requires GoodRound(r) && NEVER <= i <= |r.subs| && NEVER <= j <= |r.subs|
    ensures Exclude(TimesInRound(i, r), TimesInRound(j, r)) <==> i != j || i == NEVER
  {
    if i >= 0 && j >= 0 {
      SlotTimesExclude(i, j, |r.subs| + 1, r.now + 1_000_000, 200_000_000);
    }
  }

  /**
   * Under two timetables of one round no two transmissions can overlap if and only if the two use
   * different slots, where a timetable that has lost its slot uses the last, or never transmit.
   */
  lemma NeverOverlapExactly(tt: TimeTable, uu: TimeTable, v: Ip, w: Ip, r: Round)
    requires GoodRound(r) && FromRound(tt, v, r) && FromRound(uu, w, r)
    ensures Exclude(Times(tt), Times(uu)) <==> Effective(tt, r) != Effective(uu, r) || Effective(tt, r) == NEVER
  {
    TimesOfTable(tt, v, r);
    TimesOfTable(uu, w, r);
    TimesInRoundExclude(Effective(tt, r), Effective(uu, r), r);
  }

  /**
   * The two transmissions belong to round `r`, and are apart if they use different slots of it;
   * if not, their timetables allow transmissions that are not.
   */
  ghost predicate ApartInRound(t: Tx, u: Tx, r: Round) {
    && FromRound(t.tt, t.ip, r) && FromRound(u.tt, u.ip, r)
    && (Effective(t.tt, r) != Effective(u.tt, r) ==> Apart(t.start, u.start))
    && (Effective(t.tt, r) == Effective(u.tt, r) ==> !Exclude(Times(t.tt), Times(u.tt)))
  }

  lemma LoggedApartInRound(t: Tx, u: Tx, r: Round)
    requires GoodRound(r) && Passed(t) && Passed(u)
    requires FromRound(t.tt, t.ip, r) && FromRound(u.tt, u.ip, r)
    ensures ApartInRound(t, u, r)
  {
    NeverOverlapExactly(t.tt, u.tt, t.ip, u.ip, r);
    TimesOfTable(t.tt, t.ip, r);
    assert t.start in Times(t.tt) && u.start in Times(u.tt);
  }

  /**
   * Collision freedom: in every run, any two slotted transmissions with the same sync come from one
   * round, and exclude each other exactly if they use different slots of it, where a node that has
   * lost its slot uses the last.
   */
  lemma CollisionFreedom(s: Net, events: seq<Event>, t: Tx, u: Tx)
    requires Initial(s) && Possible(s, events)
    requires t in After(s, events).log && u in After(s, events).log && t.tt.sync == u.tt.sync
    ensures exists r | r in After(s, events).rounds :: ApartInRound(t, u, r)
  {
    InitiallyGood(s);
    RunKeeps(s, events);
    RunOnlyLogsPassed(s, events);
    var rounds := After(s, events).rounds;
    var r := TableOfRound(t.tt, t.ip, rounds);
    var q := TableOfRound(u.tt, u.ip, rounds);
    LoggedApartInRound(t, u, r);
  }

  lemma TableHasSize(tt: TimeTable, v: Ip, rounds: set<Round>)
    requires GoodTable(tt, v, rounds) && tt.sync != 0
    ensures tt.tableSize > 0
  {
    var r := TableOfRound(tt, v, rounds);
  }

  lemma NoDivisionByZero(s: Net, v: Ip, act: nat)
    requires Inv(s) && v in s.nodes
    ensures Decide(s.nodes[v].timeTable, act) != DivideByZero
  {
    var tt := s.nodes[v].timeTable;
    assert GoodNode(s.nodes[v], v, s.rounds);
    DividesExactly(tt, act);
    if tt.sync != 0 {
      TableHasSize(tt, v, s.rounds);
    }
  }

  /** The dispatcher never divides by a table size of 0: no table of any round has that size. */
  lemma NeverDividesByZero(s: Net, events: seq<Event>, v: Ip, act: nat)
    requires Initial(s) && Possible(s, events) && v in After(s, events).nodes
    ensures Decide(After(s, events).nodes[v].timeTable, act) != DivideByZero
  {
    InitiallyGood(s);
    RunKeeps(s, events);
    NoDivisionByZero(After(s, events), v, act);
  }

  // ---------------------------------------------------------------- how a slot gets lost

  /** A pending timetable loses its slot exactly when a TB of another node does not list the receiver. */
  lemma LosesSlotIff(s: NodeState, b: seq<byte>)
    requires Readable(b) && s.newTimeTable.localSlot != NO_SLOT
    ensures ReceiveTb(s, b).state.newTimeTable.localSlot == NO_SLOT
      <==> Sender(b) != s.ip && !s.isMaster && s.ip !in Ips(b)
  {
  }

  lemma StaleTable(s: NodeState, b: seq<byte>, c: seq<byte>, r: Round, act: nat)
    requires GoodRound(r) && Descends(b, r) && Sender(b) != s.ip && !s.isMaster && s.ip in r.List()
    requires Readable(c) && Sender(c) != s.ip && s.ip !in Ips(c) && act > r.now + 1_000_000
    ensures Of(Install(ReceiveTb(ReceiveTb(s, b).state, c).state, act).timeTable, r, NO_SLOT)
  {
    ReadsLikeOriginal(b, r, First(r.List(), s.ip));
    var heard := ReceiveTb(s, b).state;
    assert heard.newTimeTable == Offer(b, First(Ips(b), s.ip)) && heard.ip == s.ip;
    assert ReceiveTb(heard, c).state.newTimeTable == heard.newTimeTable.(localSlot := NO_SLOT);
  }

  lemma SlotlessInRound(tt: TimeTable, last: TimeTable, r: Round, t: nat)
    requires GoodRound(r) && Of(tt, r, NO_SLOT) && Of(last, r, |r.subs|) && t < CLOCK_END
    ensures Sends(tt, t) <==> r.now + 1_000_000 >= 200_000_000 && Sends(last, t)
  {
    var n, sync := |r.subs| + 1, r.now + 1_000_000;
    if 200_000_000 <= sync {
      SlotlessIsLastSlot(n, sync, 200_000_000, t);
    } else {
      SlotlessNearEpochIsSilent(n, sync, 200_000_000, t);
    }
  }

  /**
   * A node that hears a TB listing it and then, before installing, one that does not, transmits
   * exactly when the last node of the first TB does, unless the clock is still within a slot of the
   * epoch, when it never does.
   */
  lemma StaleTableTakesLastSlot(s: NodeState, b: seq<byte>, c: seq<byte>, r: Round, act: nat, t: nat)
    requires GoodRound(r) && Descends(b, r) && Sender(b) != s.ip && !s.isMaster && s.ip in r.List()
    requires Readable(c) && Sender(c) != s.ip && s.ip !in Ips(c) && act > r.now + 1_000_000
    requires t < CLOCK_END
    ensures var stale := Install(ReceiveTb(ReceiveTb(s, b).state, c).state, act).timeTable;
      Sends(stale, t) <==> r.now + 1_000_000 >= 200_000_000 && Sends(Offer(r.bytes, |r.subs|), t)
  {
    StaleTable(s, b, c, r, act);
    assert Of(Offer(r.bytes, |r.subs|), r, |r.subs|);
    var stale := Install(ReceiveTb(ReceiveTb(s, b).state, c).state, act).timeTable;
    SlotlessInRound(stale, Offer(r.bytes, |r.subs|), r, t);
  }
}
