/** A slave between outside, waiting and inside: what PBs, NEPs, TBs and its own NEs do to it over time. */
module Lifecycle {
  import opened Bytes
  import opened TbFormat
  import opened Node
  import opened Distance
  import opened Retransmission
  import opened Transmissions
  import opened Routing
  import opened Routes
  import opened Runs
  import opened Retransmitter
  import Join
  import Membership
  import Network
  import RoutingRuns
  import RoutingTable

  /** Its timetable state, its retransmissions, the static `started_waiting`, and its routing table. */
  datatype Slave = Slave(node: NodeState, rt: Rt, since: nat, table: seq<Entry>)

  /** What it sends: an NE, a PR with its distance and the PBE, what `TB_RX` sends, and what the timers queue. */
  datatype Out =
    | NeTo(proxy: Ip)
    | PrTo(originator: Ip, distance: Short, pbe: real)
    | OfTb(message: Message)
    | Again(bytes: seq<byte>)

  datatype Turn = Turn(slave: Slave, sent: seq<Out>)

  const WAITING_TIME_OUT := 5_000_000_000

  /** `buildNEMessage`. */
  function NeBytes(outsider: Ip, proxy: Ip): seq<byte> {
    [16 * PROTOCOL_VERSION + TypeOf(NE), outsider.b0, outsider.b1, proxy.b0, proxy.b1]
  }

  /** `Self.Status` is one variable. */
  function WithStatus(s: Slave, status: Status): Slave {
    s.(node := s.node.(status := status), rt := s.rt.(status := status))
  }

  /** `PB_RX`. */
  function HearPb(s: Slave, sender: Ip, distance: Short, pbe: real, act: nat, timeout: nat): Turn {
    if sender == s.node.ip then Turn(s, [])
    else
      var h := s.(table := Heard(s.table, sender, act));
      match s.rt.status
      case Outside =>
        if distance == UNREACHABLE then Turn(h, [])
        else Turn(h.(rt := Start(s.rt, NE, NeBytes(s.node.ip, sender), act, timeout), since := act), [NeTo(sender)])
      case Inside =>
        var report := Report(sender, distance, pbe, RoutingRuns.RemoteOf(h.table, sender), act, RoutingRuns.PB_SIZE);
        var t := Updated(h.table, report);
        Turn(h.(table := t), [PrTo(sender, MyDistance(s.node.isMaster, t), pbe)])
      case Waiting =>
        if s.since != 0 && act > s.since + WAITING_TIME_OUT then Turn(WithStatus(h, Outside).(since := 0), [])
        else Turn(h, [])
      case NA => Turn(h, [])
  }

  // ---------------------------------------------------------------- PB_RX as it updates Self

  class SlaveObject {
    const rt: RetransmitterObject
    const table: RoutingTable.Table
    var startedWaiting: nat

    ghost predicate Valid()
      reads this, rt, table, table.cells
    {
      rt.Valid() && table.Valid()
    }

    ghost function State(): Slave
      reads this, rt, rt.self, rt.Buffer(), table
    {
      Slave(rt.self.State(), rt.State(), startedWaiting, table.entries)
    }

    constructor (rt: RetransmitterObject, table: RoutingTable.Table)
      requires rt.Valid() && table.Valid()
      ensures Valid() && this.rt == rt && this.table == table && startedWaiting == 0
    {
      this.rt, this.table, startedWaiting := rt, table, 0;
    }

    /** An outsider asks the sender of the PB, and goes on asking. */
    method AskSender(sender: Ip, act: nat, timeout: nat)
      requires Valid()
      modifies this, rt
      ensures Valid()
      ensures State() == old(State()).(
        rt := Start(old(State()).rt, NE, NeBytes(rt.self.ip, sender), act, timeout), since := act)
    {
      startedWaiting := act;
      var bytes := NeBytes(rt.self.ip, sender);
      var buf := new byte[5](i requires 0 <= i < 5 => bytes[i]);
      assert buf[..] == bytes;
      rt.StartRetransmission(NE, buf, act, timeout);
    }

    /** A node inside takes the sender into its table, and answers with its own distance. */
    method TakeNeighbour(sender: Ip, distance: Short, pbe: real, act: nat) returns (d: Short)
      requires Valid()
      modifies table, table.cells
      ensures Valid()
      ensures var h := old(table.entries);
        table.entries == Updated(h, Report(sender, distance, pbe, RoutingRuns.RemoteOf(h, sender), act, 7))
      ensures d == Routes.MyDistance(rt.self.isMaster, table.entries)
      ensures State() == old(State()).(table := table.entries)
    {
      var found, prev;
      ghost var k;
      found, prev, k := table.SearchByIp(sender);
      var remote := if found == null then WORST_QUALITY else found.item.remote;
      var aux := table.InsertOrUpdate(Report(sender, distance, pbe, remote, act, 7));
      d := table.MyDistance(rt.self.isMaster);
    }

    method PbRx(sender: Ip, distance: Short, pbe: real, act: nat, timeout: nat) returns (sent: seq<Out>)
      requires Valid()
      modifies this, rt, rt.self, table, table.cells
      ensures Valid() && HearPb(old(State()), sender, distance, pbe, act, timeout) == Turn(State(), sent)
    {
      sent := [];
      if sender == rt.self.ip {
        return;
      }
      table.UpdateLastHeard(sender, act);
      match rt.self.status {
        case Outside =>
          if distance != UNREACHABLE {
            AskSender(sender, act, timeout);
            sent := [NeTo(sender)];
          }
        case Inside =>
          var d := TakeNeighbour(sender, distance, pbe, act);
          sent := [PrTo(sender, d, pbe)];
        case Waiting =>
          if startedWaiting != 0 && act > startedWaiting + WAITING_TIME_OUT {
            rt.self.status := Node.Outside;
            startedWaiting := 0;
          }
        case NA =>
      }
    }
  }

  // ---------------------------------------------------------------- everything that a slave hears and does

  datatype Event =
    | HearTb(bytes: seq<byte>)
    | HearNep(proxy: Ip, outsider: Ip)
    | HearsPb(sender: Ip, distance: Short, pbe: real, act: nat, timeout: nat)
    | Wake(act: nat, draw: PerKind)                 // a pass of the retransmission thread
    | Route(packet: RoutingRuns.Packet)             // PR, PC, data, getBestHop
    | OtherKinds(after: Rt)                         // whatever happens to the other four kinds of message

  function Answers(messages: seq<Message>): seq<Out> {
    seq(|messages|, i requires 0 <= i < |messages| => OfTb(messages[i]))
  }

  function Repeats(queue: seq<seq<byte>>): seq<Out> {
    seq(|queue|, i requires 0 <= i < |queue| => Again(queue[i]))
  }

  /** The part of the slave that the join handlers are about. */
  function JoinerOf(s: Slave): Join.Joiner {
    Join.Joiner(s.node.ip, s.node.isMaster, s.rt.status, s.node.subs, [], [], NE in s.rt.msg, None)
  }

  /** `NEP_RX`. */
  function HearInvitation(s: Slave, proxy: Ip, outsider: Ip): Slave {
    var o := Join.Hear(JoinerOf(s), Join.Nep(proxy, outsider), NoHop, false);
    if o.Done? then
      WithStatus(if NE in s.rt.msg && !o.node.ne then s.(rt := Stop(s.rt, NE)) else s, o.node.status)
    else s
  }

  ghost function React(s: Slave, e: Event): Option<Turn> {
    match e
    case HearTb(b) =>
      if !Readable(b) then None
      else
        var r := ReceiveTb(s.node, b);
        Some(Turn(WithStatus(s.(node := r.state), r.state.status), Answers(r.sent)))
    case HearNep(proxy, outsider) => Some(Turn(HearInvitation(s, proxy, outsider), []))
    case HearsPb(sender, distance, pbe, act, timeout) => Some(HearPb(s, sender, distance, pbe, act, timeout))
    case Wake(act, draw) =>
      if !Consistent(s.rt) then None
      else
        var rt := Pass(s.rt, act, draw);
        Some(Turn(WithStatus(s.(rt := rt), rt.status), Repeats(Queued(s.rt, act))))
    case OtherKinds(t) =>
      if Consistent(t) && Labelled(t) && SameKind(s.rt, t, NE) && t.status == s.rt.status then
        Some(Turn(s.(rt := t), []))
      else None
    case Route(p) =>
      if p.Pb? then None
      else
        match RoutingRuns.Receive(s.table, s.node.ip, p)
        case None => None
        case Some(t) => Some(Turn(s.(table := t), []))
  }

  ghost function Step(s: Slave, e: Event): Option<Slave> {
    match React(s, e)
    case None => None
    case Some(t) => Some(t.slave)
  }

  ghost predicate Possible(s: Slave, events: seq<Event>) {
    RunFrom(Step, s, events).Some?
  }

  ghost function End(s: Slave, events: seq<Event>): Slave
    requires Possible(s, events)
  {
    RunFrom(Step, s, events).value
  }

  /**
   * What every reachable state keeps: one status, a bit for every message, no NE while waiting,
   * `started_waiting` set as long as an NE is retransmitted, and each neighbour once in the table.
   */
  ghost predicate Good(s: Slave) {
    && !s.node.isMaster && s.node.status == s.rt.status && s.rt.status != NA
    && Consistent(s.rt) && Labelled(s.rt)
    && (s.rt.status == Waiting ==> !Armed(s.rt, NE))
    && (Armed(s.rt, NE) ==> s.since != 0)
    && DistinctIps(s.table)
  }

  /** Clock readings are positive. */
  predicate Timely(e: Event) {
    e.HearsPb? ==> e.act > 0
  }

  /** A slave that has heard nothing yet. */
  ghost predicate Begins(s: Slave) {
    && s.node == Node.Fresh(s.node.ip, false) && s.since == 0 && s.table == []
    && s.rt.bits == 0 && s.rt.msg == map[] && s.rt.status == Outside
  }

  lemma BeginsGood(s: Slave)
    requires Begins(s)
    ensures Good(s)
  {
    forall k: Kind
      ensures !Armed(s.rt, k)
    {
      ZeroBit(BitOf(k));
    }
  }

  // ---------------------------------------------------------------- the steps

  /** A TB of another node, and whether it lists this one. */
  predicate Notices(ip: Ip, e: Event) {
    e.HearTb? && Readable(e.bytes) && Sender(e.bytes) != ip
  }

  predicate Lists(ip: Ip, e: Event) {
    Notices(ip, e) && ip in TbFormat.Ips(e.bytes)
  }

  /** An NEP of another node that names this one. */
  predicate Invites(ip: Ip, e: Event) {
    e.HearNep? && e.outsider == ip && e.proxy != ip
  }

  /** The NE is sent for the fifth time. */
  predicate SendsLastNe(s: Slave, e: Event) {
    e.Wake? && Armed(s.rt, NE) && e.act > s.rt.time.At(NE) && s.rt.amm.At(NE) == 4
  }

  /** A PB of another node comes more than five seconds after the NE. */
  predicate TimesOut(s: Slave, e: Event) {
    && e.HearsPb? && e.sender != s.node.ip
    && s.rt.status == Waiting && s.since != 0 && e.act > s.since + 5_000_000_000
  }

  /** A PB of another node, outside, that says that the master can be reached. */
  predicate Asks(s: Slave, e: Event) {
    e.HearsPb? && e.sender != s.node.ip && s.rt.status == Outside && e.distance != 65535
  }

  lemma SameIpsDistinct(t: seq<Entry>, u: seq<Entry>)
    requires DistinctIps(t) && |u| == |t| && forall i | 0 <= i < |t| :: u[i].ip == t[i].ip
    ensures DistinctIps(u)
  {
  }

  lemma HeardKeepsIps(t: seq<Entry>, ip: Ip, act: nat)
    requires DistinctIps(t)
    ensures DistinctIps(Heard(t, ip, act))
  {
    SameIpsDistinct(t, Heard(t, ip, act));
  }

  /** Every packet leaves each neighbour once in the table. */
  lemma ReceiveKeepsIps(t: seq<Entry>, self: Ip, p: RoutingRuns.Packet)
    requires DistinctIps(t) && RoutingRuns.Receive(t, self, p).Some?
    ensures DistinctIps(RoutingRuns.Receive(t, self, p).value)
  {
    match p
    case Pb(sender, distance, pbe, inside, act) =>
      var h := Heard(t, sender, act);
      HeardKeepsIps(t, sender, act);
      UpdateDistinct(h, Report(sender, distance, pbe, RoutingRuns.RemoteOf(h, sender), act, 7));
    case Pr(sender, _, distance, pbe, remote, act) =>
      UpdateDistinct(t, Report(sender, distance, pbe, remote, act, 13));
    case Pc(sender, reached, pbe, remote, act) =>
      if reached == self {
        UpdateDistinct(t, Report(sender, t[Find(t, sender)].distance, pbe, remote, act, 11));
      }
    case Sd(sender, pbe, received, size, act) =>
      var h := Heard(t, sender, act);
      HeardKeepsIps(t, sender, act);
      if Find(h, sender) == |h| {
        UpdateDistinct(h, Report(sender, UNREACHABLE, pbe, WORST_QUALITY, received, size));
      } else {
        SameIpsDistinct(h, RolledIn(h, sender, pbe, size));
      }
    case Choose(act) =>
      assert forall i | 0 <= i < |Pruned(t, act)| :: Pruned(t, act)[i] == t[StaleHeads(t, act) + i];
  }

  lemma PassOnNe(s: Rt, act: nat, draw: PerKind)
    requires Consistent(s) && Labelled(s)
    ensures var t := Pass(s, act, draw);
      && Consistent(t) && Labelled(t) && (Armed(t, NE) ==> Armed(s, NE))
      && (!(Armed(s, NE) && act > s.time.At(NE)) ==> t.status == s.status && (Armed(t, NE) <==> Armed(s, NE)))
      && (Armed(s, NE) && act > s.time.At(NE) && s.amm.At(NE) < 4 ==>
            t.status == s.status && Armed(t, NE) && t.amm.At(NE) == s.amm.At(NE) + 1)
      && (Armed(s, NE) && act > s.time.At(NE) && s.amm.At(NE) == 4 ==> t.status == Outside && !Armed(t, NE))
  {
    PassCountsNe(s, act, draw);
    PassLabelled(s, act, draw);
  }

  lemma NeIsLabelled(outsider: Ip, proxy: Ip)
    ensures IsOfKind(NeBytes(outsider, proxy), NE)
  {
  }

  /** An invited node stops its NE and waits. */
  lemma InvitedStep(s: Slave, proxy: Ip, outsider: Ip)
    requires Good(s)
    ensures var t := HearInvitation(s, proxy, outsider);
      && Good(t) && t.node.ip == s.node.ip && t.since == s.since
      && if Invites(s.node.ip, HearNep(proxy, outsider)) then t.rt.status == Waiting && !Armed(t.rt, NE) else t == s
  {
    if proxy != s.node.ip && outsider == s.node.ip {
      StopConsistent(s.rt, NE);
      OtherBits(s.rt, NE, NE);
    }
  }

  /** To the table a PB is the packet that it is for a node inside or not. */
  lemma TableStep(s: Slave, sender: Ip, distance: Short, pbe: real, act: nat, timeout: nat)
    ensures Some(HearPb(s, sender, distance, pbe, act, timeout).slave.table)
      == RoutingRuns.Receive(s.table, s.node.ip, RoutingRuns.Pb(sender, distance, pbe, s.rt.status == Inside, act))
    ensures DistinctIps(s.table) ==> DistinctIps(HearPb(s, sender, distance, pbe, act, timeout).slave.table)
  {
    if DistinctIps(s.table) {
      ReceiveKeepsIps(s.table, s.node.ip, RoutingRuns.Pb(sender, distance, pbe, s.rt.status == Inside, act));
    }
  }

  lemma AskedStep(s: Slave, sender: Ip, distance: Short, pbe: real, act: nat, timeout: nat)
    requires Good(s) && act > 0
    ensures var t := HearPb(s, sender, distance, pbe, act, timeout).slave;
      && Good(t) && t.node.ip == s.node.ip
      && (Asks(s, HearsPb(sender, distance, pbe, act, timeout)) ==> Armed(t.rt, NE) && t.since == act)
      && (!Asks(s, HearsPb(sender, distance, pbe, act, timeout)) ==> Armed(t.rt, NE) == Armed(s.rt, NE))
  {
    StartConsistent(s.rt, NE, NeBytes(s.node.ip, sender), act, timeout);
    OtherBits(s.rt, NE, NE);
    NeIsLabelled(s.node.ip, sender);
    TableStep(s, sender, distance, pbe, act, timeout);
  }

  lemma StepIsGood(s: Slave, e: Event)
    requires Good(s) && Step(s, e).Some? && Timely(e)
    ensures Good(Step(s, e).value) && Step(s, e).value.node.ip == s.node.ip
  {
    match e
    case HearTb(b) =>
    case HearNep(proxy, outsider) => InvitedStep(s, proxy, outsider);
    case HearsPb(sender, distance, pbe, act, timeout) => AskedStep(s, sender, distance, pbe, act, timeout);
    case Wake(act, draw) => PassOnNe(s.rt, act, draw);
    case Route(p) => ReceiveKeepsIps(s.table, s.node.ip, p);
    case OtherKinds(t) =>
  }

  /** What makes a slave go inside, wait, and go outside, and nothing else does. */
  lemma StatusStep(s: Slave, e: Event)
    requires Good(s) && Step(s, e).Some? && Timely(e)
    ensures Step(s, e).value.rt.status ==
      if Notices(s.node.ip, e) then (if Lists(s.node.ip, e) then Inside else Outside)
      else if Invites(s.node.ip, e) then Waiting
      else if SendsLastNe(s, e) || TimesOut(s, e) then Outside
      else s.rt.status
  {
    match e
    case HearTb(b) =>
    case HearNep(proxy, outsider) => InvitedStep(s, proxy, outsider);
    case HearsPb(sender, distance, pbe, act, timeout) =>
    case Wake(act, draw) => PassOnNe(s.rt, act, draw);
    case Route(p) =>
    case OtherKinds(t) =>
  }

  // ---------------------------------------------------------------- whole runs

  ghost predicate AllTimely(events: seq<Event>) {
    forall i | 0 <= i < |events| :: Timely(events[i])
  }

  /** A run from a good state. */
  ghost predicate Lives(s: Slave, events: seq<Event>) {
    Good(s) && Possible(s, events) && AllTimely(events)
  }

  lemma {:induction false} StaysGood(s: Slave, events: seq<Event>)
    requires Lives(s, events)
    ensures Good(End(s, events)) && End(s, events).node.ip == s.node.ip
    decreases |events|
  {
    if events != [] {
      var n := |events| - 1;
      LastStep(Step, s, events);
      StaysGood(s, events[..n]);
      StepIsGood(End(s, events[..n]), events[n]);
    }
  }

  /** The last event of a run, in the good state in which it comes. */
  lemma ComesLast(s: Slave, events: seq<Event>)
    requires Lives(s, events) && events != []
    ensures var n := |events| - 1;
      && Lives(s, events[..n]) && Timely(events[n])
      && var t := End(s, events[..n]);
         && t == At(Step, s, events, n) && Good(t) && t.node.ip == s.node.ip
         && Step(t, events[n]) == Some(End(s, events))
  {
    LastStep(Step, s, events);
    StaysGood(s, events[..|events| - 1]);
  }

  // The events that begin and end being inside and waiting.

  ghost function GoesIn(ip: Ip): (Slave, Event) -> bool {
    (t: Slave, e: Event) => Lists(ip, e)
  }

  /** A TB that does not list it, an NEP that names it, or its own fifth NE. */
  ghost function GoesOut(ip: Ip): (Slave, Event) -> bool {
    (t: Slave, e: Event) => (Notices(ip, e) && !Lists(ip, e)) || Invites(ip, e) || SendsLastNe(t, e)
  }

  ghost function IsInvited(ip: Ip): (Slave, Event) -> bool {
    (t: Slave, e: Event) => Invites(ip, e)
  }

  /** A TB, or a PB more than five seconds after its last NE. */
  ghost function StopsWaiting(ip: Ip): (Slave, Event) -> bool {
    (t: Slave, e: Event) => Notices(ip, e) || TimesOut(t, e)
  }

  /** A TB has listed the slave, and nothing has put it out since. */
  ghost predicate ListedSince(s: Slave, events: seq<Event>)
    requires Possible(s, events)
  {
    Since(Step, s, events, GoesIn(s.node.ip), GoesOut(s.node.ip))
  }

  ghost predicate InvitedSince(s: Slave, events: seq<Event>)
    requires Possible(s, events)
  {
    Since(Step, s, events, IsInvited(s.node.ip), StopsWaiting(s.node.ip))
  }

  /**
   * A slave is inside, after any run, if and only if a TB of another node has listed it, and since
   * then no TB has left it out, no NEP has named it, and it has not sent its fifth NE.
   */
  lemma {:induction false} InsideIffListedSince(s: Slave, events: seq<Event>)
    requires Lives(s, events) && s.rt.status == Outside
    ensures End(s, events).rt.status == Inside <==> ListedSince(s, events)
    decreases |events|
  {
    if events != [] {
      var n := |events| - 1;
      ComesLast(s, events);
      InsideIffListedSince(s, events[..n]);
      StatusStep(End(s, events[..n]), events[n]);
      SinceLast(Step, s, events, GoesIn(s.node.ip), GoesOut(s.node.ip));
    }
  }

  lemma WaitingStep(s: Slave, e: Event)
    requires Good(s) && Step(s, e).Some? && Timely(e)
    ensures Step(s, e).value.rt.status == Waiting
      <==> Invites(s.node.ip, e) || (s.rt.status == Waiting && !Notices(s.node.ip, e) && !TimesOut(s, e))
  {
    StatusStep(s, e);
  }

  /**
   * It waits, with no NE, if and only if an NEP of another node has named it, and since then it has
   * heard no TB, and no PB later than five seconds after its last NE.
   */
  lemma {:induction false} WaitingIffInvitedSince(s: Slave, events: seq<Event>)
    requires Lives(s, events) && s.rt.status == Outside
    ensures End(s, events).rt.status == Waiting <==> InvitedSince(s, events)
    ensures InvitedSince(s, events) ==> !Armed(End(s, events).rt, NE)
    decreases |events|
  {
    StaysGood(s, events);
    if events != [] {
      var n := |events| - 1;
      ComesLast(s, events);
      WaitingIffInvitedSince(s, events[..n]);
      WaitingStep(End(s, events[..n]), events[n]);
      SinceLast(Step, s, events, IsInvited(s.node.ip), StopsWaiting(s.node.ip));
    }
  }

  // ---------------------------------------------------------------- what it answers to a PB

  /**
   * After any run a slave answers a PB of another node with a PR if and only if it has been listed
   * since, and then has the sender in its table with the distance of the PB; it answers with an NE if
   * and only if it is outside and the sender is not; and it sends nothing else.
   */
  lemma AnswersPbExactly(s: Slave, events: seq<Event>, sender: Ip, distance: Short, pbe: real, act: nat, timeout: nat)
    requires Lives(s, events) && s.rt.status == Outside && sender != s.node.ip
    ensures var t := End(s, events); var turn := HearPb(t, sender, distance, pbe, act, timeout);
      && ((exists d :: turn.sent == [PrTo(sender, d, pbe)]) <==> ListedSince(s, events))
      && (turn.sent == [NeTo(sender)] <==> !ListedSince(s, events) && !InvitedSince(s, events) && distance != 65535)
      && (|turn.sent| <= 1)
      && (ListedSince(s, events) ==>
            Lookup(turn.slave.table, sender).Some? && Lookup(turn.slave.table, sender).value.distance == distance)
  {
    var t := End(s, events);
    StaysGood(s, events);
    InsideIffListedSince(s, events);
    WaitingIffInvitedSince(s, events);
    if t.rt.status == Inside {
      ListsSender(t, sender, distance, pbe, act, timeout);
    }
  }

  lemma ListsSender(t: Slave, sender: Ip, distance: Short, pbe: real, act: nat, timeout: nat)
    requires Good(t) && t.rt.status == Inside && sender != t.node.ip
    ensures var turn := HearPb(t, sender, distance, pbe, act, timeout);
      && turn.sent == [PrTo(sender, MyDistance(false, turn.slave.table), pbe)]
      && Lookup(turn.slave.table, sender).Some? && Lookup(turn.slave.table, sender).value.distance == distance
  {
    var h := Heard(t.table, sender, act);
    HeardKeepsIps(t.table, sender, act);
    UpdateLookup(h, Report(sender, distance, pbe, RoutingRuns.RemoteOf(h, sender), act, 7), sender);
  }

  /**
   * From the master's list to the answer: a slave of a network, in any run in which only TBs move it,
   * answers the PBs of other nodes if and only if the round whose TB it has noticed last lists it.
   */
  lemma ListedNodeAnswers(net: Network.Net, events: seq<Network.Event>, v: Ip, x: Slave,
      sender: Ip, distance: Short, pbe: real, act: nat, timeout: nat)
    requires Network.Initial(net) && Network.Possible(net, events)
    requires Membership.IsSlave(net, v) && net.nodes[v].status == Outside && Membership.OnlyTbsMove(net, events, v)
    requires var end := Network.After(net, events);
      v in end.nodes && x.node == end.nodes[v] && x.rt.status == x.node.status
    requires sender != v
    ensures var turn := HearPb(x, sender, distance, pbe, act, timeout);
      (exists d :: turn.sent == [PrTo(sender, d, pbe)])
      <==> exists r | r in Network.After(net, events).rounds :: Membership.LastListedBy(v, events, r)
  {
    Membership.InsideExactly(net, events, v);
    Membership.LastTbDecides(net, events, v);
  }

  // ---------------------------------------------------------------- an NE that is still going out

  /** Nothing in the run leaves the slave out or invites it. */
  predicate Quiet(ip: Ip, events: seq<Event>) {
    forall i | 0 <= i < |events| :: QuietEvent(ip, events[i])
  }

  predicate QuietEvent(ip: Ip, e: Event) {
    (Notices(ip, e) ==> Lists(ip, e)) && !Invites(ip, e)
  }

  /** A pass right after the deadline of the NE. */
  function NextPass(s: Slave): Event {
    Event.Wake(s.rt.time.At(NE) + 1, PerKind(3_000_000_000, 6_000_000_000, 1_000_000_000, 2_000_000_000, 2_000_000_000))
  }

  lemma NextPassFires(s: Slave)
    requires Good(s) && Armed(s.rt, NE)
    ensures Step(s, NextPass(s)).Some? && s.rt.amm.At(NE) < 5
    ensures var t := Step(s, NextPass(s)).value;
      && Good(t) && t.node.ip == s.node.ip
      && if s.rt.amm.At(NE) == 4 then t.rt.status == Outside && !Armed(t.rt, NE)
         else t.rt.status == s.rt.status && Armed(t.rt, NE) && t.rt.amm.At(NE) == s.rt.amm.At(NE) + 1
  {
    var e := NextPass(s);
    PassOnNe(s.rt, e.act, e.draw);
    StepIsGood(s, e);
  }

  lemma OneMore(s: Slave, e: Event, rest: seq<Event>)
    requires Step(s, e).Some? && Possible(Step(s, e).value, rest)
    ensures Possible(s, [e] + rest) && End(s, [e] + rest) == End(Step(s, e).value, rest)
  {
    assert ([e] + rest)[1..] == rest;
  }

  /** As long as an NE is retransmitted, the timers alone take the slave outside. */
  lemma {:induction false} TimersPutOut(s: Slave) returns (events: seq<Event>)
    requires Good(s) && Armed(s.rt, NE)
    ensures Lives(s, events) && Quiet(s.node.ip, events) && forall i | 0 <= i < |events| :: events[i].Wake?
    ensures End(s, events).rt.status == Outside
    decreases 5 - s.rt.amm.At(NE)
  {
    var e, rest := NextPass(s), [];
    NextPassFires(s);
    var t := Step(s, e).value;
    if s.rt.amm.At(NE) < 4 {
      rest := TimersPutOut(t);
    }
    OneMore(s, e, rest);
    events := [e] + rest;
  }

  lemma StaysInStep(s: Slave, e: Event)
    requires Good(s) && s.rt.status == Inside && !Armed(s.rt, NE)
    requires Step(s, e).Some? && Timely(e) && QuietEvent(s.node.ip, e)
    ensures var t := Step(s, e).value; t.rt.status == Inside && !Armed(t.rt, NE)
  {
    StatusStep(s, e);
    match e
    case HearTb(b) =>
    case HearNep(proxy, outsider) => InvitedStep(s, proxy, outsider);
    case HearsPb(sender, distance, pbe, act, timeout) => AskedStep(s, sender, distance, pbe, act, timeout);
    case Wake(act, draw) => PassOnNe(s.rt, act, draw);
    case Route(p) =>
    case OtherKinds(t) =>
  }

  lemma {:induction false} StaysIn(s: Slave, events: seq<Event>)
    requires Lives(s, events) && Quiet(s.node.ip, events) && s.rt.status == Inside && !Armed(s.rt, NE)
    ensures End(s, events).rt.status == Inside && !Armed(End(s, events).rt, NE)
    decreases |events|
  {
    if events != [] {
      var n := |events| - 1;
      ComesLast(s, events);
      StaysIn(s, events[..n]);
      assert QuietEvent(s.node.ip, events[n]);
      StaysInStep(End(s, events[..n]), events[n]);
    }
  }

  /**
   * A slave that has been taken inside stays there over every run, unless a TB leaves it out or an
   * NEP names it, if and only if it no longer retransmits an NE: `TB_RX` does not stop that, and the
   * fifth sets the status to Outside.
   */
  lemma StaysInsideExactly(s: Slave)
    requires Good(s) && s.rt.status == Inside
    ensures (forall events | Lives(s, events) && Quiet(s.node.ip, events) :: End(s, events).rt.status == Inside)
      <==> !Armed(s.rt, NE)
  {
    if Armed(s.rt, NE) {
      var events := TimersPutOut(s);
    } else {
      forall events | Lives(s, events) && Quiet(s.node.ip, events)
        ensures End(s, events).rt.status == Inside
      {
        StaysIn(s, events);
      }
    }
  }

  function FirstPb(p: Ip): Event {
    HearsPb(p, 0, 0.0, 1, 2_000_000_000)
  }

  lemma AsksFirst(s: Slave, p: Ip) returns (t: Slave)
    requires Begins(s) && p != s.node.ip
    ensures Good(s) && Step(s, FirstPb(p)) == Some(t) && Good(t) && t.node.ip == s.node.ip && !t.node.isMaster
    ensures Armed(t.rt, NE) && t.since == 1 && t.rt.status == Outside
  {
    BeginsGood(s);
    StepIsGood(s, FirstPb(p));
    StatusStep(s, FirstPb(p));
    AskedStep(s, p, 0, 0.0, 1, 2_000_000_000);
    t := Step(s, FirstPb(p)).value;
  }

  lemma AsksThenListed(s: Slave, p: Ip, b: seq<byte>) returns (t: Slave, u: Slave)
    requires Begins(s) && p != s.node.ip && Lists(s.node.ip, HearTb(b))
    ensures Good(s) && Step(s, FirstPb(p)) == Some(t) && Good(t) && Step(t, HearTb(b)) == Some(u)
    ensures t.node.ip == s.node.ip
    ensures Good(u) && u.node.ip == s.node.ip && Armed(u.rt, NE)
  {
    t := AsksFirst(s, p);
    StepIsGood(t, HearTb(b));
    u := Step(t, HearTb(b)).value;
    assert u.rt.bits == t.rt.bits;
  }

  /** An event more in front. */
  lemma QuietMore(s: Slave, e: Event, rest: seq<Event>)
    requires Good(s) && Step(s, e).Some? && Timely(e) && QuietEvent(s.node.ip, e)
    requires Lives(Step(s, e).value, rest) && Quiet(s.node.ip, rest)
    ensures Lives(s, [e] + rest) && Quiet(s.node.ip, [e] + rest)
    ensures End(s, [e] + rest) == End(Step(s, e).value, rest)
  {
    OneMore(s, e, rest);
  }

  /**
   * It happens: for every slave, neighbour and TB that lists the slave there is a run from the start,
   * with a PB, the TB and passes of the timers, at whose end the slave is outside although the only
   * TB that it has heard lists it.
   */
  lemma ListedButPutOut(s: Slave, p: Ip, b: seq<byte>) returns (passes: seq<Event>)
    requires Begins(s) && p != s.node.ip && Lists(s.node.ip, HearTb(b))
    ensures forall i | 0 <= i < |passes| :: passes[i].Wake?
    ensures var events := [FirstPb(p)] + ([HearTb(b)] + passes);
      Lives(s, events) && Quiet(s.node.ip, events) && End(s, events).rt.status == Outside
  {
    var t, u := AsksThenListed(s, p, b);
    passes := TimersPutOut(u);
    QuietMore(t, HearTb(b), passes);
    QuietMore(s, FirstPb(p), [HearTb(b)] + passes);
  }

  // ---------------------------------------------------------------- a node that waits for ever

  /** In the run no TB of another node is heard. */
  predicate WithoutTb(ip: Ip, events: seq<Event>) {
    forall i | 0 <= i < |events| :: !Notices(ip, events[i])
  }

  /** Waiting, and `started_waiting` is 0. */
  predicate Stranded(s: Slave) {
    s.rt.status == Waiting && s.since == 0
  }

  lemma StrandedStep(s: Slave, e: Event)
    requires Good(s) && Stranded(s) && Step(s, e).Some? && Timely(e) && !Notices(s.node.ip, e)
    ensures Stranded(Step(s, e).value)
  {
    StatusStep(s, e);
    match e
    case HearTb(b) =>
    case HearNep(proxy, outsider) => InvitedStep(s, proxy, outsider);
    case HearsPb(sender, distance, pbe, act, timeout) =>
    case Wake(act, draw) =>
    case Route(p) =>
    case OtherKinds(t) =>
  }

  lemma {:induction false} StaysStranded(s: Slave, events: seq<Event>)
    requires Lives(s, events) && Stranded(s) && WithoutTb(s.node.ip, events)
    ensures Stranded(End(s, events))
    decreases |events|
  {
    if events != [] {
      var n := |events| - 1;
      ComesLast(s, events);
      StaysStranded(s, events[..n]);
      StrandedStep(End(s, events[..n]), events[n]);
    }
  }

  /** A waiting node can get outside again without a TB, to ask anew, if and only if `started_waiting` is set. */
  lemma GivesUpExactly(s: Slave)
    requires Good(s) && s.rt.status == Waiting
    ensures (exists events ::
        Lives(s, events) && WithoutTb(s.node.ip, events) && End(s, events).rt.status == Outside)
      <==> s.since != 0
  {
    if s.since == 0 {
      forall events | Lives(s, events) && WithoutTb(s.node.ip, events)
        ensures End(s, events).rt.status == Waiting
      {
        StaysStranded(s, events);
      }
    } else {
      var other := if s.node.ip == Ip(0, 0) then Ip(0, 1) else Ip(0, 0);
      var pb := HearsPb(other, 0, 0.0, s.since + 5_000_000_001, 0);
      assert TimesOut(s, pb);
      StatusStep(s, pb);
      OneMore(s, pb, []);
      assert [pb] + [] == [pb];
      assert Lives(s, [pb]) && WithoutTb(s.node.ip, [pb]) && End(s, [pb]).rt.status == Outside;
    }
  }

  function LatePb(p: Ip): Event {
    HearsPb(p, 0, 0.0, 5_000_000_002, 2_000_000_000)
  }

  /** A PB, the NEP that answers the NE, a PB more than five seconds later, and a second copy of the NEP. */
  function Strands(ip: Ip, p: Ip): seq<Event> {
    [FirstPb(p)] + ([HearNep(p, ip)] + ([LatePb(p)] + ([HearNep(p, ip)] + [])))
  }

  lemma GivesUpLate(u: Slave, p: Ip) returns (v: Slave)
    requires Good(u) && u.rt.status == Waiting && u.since == 1 && p != u.node.ip
    ensures Step(u, LatePb(p)) == Some(v) && Good(v) && v.node.ip == u.node.ip && v.since == 0
  {
    assert TimesOut(u, LatePb(p));
    AskedStep(u, p, 0, 0.0, 5_000_000_002, 2_000_000_000);
    v := Step(u, LatePb(p)).value;
  }

  lemma InvitedNext(t: Slave, p: Ip) returns (u: Slave)
    requires Good(t) && p != t.node.ip
    ensures Step(t, HearNep(p, t.node.ip)) == Some(u) && Good(u) && u.node.ip == t.node.ip
    ensures u.rt.status == Waiting && u.since == t.since
  {
    InvitedStep(t, p, t.node.ip);
    u := HearInvitation(t, p, t.node.ip);
  }

  /**
   * It happens: after these four packets from any neighbour a slave waits for ever, over every run in
   * which no TB comes. It asks nobody any more.
   */
  lemma LateNepStrands(s: Slave, p: Ip)
    requires Begins(s) && p != s.node.ip
    ensures Lives(s, Strands(s.node.ip, p)) && Stranded(End(s, Strands(s.node.ip, p)))
    ensures forall events | Lives(End(s, Strands(s.node.ip, p)), events) && WithoutTb(s.node.ip, events) ::
      Stranded(End(End(s, Strands(s.node.ip, p)), events))
  {
    var ip := s.node.ip;
    var pb, nep, late := FirstPb(p), HearNep(p, ip), LatePb(p);
    var t := AsksFirst(s, p);
    var u := InvitedNext(t, p);
    var v := GivesUpLate(u, p);
    var w := InvitedNext(v, p);
    OneMore(v, nep, []);
    OneMore(u, late, [nep] + []);
    OneMore(t, nep, [late] + ([nep] + []));
    OneMore(s, pb, [nep] + ([late] + ([nep] + [])));
    forall events | Lives(w, events) && WithoutTb(ip, events)
      ensures Stranded(End(w, events))
    {
      StaysStranded(w, events);
    }
  }

  // ---------------------------------------------------------------- no NE after an NEP

  /** The NEs among the messages that an event sends, whether new or sent again. */
  ghost function NesIn(s: Slave, e: Event): nat {
    match e
    case HearsPb(sender, distance, pbe, act, timeout) =>
      if NeTo(sender) in HearPb(s, sender, distance, pbe, act, timeout).sent then 1 else 0
    case Wake(act, _) => OfKind(Queued(s.rt, act), NE)
    case _ => 0
  }

  ghost function IsAsking(): (Slave, Event) -> bool {
    (t: Slave, e: Event) => Asks(t, e)
  }

  /** No event of the run makes the slave ask. */
  ghost predicate AsksNobody(s: Slave, events: seq<Event>)
    requires Possible(s, events)
  {
    true !in Marks(Step, s, events, IsAsking())
  }

  ghost function NesSent(s: Slave, events: seq<Event>): nat
    requires Possible(s, events)
    decreases |events|
  {
    if events == [] then 0
    else
      LastStep(Step, s, events);
      NesSent(s, events[..|events| - 1]) + NesIn(At(Step, s, events, |events| - 1), events[|events| - 1])
  }

  lemma SilentStep(s: Slave, e: Event)
    requires Good(s) && Step(s, e).Some? && Timely(e) && !Armed(s.rt, NE) && !Asks(s, e)
    ensures NesIn(s, e) == 0 && !Armed(Step(s, e).value.rt, NE)
  {
    match e
    case HearTb(b) =>
    case HearNep(proxy, outsider) => InvitedStep(s, proxy, outsider);
    case HearsPb(sender, distance, pbe, act, timeout) => AskedStep(s, sender, distance, pbe, act, timeout);
    case Wake(act, draw) =>
      OneOfKind(s.rt, act, NE);
      PassOnNe(s.rt, act, draw);
    case Route(p) =>
    case OtherKinds(t) =>
  }

  lemma AskedNobodyBefore(s: Slave, events: seq<Event>)
    requires Possible(s, events) && events != [] && AsksNobody(s, events)
    ensures Possible(s, events[..|events| - 1]) && AsksNobody(s, events[..|events| - 1])
    ensures !Asks(At(Step, s, events, |events| - 1), events[|events| - 1])
  {
    LastStep(Step, s, events);
    MarksLast(Step, s, events, IsAsking());
  }

  lemma {:induction false} NoNeUnlessAsked(s: Slave, events: seq<Event>)
    requires Lives(s, events) && !Armed(s.rt, NE) && AsksNobody(s, events)
    ensures NesSent(s, events) == 0 && !Armed(End(s, events).rt, NE)
    decreases |events|
  {
    if events != [] {
      var n := |events| - 1;
      ComesLast(s, events);
      AskedNobodyBefore(s, events);
      NoNeUnlessAsked(s, events[..n]);
      SilentStep(End(s, events[..n]), events[n]);
    }
  }

  /** After an NEP of another node that names it, a slave sends no NE, in any run, until it asks somebody anew. */
  lemma NepSilencesNe(s: Slave, proxy: Ip, events: seq<Event>)
    requires Good(s) && proxy != s.node.ip
    requires Lives(HearInvitation(s, proxy, s.node.ip), events)
    requires AsksNobody(HearInvitation(s, proxy, s.node.ip), events)
    ensures NesSent(HearInvitation(s, proxy, s.node.ip), events) == 0
  {
    InvitedStep(s, proxy, s.node.ip);
    NoNeUnlessAsked(HearInvitation(s, proxy, s.node.ip), events);
  }
}
