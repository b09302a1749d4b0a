/** Joining at the master: whoever is answered is listed in the timetable, over every run. */
module MasterJoin {
  import opened Bytes
  import opened TbFormat
  import opened IpList
  import opened Retransmission
  import opened TbRound
  import Join
  import Routes

  /** The master with its lists, its round, and the outsiders that it has answered with an NEP or an NEA of its own. */
  datatype Desk = Desk(joiner: Join.Joiner, round: Master, answered: set<Ip>)

  datatype DeskEvent =
    | Request(packet: Join.Packet, act: nat, now: nat, bytes: seq<byte>)  // an NE or NER; generateTB builds `bytes`
    | Echo(outsider: Ip)                                                  // an NEA comes back to the master
    | Data(sender: Ip)
    | InRound(event: MasterEvent)                                         // TAs, passes, other kinds of message

  /** The master is asked to take the outsider in. */
  predicate Asked(n: Join.Joiner, p: Join.Packet) {
    ((p.Ne? && p.proxy == n.ip) || (p.Ner? && p.nextHop == n.ip)) && p.outsider != n.ip
  }

  ghost predicate DeskInv(d: Desk) {
    && MasterInv(d.round) && d.joiner.isMaster && d.joiner.ip == d.round.ip && d.joiner.subs == d.round.subs
    && (forall x | x in d.answered :: x in d.round.subs)
    && (TB in d.round.rt.msg ==> forall x | x in d.answered :: x in d.round.listed)
  }

  function TakenIn(m: Master, x: Ip): Master {
    m.(subs := Listed(m.subs, x))
  }

  ghost predicate DeskEnabled(d: Desk, e: DeskEvent)
    requires DeskInv(d)
  {
    match e
    case Request(p, act, now, b) =>
      Asked(d.joiner, p) && MasterEnabled(TakenIn(d.round, p.outsider), BeginRound(act, now, b))
    case Echo(x) => x in d.answered
    case Data(_) => true
    case InRound(r) => (r.HearTa? || r.PassOver? || r.OtherKinds?) && MasterEnabled(d.round, r)
  }

  /** Does `beginTBTransmission` start or remake a TB on this request? */
  predicate Begun(d: Desk, p: Join.Packet, act: nat, b: seq<byte>) {
    Begin(TakenIn(d.round, p.outsider).rt, act, b).ok
  }

  /** What the master does on a request, and sends. */
  function Answer(d: Desk, p: Join.Packet, act: nat, b: seq<byte>): Join.Outcome {
    Join.Hear(d.joiner, p, Routes.NoHop, Begun(d, p, act, b))
  }

  lemma TakingInKeeps(m: Master, x: Ip)
    requires MasterInv(m)
    ensures MasterInv(TakenIn(m, x)) && TakenIn(m, x) == MasterNext(m, MasterEvent.Insert(x))
  {
    MasterStepKeeps(m, MasterEvent.Insert(x));
  }

  ghost function DeskNext(d: Desk, e: DeskEvent): Desk
    requires DeskInv(d) && DeskEnabled(d, e)
  {
    match e
    case Request(p, act, now, b) =>
      TakingInKeeps(d.round, p.outsider);
      Desk(Answer(d, p, act, b).node, MasterNext(TakenIn(d.round, p.outsider), BeginRound(act, now, b)),
           if Begun(d, p, act, b) then d.answered + {p.outsider} else d.answered)
    case Echo(x) => d.(joiner := Join.Hear(d.joiner, Join.Nea(x), Routes.NoHop, false).node)
    case Data(sender) => d.(joiner := Join.HearData(d.joiner, sender), round := TakenIn(d.round, sender))
    case InRound(r) => d.(round := MasterNext(d.round, r))
  }

  lemma TakenInIsListed(subs: seq<Ip>, x: Ip)
    ensures x in Listed(subs, x) && forall y | y in subs :: y in Listed(subs, x)
  {
    assert Listed(subs, x) != [] && (x !in subs ==> Listed(subs, x)[0] == x && Listed(subs, x)[1..] == subs);
  }

  lemma RequestKeeps(d: Desk, p: Join.Packet, act: nat, now: nat, b: seq<byte>)
    requires DeskInv(d) && DeskEnabled(d, Request(p, act, now, b))
    ensures DeskInv(DeskNext(d, Request(p, act, now, b)))
  {
    var m := TakenIn(d.round, p.outsider);
    TakingInKeeps(d.round, p.outsider);
    TakenInIsListed(d.round.subs, p.outsider);
    MasterStepKeeps(m, BeginRound(act, now, b));
  }

  /** What a round does to itself leaves the lists alone. */
  lemma RoundKeepsLists(m: Master, r: MasterEvent)
    requires MasterInv(m) && MasterEnabled(m, r) && (r.HearTa? || r.PassOver? || r.OtherKinds?)
    ensures var t := MasterNext(m, r);
      t.ip == m.ip && t.subs == m.subs && t.listed == m.listed && (TB in t.rt.msg ==> TB in m.rt.msg)
  {
    if r.PassOver? {
      PassOnTb(m.rt, r.act, r.draw);
    }
  }

  lemma DeskStepKeeps(d: Desk, e: DeskEvent)
    requires DeskInv(d) && DeskEnabled(d, e)
    ensures DeskInv(DeskNext(d, e))
  {
    match e
    case Request(p, act, now, b) => RequestKeeps(d, p, act, now, b);
    case Echo(_) =>
    case Data(sender) =>
      TakingInKeeps(d.round, sender);
      TakenInIsListed(d.round.subs, sender);
    case InRound(r) =>
      MasterStepKeeps(d.round, r);
      RoundKeepsLists(d.round, r);
  }

  /**
   * An outsider is answered exactly if a TB was started or remade for it, and then the pending TB
   * lists it and asks it for a TA.
   */
  lemma AnsweredMeansListed(d: Desk, p: Join.Packet, act: nat, now: nat, b: seq<byte>)
    requires DeskInv(d) && DeskEnabled(d, Request(p, act, now, b))
    ensures var x := p.outsider;
      var t := DeskNext(d, Request(p, act, now, b));
      && Answer(d, p, act, b).Done?
      && (Answer(d, p, act, b).sent != [] <==> Begun(d, p, act, b))
      && (Begun(d, p, act, b) ==>
            && Answer(d, p, act, b).sent == [if p.Ne? then Join.Nep(d.joiner.ip, x) else Join.Nea(x)]
            && TB in t.round.rt.msg && Readable(t.round.rt.msg[TB])
            && x in Ips(t.round.rt.msg[TB]) && OwesTa(t.round.rt.msg[TB], x))
  {
    var m := TakenIn(d.round, p.outsider);
    TakingInKeeps(d.round, p.outsider);
    TakenInIsListed(d.round.subs, p.outsider);
    if Begun(d, p, act, b) {
      BegunListsEverybody(m, act, now, b);
    }
  }

  ghost predicate DeskRun(d: Desk, events: seq<DeskEvent>)
    requires DeskInv(d)
    decreases |events|
  {
    events != [] ==>
      && DeskEnabled(d, events[0])
      && (DeskStepKeeps(d, events[0]); DeskRun(DeskNext(d, events[0]), events[1..]))
  }

  ghost function DeskAfter(d: Desk, events: seq<DeskEvent>): Desk
    requires DeskInv(d) && DeskRun(d, events)
    decreases |events|
  {
    if events == [] then d
    else
      DeskStepKeeps(d, events[0]);
      DeskAfter(DeskNext(d, events[0]), events[1..])
  }

  lemma {:induction false} DeskRunKeeps(d: Desk, events: seq<DeskEvent>)
    requires DeskInv(d) && DeskRun(d, events)
    ensures DeskInv(DeskAfter(d, events)) && d.answered <= DeskAfter(d, events).answered
    decreases |events|
  {
    if events != [] {
      DeskStepKeeps(d, events[0]);
      DeskRunKeeps(DeskNext(d, events[0]), events[1..]);
    }
  }

  ghost predicate DeskInitial(d: Desk) {
    MasterInitial(d.round) && d.joiner.isMaster && d.joiner.ip == d.round.ip && d.joiner.subs == [] && d.answered == {}
  }

  lemma InitiallyDeskInv(d: Desk)
    requires DeskInitial(d)
    ensures DeskInv(d)
  {
    InitiallyMasterInv(d.round);
  }

  /**
   * Nobody who was answered is dropped again: in every reachable state whatever TB is pending lists
   * every outsider that the master has ever answered.
   */
  lemma AnsweredStayListed(start: Desk, events: seq<DeskEvent>, x: Ip)
    requires DeskInitial(start) && DeskInv(start) && DeskRun(start, events)
    requires x in DeskAfter(start, events).answered
    ensures var d := DeskAfter(start, events);
      TB in d.round.rt.msg ==> Readable(d.round.rt.msg[TB]) && x in Ips(d.round.rt.msg[TB])
  {
    DeskRunKeeps(start, events);
    var d := DeskAfter(start, events);
    if TB in d.round.rt.msg {
      assert x in d.round.listed;
      assert Ips(d.round.rt.msg[TB]) == [d.round.ip] + d.round.listed;
    }
  }
}
