/** One node: what it does with a received TB or TA, and one pass of its transmitting thread. */
module Node {
  import opened Bytes
  import opened TbFormat
  import opened Dispatcher

  datatype Status = Outside | Waiting | Inside | NA

  datatype Message =
    | Ta(originator: Ip, pbid: int)
    | Tb(bytes: seq<byte>)

  /**
   * The part of `Self` that the timetable protocol reads and writes. `subs` is the content of
   * SubSlaves in list order, `taSeen` the content of PBID_IP_TA, `previous` the static copy of
   * the last timetable (None before the first).
   */
  datatype NodeState = NodeState(
    ip: Ip, isMaster: bool, status: Status, timeTable: TimeTable, newTimeTable: TimeTable,
    tbPbid: int, previous: Option<seq<byte>>, subs: seq<Ip>, taSeen: map<Ip, int>)

  datatype Reaction = Reaction(state: NodeState, sent: seq<Message>)

  /** The bytes by which `TB_RX` tells one timetable from another: slot size, count and addresses, but not the stamp. */
  function Signature(b: seq<byte>): seq<byte>
    requires Readable(b)
  {
    b[15..TB_HEADER + 2 * |Ips(b)|]
  }

  /** The node at `place` sees its own bit set; the position passes through a `byte` on the way. */
  predicate AsksForTa(b: seq<byte>, place: nat)
    requires Readable(b) && place < |Ips(b)|
  {
    Owes(b, |Ips(b)|, place % 256)
  }

  /** Some node in the list still owes a TA. */
  predicate SomeSubOwes(subs: seq<Ip>, b: seq<byte>)
    requires Readable(b)
  {
    subs != [] && (OwesTa(b, subs[|subs| - 1]) || SomeSubOwes(subs[..|subs| - 1], b))
  }

  lemma {:induction false} SomeSubOwesMeans(subs: seq<Ip>, b: seq<byte>)
    requires Readable(b)
    ensures SomeSubOwes(subs, b) <==> exists ip | ip in subs :: OwesTa(b, ip)
  {
    if subs != [] {
      var last := |subs| - 1;
      SomeSubOwesMeans(subs[..last], b);
      assert subs == subs[..last] + [subs[last]];
    }
  }

  function Bumped(s: NodeState, b: seq<byte>, place: nat): int
    requires Readable(b) && place < |Ips(b)|
  {
    if AsksForTa(b, place) then Wrap16(s.tbPbid + 1) else s.tbPbid
  }

  predicate IsNew(s: NodeState, b: seq<byte>)
    requires Readable(b)
  {
    s.previous != Some(Signature(b))
  }

  predicate Relays(s: NodeState, b: seq<byte>, place: nat)
    requires Readable(b) && place < |Ips(b)|
  {
    SomeSubOwes(s.subs, b) && (Pbid(b) > Bumped(s, b, place) || (Pbid(b) == 0 && IsNew(s, b)))
  }

  /** `TB_RX` from the point where the own address has been found at `place`. */
  function Taken(s: NodeState, b: seq<byte>, place: nat): Reaction
    requires Readable(b) && place < |Ips(b)|
  {
    Reaction(
      s.(status := Inside,
         newTimeTable := Offer(b, place),
         tbPbid := if Relays(s, b, place) then Pbid(b) else Bumped(s, b, place),
         previous := Some(Signature(b)),
         taSeen := if IsNew(s, b) then map[] else s.taSeen),
      (if AsksForTa(b, place) then [Ta(s.ip, s.tbPbid)] else []) +
      (if Relays(s, b, place) then [Tb(Stamped(b, s.ip))] else []))
  }

  /** The pending timetable has no say in it. */
  lemma TakenOverwrites(s: NodeState, tt: TimeTable, b: seq<byte>, place: nat)
    requires Readable(b) && place < |Ips(b)|
    ensures Taken(s.(newTimeTable := tt), b, place) == Taken(s, b, place)
  {
  }

  /** `TB_RX`. */
  function ReceiveTb(s: NodeState, b: seq<byte>): Reaction
    requires Readable(b)
  {
    if Sender(b) == s.ip || s.isMaster then
      Reaction(s, [])
    else if s.ip !in Ips(b) then
      Reaction(s.(status := Outside, newTimeTable := s.newTimeTable.(localSlot := NO_SLOT)), [])
    else
      Taken(s, b, First(Ips(b), s.ip))
  }

  /** What hearing a TB may do to a node's timetables. */
  ghost predicate TableEffect(s: NodeState, b: seq<byte>, t: NodeState)
    requires Readable(b)
  {
    && t.ip == s.ip && t.isMaster == s.isMaster && t.timeTable == s.timeTable
    && (|| t.newTimeTable == s.newTimeTable
        || (s.ip in Ips(b) && t.newTimeTable == Offer(b, First(Ips(b), s.ip)))
        || (s.ip !in Ips(b) && t.newTimeTable == s.newTimeTable.(localSlot := NO_SLOT)))
  }

  lemma HearingEffect(s: NodeState, b: seq<byte>)
    requires Readable(b)
    ensures TableEffect(s, b, ReceiveTb(s, b).state)
    ensures forall m | m in ReceiveTb(s, b).sent && m.Tb? :: m.bytes == Stamped(b, s.ip)
  {
  }

  /** `TA_RX` at a slave, for a TA that another node sent. */
  predicate ForwardsTa(s: NodeState, originator: Ip, pbid: int) {
    originator in s.subs && (originator in s.taSeen ==> s.taSeen[originator] < pbid)
  }

  function ReceiveTaAtSlave(s: NodeState, sender: Ip, originator: Ip, pbid: int): Reaction {
    if sender == s.ip then Reaction(s, [])
    else if ForwardsTa(s, originator, pbid) then
      Reaction(s.(taSeen := s.taSeen[originator := pbid]), [Ta(originator, pbid)])
    else Reaction(s, [])
  }

  /** `checkNewTimeTable`, when it gets the lock. */
  function Install(s: NodeState, act: nat): NodeState {
    if s.newTimeTable.sync != 0 && s.newTimeTable.sync < act then
      s.(timeTable := s.newTimeTable, newTimeTable := s.newTimeTable.(sync := 0))
    else s
  }

  /** `Self`, updated in place. */
  class NodeObject {
    const ip: Ip
    const isMaster: bool
    var status: Status
    var timeTable: TimeTable
    var newTimeTable: TimeTable
    var tbPbid: int
    var previous: Option<seq<byte>>
    var subs: seq<Ip>
    var taSeen: map<Ip, int>
    var toSend: Option<seq<byte>>

    function State(): NodeState
      reads this
    {
      NodeState(ip, isMaster, status, timeTable, newTimeTable, tbPbid, previous, subs, taSeen)
    }

    /** A node before it has heard anything; the master's PBID starts one ahead of the slaves'. */
    constructor (ip: Ip, isMaster: bool)
      ensures State() == Fresh(ip, isMaster) && toSend == None
    {
      this.ip, this.isMaster := ip, isMaster;
      status := if isMaster then NA else Outside;
      tbPbid := if isMaster then 1 else 0;
      timeTable, newTimeTable := TimeTable(0, 0, 0, 0), TimeTable(0, 0, 0, 0);
      previous, subs, taSeen, toSend := None, [], map[], None;
    }

    /** `generateTB`: builds the TB and takes slot 0 of it as this node's own next timetable. */
    method GenerateTb(now: nat) returns (b: array<byte>)
      requires now < U64
      modifies this
      ensures fresh(b) && Generated(b[..], ip, now, subs)
      ensures State() == old(State()).(newTimeTable := Offer(b[..], 0), tbPbid := Wrap16(old(tbPbid) + 1))
      ensures toSend == old(toSend)
    {
      b := BuildTb(ip, now, subs);
      tbPbid := Wrap16(tbPbid + 1);
      newTimeTable := Offer(b[..], 0);
    }

    method AnySubOwes(buf: array<byte>) returns (retransmit: bool)
      requires Readable(buf[..])
      ensures retransmit == SomeSubOwes(subs, buf[..])
    {
      retransmit := false;
      ghost var b := buf[..];
      for i := 0 to |subs|
        invariant retransmit == SomeSubOwes(subs[..i], b)
      {
        var owes := GetBitmapValue(buf, subs[i]);
        assert subs[..i + 1][..i] == subs[..i];
        retransmit := retransmit || owes;
      }
      assert subs[..|subs|] == subs;
    }

    /** The relay decision at the end of `TB_RX`: re-stamp the message with the own address and send it on. */
    method RelayTb(buf: array<byte>, isNew: bool, sent: seq<Message>) returns (all: seq<Message>)
      requires Readable(buf[..])
      modifies this`tbPbid, buf
      ensures var b := old(buf[..]);
        if SomeSubOwes(subs, b) && (Pbid(b) > old(tbPbid) || (Pbid(b) == 0 && isNew)) then
          tbPbid == Pbid(b) && buf[..] == Stamped(b, ip) && all == sent + [Tb(buf[..])]
        else tbPbid == old(tbPbid) && buf[..] == b && all == sent
    {
      all := sent;
      var retransmit := AnySubOwes(buf);
      var pbid := Pbid(buf[..]);
      if retransmit && (pbid > tbPbid || (pbid == 0 && isNew)) {
        tbPbid := pbid;
        buf[1], buf[2] := ip.b0, ip.b1;
        all := sent + [Tb(buf[..])];
      }
    }

    /** The rest of `TB_RX`, once the own address has been found at `place`. */
    method TakeTb(buf: array<byte>, place: nat) returns (sent: seq<Message>)
      requires Readable(buf[..]) && place < |Ips(buf[..])|
      modifies this, buf
      ensures State() == Taken(old(State()), old(buf[..]), place).state
      ensures sent == Taken(old(State()), old(buf[..]), place).sent
      ensures toSend == old(toSend)
    {
      ghost var s := State();
      ghost var b := buf[..];
      newTimeTable := Offer(buf[..], place);
      sent := [];
      var sendTa := AsksForTa(buf[..], place);
      var isNew := IsNew(State(), buf[..]);
      if sendTa {
        sent := [Ta(ip, tbPbid)];
        tbPbid := Wrap16(tbPbid + 1);
      }
      assert tbPbid == Bumped(s, b, place);
      if isNew {
        taSeen := map[];
        previous := Some(Signature(buf[..]));
      }
      sent := RelayTb(buf, isNew, sent);
      status := Inside;
    }

    method TbRx(buf: array<byte>) returns (sent: seq<Message>)
      requires Readable(buf[..])
      modifies this, buf
      ensures State() == ReceiveTb(old(State()), old(buf[..])).state
      ensures sent == ReceiveTb(old(State()), old(buf[..])).sent
      ensures toSend == old(toSend)
    {
      sent := [];
      if Ip(buf[1], buf[2]) == ip || isMaster {
        return;
      }
      newTimeTable := newTimeTable.(localSlot := NO_SLOT);
      var place := FindPlace(buf, ip);
      if place == -1 {
        status := Outside;
        return;
      }
      TakenOverwrites(old(State()), newTimeTable, buf[..], place);
      sent := TakeTb(buf, place);
    }

    method TaRxAtSlave(sender: Ip, originator: Ip, pbid: int) returns (sent: seq<Message>)
      modifies this
      ensures State() == ReceiveTaAtSlave(old(State()), sender, originator, pbid).state
      ensures sent == ReceiveTaAtSlave(old(State()), sender, originator, pbid).sent
      ensures toSend == old(toSend)
    {
      sent := [];
      if sender == ip {
        return;
      }
      var existing := if originator in taSeen then Some(taSeen[originator]) else None;
      if originator in subs && (existing == None || existing.value < pbid) {
        sent := [Ta(originator, pbid)];
        taSeen := taSeen - {originator};
        taSeen := taSeen[originator := pbid];
      }
    }

    method CheckNewTimeTable(act: nat)
      modifies this
      ensures State() == Install(old(State()), act) && toSend == old(toSend)
    {
      if newTimeTable.sync != 0 && newTimeTable.sync < act {
        timeTable := newTimeTable;
        newTimeTable := newTimeTable.(sync := 0);
      }
    }

    /**
     * One pass of `WF_dispatcher`: `popped` is what the outbound queue yields if nothing is left
     * over, `busy` says that `checkNewTimeTable` finds the lock taken.
     */
    method Dispatch(popped: seq<byte>, act: nat, busy: bool) returns (d: Decision, sent: Option<seq<byte>>)
      modifies this
      ensures State() == if busy then old(State()) else Install(old(State()), act)
      ensures d == Decide(timeTable, act)
      ensures var message := if old(toSend).Some? then old(toSend) else Some(popped);
        if d.Blind? || d.Transmit? then sent == message && toSend == None else sent == None && toSend == message
    {
      if toSend == None {
        toSend := Some(popped);
      }
      if !busy {
        CheckNewTimeTable(act);
      }
      sent := None;
      if timeTable.sync == 0 {
        d, sent, toSend := Blind, toSend, None;
        return;
      }
      if timeTable.tableSize == 0 {
        d := DivideByZero;
        return;
      }
      var slot := SlotStart(timeTable);
      if act < timeTable.sync || act < slot {
        d := SleepFirst(Microseconds(if act < timeTable.sync then timeTable.sync - act else slot - act));
      } else if InSlot(timeTable, act) {
        d, sent, toSend := Transmit, toSend, None;
      } else {
        d := SleepNext(Microseconds(Wrap64(NextStart(timeTable, act) - act)));
      }
    }
  }

  function Fresh(ip: Ip, isMaster: bool): NodeState {
    NodeState(ip, isMaster, if isMaster then NA else Outside, TimeTable(0, 0, 0, 0), TimeTable(0, 0, 0, 0),
              if isMaster then 1 else 0, None, [], map[])
  }
}
