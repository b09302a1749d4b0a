/** The four join handlers as they update `Self`: its lists, its retransmissions and its routing table. */
module JoinHandlers {
  import opened Bytes
  import opened Node
  import opened IpList
  import opened Retransmission
  import opened Retransmitter
  import opened Routes
  import opened Join
  import RoutingTable
  import TbFormat
  import TbRound

  /** How a handler ends: it returns, follows a null pointer, or is replaced by a restart. */
  datatype Ending = Returned | Crashed | Restarted

  function EndingOf(o: Outcome): Ending {
    match o
    case Done(_, _) => Returned
    case NullPointer => Crashed
    case Restarting => Restarted
  }

  const NER_TYPE := 9

  /** `buildNERMessage`. */
  function NerBytes(nextHop: Ip, outsider: Ip): seq<byte> {
    [16 * TbFormat.PROTOCOL_VERSION + NER_TYPE, nextHop.b0, nextHop.b1, outsider.b0, outsider.b1]
  }

  /** What every reader of an NER finds in it. */
  function NerOf(b: seq<byte>): Packet
    requires |b| == 5
  {
    Ner(Ip(b[1], b[2]), Ip(b[3], b[4]))
  }

  lemma NerRoundTrip(nextHop: Ip, outsider: Ip)
    ensures NerOf(NerBytes(nextHop, outsider)) == Ner(nextHop, outsider)
  {
  }

  class JoinerObject {
    const rt: RetransmitterObject
    const table: RoutingTable.Table
    var outside: seq<Ip>
    var pending: seq<Ip>

    ghost predicate Valid()
      reads this, rt, table, table.cells
    {
      rt.Valid() && table.Valid() && (NER in rt.others ==> |rt.others[NER]| == 5)
    }

    ghost function State(): Joiner
      requires NER in rt.others ==> |rt.others[NER]| == 5
      reads this, rt, rt.self
    {
      Joiner(rt.self.ip, rt.self.isMaster, rt.self.status, rt.self.subs, outside, pending,
             NE in rt.others, if NER in rt.others then Some(NerOf(rt.others[NER])) else None)
    }

    constructor (rt: RetransmitterObject, table: RoutingTable.Table)
      requires rt.Valid() && table.Valid() && rt.others == map[]
      ensures Valid() && this.rt == rt && this.table == table
      ensures State() == Joiner(rt.self.ip, rt.self.isMaster, rt.self.status, rt.self.subs, [], [], false, None)
    {
      this.rt, this.table, outside, pending := rt, table, [], [];
    }

    /** Builds the NER, sends it, and keeps it for retransmission if this node is the proxy. */
    method SendNer(next: Ip, outsider: Ip, proxy: bool, act: nat, timeout: nat)
      requires Valid()
      modifies rt
      ensures Valid()
      ensures State() == if proxy then old(State()).(ner := Some(Ner(next, outsider))) else old(State())
      ensures rt.tb == old(rt.tb)
    {
      if proxy {
        var bytes := NerBytes(next, outsider);
        var buf := new byte[5](i requires 0 <= i < 5 => bytes[i]);
        assert buf[..] == bytes;
        rt.StartRetransmission(NER, buf, act, timeout);
        assert rt.others == old(rt.others)[NER := bytes];
        NerRoundTrip(next, outsider);
      }
    }

    /** `getBestHop`, then the NER to the next hop; stale neighbours are gone afterwards. */
    method PassNerUp(outsider: Ip, proxy: bool, act: nat, timeout: nat) returns (sent: seq<Packet>, end: Ending)
      requires Valid()
      modifies this, rt, table, table.cells
      ensures Valid() && table.entries == Pruned(old(table.entries), act)
      ensures var o := PassUp(old(State()), outsider, BestHop(old(table.entries), act), proxy);
        end == EndingOf(o) && (o.Done? ==> o == Done(State(), sent))
    {
      var hop := table.GetBestHop(act);
      sent := [];
      match hop {
        case NoHop => end := Crashed;
        case Restart => end := Restarted;
        case Via(next) =>
          end := Returned;
          sent := (if proxy then [Nep(rt.self.ip, outsider)] else []) + [Ner(next, outsider)];
          SendNer(next, outsider, proxy, act, timeout);
      }
    }

    /** The pending TB lists exactly this node and its sub-slaves, and offers this node slot 0. */
    ghost predicate Announces(now: nat)
      reads this, rt, rt.self, rt.tb
    {
      && rt.tb != null && TbFormat.Generated(rt.tb[..], rt.self.ip, now, rt.self.subs)
      && rt.self.newTimeTable == TbFormat.Offer(rt.tb[..], 0)
    }

    /** The master takes the outsider in and starts or remakes a TB, if it may. */
    method TakeIn(outsider: Ip, act: nat, now: nat) returns (ok: bool)
      requires Valid() && now < U64
      modifies rt, rt.self
      ensures Valid() && ok == TbRound.Begin(old(rt.State()), act, []).ok
      ensures State() == old(State()).(subs := Listed(old(rt.self.subs), outsider))
      ensures ok ==> Announces(now) && outsider in rt.self.subs
    {
      rt.self.subs := Listed(rt.self.subs, outsider);
      ok := rt.BeginTbTransmission(act, now);
    }

    /** `act` is the clock reading of `beginTBTransmission` or of `getBestHop`, `now` that of `generateTB`. */
    method NeRx(outsider: Ip, proxy: Ip, act: nat, now: nat, timeout: nat) returns (sent: seq<Packet>, end: Ending)
      requires Valid() && now < U64
      modifies this, rt, rt.self, table, table.cells
      ensures Valid()
      ensures var begun := TbRound.Begin(old(rt.State()), act, []).ok;
        var o := Hear(old(State()), Ne(outsider, proxy), BestHop(old(table.entries), act), begun);
        end == EndingOf(o) && (o.Done? ==> o == Done(State(), sent))
      ensures rt.self.isMaster && sent != [] ==> Announces(now) && outsider in rt.self.subs
    {
      sent, end := [], Returned;
      if outsider == rt.self.ip {
        return;
      }
      if proxy == rt.self.ip {
        if rt.self.isMaster {
          var ok := TakeIn(outsider, act, now);
          if ok {
            sent := [Nep(rt.self.ip, outsider)];
          }
        } else {
          rt.self.subs := Listed(rt.self.subs, outsider);
          outside := Listed(outside, outsider);
          sent, end := PassNerUp(outsider, true, act, timeout);
        }
      }
    }

    method NepRx(proxy: Ip, outsider: Ip)
      requires Valid()
      modifies rt, rt.self
      ensures Valid()
      ensures Hear(old(State()), Nep(proxy, outsider), NoHop, false) == Done(State(), [])
    {
      if proxy != rt.self.ip && outsider == rt.self.ip {
        rt.StopRetransmission(NE);
        rt.self.status := Waiting;
      }
    }

    method NerRx(nextHop: Ip, outsider: Ip, act: nat, now: nat, timeout: nat) returns (sent: seq<Packet>, end: Ending)
      requires Valid() && now < U64
      modifies this, rt, rt.self, table, table.cells
      ensures Valid()
      ensures var begun := TbRound.Begin(old(rt.State()), act, []).ok;
        var o := Hear(old(State()), Ner(nextHop, outsider), BestHop(old(table.entries), act), begun);
        end == EndingOf(o) && (o.Done? ==> o == Done(State(), sent))
      ensures rt.self.isMaster && sent != [] ==> Announces(now) && outsider in rt.self.subs
    {
      sent, end := [], Returned;
      if outsider == rt.self.ip {
        return;
      }
      if nextHop == rt.self.ip {
        pending := Listed(pending, outsider);
        if rt.self.isMaster {
          var ok := TakeIn(outsider, act, now);
          if ok {
            sent := [Nea(outsider)];
          }
        } else {
          rt.self.subs := Listed(rt.self.subs, outsider);
          sent, end := PassNerUp(outsider, false, act, timeout);
        }
      }
    }

    method NeaRx(outsider: Ip) returns (sent: seq<Packet>)
      requires Valid()
      modifies this, rt
      ensures Valid()
      ensures Hear(old(State()), Nea(outsider), NoHop, false) == Done(State(), sent)
    {
      sent := [];
      if outsider in outside {
        rt.StopRetransmission(NER);
      } else if outsider in pending {
        pending := Delisted(pending, outsider);
        sent := [Nea(outsider)];
      }
    }
  }
}
