/** `Self.Rt` as the object that the threads share: buffers are updated in place. */
module Retransmitter {
  import opened Bytes
  import opened TbFormat
  import opened Node
  import opened Retransmission
  import opened TbRound

  /** Only the TB is written to after it has been handed over; the other messages are kept by value. */
  class RetransmitterObject {
    const self: NodeObject
    var bits: byte
    var time: PerKind
    var amm: PerKind
    var tb: array?<byte>             // TB_ret_msg
    var others: map<Kind, seq<byte>> // the other message pointers that are not NULL

    ghost function Buffer(): set<object>
      reads this
    {
      if tb == null then {} else {tb}
    }

    ghost function Messages(): map<Kind, seq<byte>>
      reads this, Buffer()
    {
      if tb == null then others else others[TB := tb[..]]
    }

    ghost function State(): Rt
      reads this, self, Buffer()
    {
      Rt(bits, time, amm, Messages(), self.status)
    }

    ghost predicate Valid()
      reads this
    {
      TB !in others
    }

    constructor (self: NodeObject)
      ensures this.self == self && Valid() && tb == null
      ensures State() == Rt(0, PerKind(0, 0, 0, 0, 0), PerKind(0, 0, 0, 0, 0), map[], self.status)
    {
      this.self := self;
      bits, time, amm, tb, others := 0, PerKind(0, 0, 0, 0, 0), PerKind(0, 0, 0, 0, 0), null, map[];
    }

    /** `TB_ret_msg` takes the buffer over; it arms any kind. */
    method StartRetransmission(k: Kind, buf: array<byte>, act: nat, timeout: nat)
      requires Valid()
      modifies this
      ensures Valid() && State() == Start(old(State()), k, old(buf[..]), act, timeout)
      ensures tb == if k == TB then buf else old(tb)
      ensures others == if k == TB then old(others) else old(others)[k := old(buf[..])]
    {
      bits := WithBit(bits, BitOf(k));
      time := time.With(k, act + timeout);
      if k == TB {
        tb := buf;
      } else {
        others := others[k := buf[..]];
      }
      amm := amm.With(k, 0);
      assert Messages() == old(Messages())[k := old(buf[..])];
    }

    method StopRetransmission(k: Kind)
      requires Valid()
      modifies this
      ensures Valid() && State() == Stop(old(State()), k)
      ensures tb == if k == TB then null else old(tb)
      ensures others == if k == TB then old(others) else old(others) - {k}
    {
      bits := Cleared(bits, BitOf(k));
      if k == TB {
        tb := null;
      } else {
        others := others - {k};
      }
      assert Messages() == old(Messages()) - {k};
    }

    /** A TB is queued as a copy of the buffer; then its PBID goes up in place. */
    method FireTb(timeout: nat) returns (queued: seq<byte>)
      requires Valid() && tb != null && tb.Length >= TB_HEADER
      modifies this`amm, this`time, tb
      ensures queued == old(tb[..]) && State() == Fired(old(State()), TB, timeout)
    {
      queued := tb[..];
      amm := amm.With(TB, (amm.At(TB) + 1) % 256);
      var pbid := ShortAt(tb[..], 3) + 1;
      tb[3], tb[4] := Lo(pbid), Hi(pbid);
      time := time.With(TB, time.At(TB) + timeout);
      assert tb[..] == WithNextPbid(old(tb[..]));
    }

    method FireOther(k: Kind, timeout: nat) returns (queued: seq<byte>)
      requires Valid() && k != TB && k in others
      modifies this, self`status
      ensures Valid() && tb == old(tb)
      ensures queued == old(others[k]) && State() == Fired(old(State()), k, timeout)
    {
      queued := others[k];
      amm := amm.With(k, (amm.At(k) + 1) % 256);
      time := time.With(k, time.At(k) + timeout);
      if k == NE && amm.At(NE) == RETRANSMISSION_ATTEMPTS_NE {
        StopRetransmission(NE);
        self.status := Outside;
      }
    }

    /** One kind's turn in a pass of `retransmit`. */
    method ServeKind(k: Kind, act: nat, timeout: nat, earliest: nat, queued: seq<seq<byte>>)
      returns (sooner: nat, all: seq<seq<byte>>)
      requires Valid() && Consistent(State())
      modifies this, self`status, Buffer()
      ensures Valid() && tb == old(tb)
      ensures State() == Serve(old(State()), k, act, timeout)
      ensures sooner == Sooner(old(State()), k, act, earliest)
      ensures all == queued + QueuedOf(old(State()), k, act)
    {
      sooner, all := earliest, queued;
      ghost var s := State();
      if Bit(bits, BitOf(k)) {
        assert Armed(s, k) && k in s.msg;
        if act > time.At(k) {
          var message;
          if k == TB {
            message := FireTb(timeout);
          } else {
            message := FireOther(k, timeout);
          }
          assert message == s.msg[k];
          all := queued + [message];
        } else if time.At(k) < earliest {
          sooner := time.At(k);
        }
      } else {
        assert !Armed(s, k);
      }
    }

    /** The turn of the next kind in a pass that began in state `s`. */
    method TakeTurn(k: Kind, act: nat, draw: PerKind, e: nat, queued: seq<seq<byte>>,
                    ghost s: Rt, ghost rest: seq<Kind>, ghost end: Rt, ghost earliest: nat,
                    ghost messages: seq<seq<byte>>)
      returns (sooner: nat, all: seq<seq<byte>>)
      requires Valid() && Midway(s, State(), [k] + rest, act, draw, e, queued, end, earliest, messages)
      modifies this, self`status, Buffer()
      ensures Valid() && tb == old(tb)
      ensures Midway(s, State(), rest, act, draw, sooner, all, end, earliest, messages)
    {
      TurnTaken(s, State(), [k] + rest, act, draw, e, queued, end, earliest, messages);
      assert ([k] + rest)[1..] == rest;
      sooner, all := ServeKind(k, act, draw.At(k), e, queued);
    }

    method TakeTwoTurns(k: Kind, l: Kind, act: nat, draw: PerKind, e: nat, queued: seq<seq<byte>>,
                        ghost s: Rt, ghost rest: seq<Kind>, ghost end: Rt, ghost earliest: nat,
                    ghost messages: seq<seq<byte>>)
      returns (sooner: nat, all: seq<seq<byte>>)
      requires Valid() && Midway(s, State(), [k] + ([l] + rest), act, draw, e, queued, end, earliest, messages)
      modifies this, self`status, Buffer()
      ensures Valid() && tb == old(tb)
      ensures Midway(s, State(), rest, act, draw, sooner, all, end, earliest, messages)
    {
      sooner, all := TakeTurn(k, act, draw, e, queued, s, [l] + rest, end, earliest, messages);
      sooner, all := TakeTurn(l, act, draw, sooner, all, s, rest, end, earliest, messages);
    }

    /** One pass of `retransmit`: `sleep` is the argument of `usleep`, `queued` what went to the outbound queue. */
    method RetransmitPass(act: nat, draw: PerKind) returns (sleep: nat, queued: seq<seq<byte>>)
      requires Valid() && Consistent(State())
      modifies this, self`status, Buffer()
      ensures Valid() && State() == Pass(old(State()), act, draw)
      ensures act <= Earliest(old(State()), act) && sleep == Sleep(act, Earliest(old(State()), act))
      ensures queued == Queued(old(State()), act)
    {
      ghost var s, end, last, all := State(), Pass(State(), act, draw), Earliest(State(), act), Queued(State(), act);
      EarliestBounds(s, act);
      PassBegins(s, act, draw);
      ghost var late: seq<Kind> := [NER];
      var e := act + DEFAULT_RETRANSMIT_CHECK;
      queued := [];
      e, queued := TakeTwoTurns(PB, TB, act, draw, e, queued, s, [PR] + ([NE] + late), end, last, all);
      e, queued := TakeTwoTurns(PR, NE, act, draw, e, queued, s, late, end, last, all);
      e, queued := TakeTurn(NER, act, draw, e, queued, s, [], end, last, all);
      PassEnds(s, State(), act, draw, e, queued, end, last, all);
      sleep := Sleep(act, e);
    }

    /**
     * `beginTBTransmission` at clock reading `act`; `generateTB` reads the clock again at `now`.
     * The counter of TB transmissions is looked at, but never reset.
     */
    method BeginTbTransmission(act: nat, now: nat) returns (ok: bool)
      requires Valid() && now < U64
      modifies this, self
      ensures Valid()
      ensures ok == Begin(old(State()), act, []).ok
      ensures ok ==>
        && tb != null && Generated(tb[..], self.ip, now, old(self.subs))
        && State() == Begin(old(State()), act, tb[..]).rt
        && self.State() == old(self.State()).(newTimeTable := Offer(tb[..], 0), tbPbid := Wrap16(old(self.tbPbid) + 1))
      ensures !ok ==> State() == old(State()) && self.State() == old(self.State())
      ensures others == old(others) && (!ok ==> tb == old(tb))
    {
      var running := Bit(bits, BitOf(TB));
      if running && amm.At(TB) != 0 {
        return false;
      }
      if !running {
        time := time.With(TB, act + TB_GENERATION_DELAY);
        bits := WithBit(bits, BitOf(TB));
      }
      tb := self.GenerateTb(now);
      assert Messages() == old(Messages())[TB := tb[..]];
      return true;
    }

    /** The completion scan of `TA_RX`: `stray` is the byte behind the buffer. */
    method ScanBitmap(buf: array<byte>, stray: byte) returns (clear: bool)
      requires Readable(buf[..]) && Count(buf[..]) > 0
      ensures clear == ScanClear(buf[..], stray)
    {
      var n := Count(buf[..]);
      var base := TB_HEADER + 2 * n;
      var i := 0;
      while i < 1 + n / 8
        invariant 0 <= i <= 1 + n / 8
        invariant forall k | 0 <= k < i :: ScannedByte(buf[..], k, stray) == 0
      {
        var scanned := if base + i < buf.Length then buf[base + i] else stray;
        assert scanned == ScannedByte(buf[..], i, stray);
        if scanned != 0 {
          return false;
        }
        i := i + 1;
      }
      return true;
    }

    /** `TA_RX` at the master. */
    method TaRxAtMaster(sender: Ip, originator: Ip, stray: byte)
      requires Valid() && (tb != null ==> Readable(tb[..]) && Count(tb[..]) > 0)
      modifies this, Buffer()
      ensures Valid()
      ensures State() == TaReceived(old(State()), self.ip, sender, originator, stray)
    {
      if sender == self.ip || tb == null {
        return;
      }
      ClearBitmapValue(tb, originator);
      ClearingIsExact(old(tb[..]), originator);
      assert Messages() == old(Messages())[TB := tb[..]];
      var clear := ScanBitmap(tb, stray);
      if clear {
        StopRetransmission(TB);
      }
    }
  }
}
