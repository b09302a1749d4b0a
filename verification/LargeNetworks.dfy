/** More than 256 nodes: the position of a node passes through a byte before it looks for its bit. */
module LargeNetworks {
  import opened Bytes
  import opened TbFormat
  import opened Node
  import opened Flooding
  import opened Retransmission
  import opened TbRound

  /** Bit `q` of the bitmap. */
  predicate OwesAt(b: seq<byte>, q: nat)
    requires Readable(b) && q < |Ips(b)|
  {
    Owes(b, |Ips(b)|, q)
  }

  lemma LowByte(place: nat, q: nat)
    requires q == place % 256
    ensures q <= place
  {
  }

  lemma LooksAt(s: NodeState, b: seq<byte>, place: nat, q: nat)
    requires Readable(b) && TakesPart(s, b) && First(Ips(b), s.ip) == place < |Ips(b)|
    requires q < |Ips(b)| && q == place % 256
    ensures AnswersTb(s, b) <==> OwesAt(b, q)
  {
    assert AnswersTb(s, b) <==> AsksForTa(b, place);
  }

  /** The pending TB lists the slaves behind the master, each once. */
  ghost predicate Pending(m: Master, b: seq<byte>) {
    GoodPending(m, b) && m.ip !in m.listed && Distinct(m.listed)
  }

  lemma PlaceInList(m: Master, b: seq<byte>, place: nat)
    requires Pending(m, b) && 0 < place <= |m.listed|
    ensures |Ips(b)| == |m.listed| + 1 && First(Ips(b), m.listed[place - 1]) == place
  {
    DistinctList(m);
    assert ListOf(m)[place] == m.listed[place - 1];
    FirstOfDistinct(ListOf(m), place);
  }

  lemma BitIs(m: Master, b: seq<byte>, q: nat)
    requires Pending(m, b) && q <= |m.listed|
    ensures |Ips(b)| == |m.listed| + 1
    ensures OwesAt(b, q) <==> q != 0 && m.listed[q - 1] !in m.acked
  {
    DistinctList(m);
    FirstOfDistinct(ListOf(m), q);
  }

  lemma AnswersPending(m: Master, b: seq<byte>, s: NodeState, place: nat, q: nat)
    requires Pending(m, b) && TakesPart(s, b) && 0 < place <= |m.listed| && m.listed[place - 1] == s.ip
    requires q == place % 256
    ensures q <= |m.listed| && (AnswersTb(s, b) <==> q != 0 && m.listed[q - 1] !in m.acked)
  {
    LowByte(place, q);
    PlaceInList(m, b, place);
    LooksAt(s, b, place, q);
    BitIs(m, b, q);
  }

  /**
   * Whose bit a node looks at: in every reachable state of the master, a slave at position `place`
   * answers the pending TB if and only if the slave at position `place` modulo 256 has not been
   * acknowledged, and at a multiple of 256 never. Up to 256 nodes that is itself.
   */
  lemma AnswersForPlace(m: Master, b: seq<byte>, s: NodeState, place: nat, q: nat)
    requires Reached(m) && TB in m.rt.msg && b == m.rt.msg[TB] && m.ip !in m.listed
    requires Readable(b) && TakesPart(s, b) && 0 < place <= |m.listed| && m.listed[place - 1] == s.ip
    requires q == place % 256
    ensures q <= |m.listed| && (AnswersTb(s, b) <==> q != 0 && m.listed[q - 1] !in m.acked)
  {
    ReachedIsGood(m);
    AnswersPending(m, b, s, place, q);
  }

  // ---------------------------------------------------------------- the node at position 256

  /** What the node `ip` hears of the round: TBs that list it at position 256, in which the master owes nothing. */
  ghost predicate HeardAt256(ip: Ip, inputs: seq<Input>) {
    forall k | 0 <= k < |inputs| && inputs[k].HeardTb? :: ListsAt256(ip, inputs[k].bytes)
  }

  ghost predicate ListsAt256(ip: Ip, b: seq<byte>) {
    Readable(b) && First(Ips(b), ip) == 256 && !Owes(b, |Ips(b)|, 0)
  }

  /** In some step of the run the node gives a TA of its own. */
  ghost predicate GivesOwnTa(s: NodeState, inputs: seq<Input>)
    requires AllAcceptable(inputs)
    decreases |inputs|
  {
    inputs != [] &&
      ((exists p :: Ta(s.ip, p) in React(s, inputs[0]).sent) || GivesOwnTa(React(s, inputs[0]).state, inputs[1..]))
  }

  lemma SilentStep(s: NodeState, i: Input)
    requires Acceptable(i) && s.ip !in s.subs && i != Joined(s.ip) && (i.HeardTb? ==> ListsAt256(s.ip, i.bytes))
    ensures forall p :: Ta(s.ip, p) !in React(s, i).sent
    ensures var t := React(s, i).state; t.ip == s.ip && t.ip !in t.subs
  {
    SentExactly(s, i);
    SignatureStep(s, i);
    if i.HeardTb? {
      assert !AnswersTb(s, i.bytes);
    }
  }

  /** It never gives one, over any run in which it does not list itself. */
  lemma {:induction false} SilentAt256(s: NodeState, inputs: seq<Input>)
    requires AllAcceptable(inputs) && HeardAt256(s.ip, inputs) && s.ip !in s.subs && Joined(s.ip) !in inputs
    ensures !GivesOwnTa(s, inputs)
    decreases |inputs|
  {
    if inputs != [] {
      SilentStep(s, inputs[0]);
      SilentAt256(React(s, inputs[0]).state, inputs[1..]);
    }
  }

  // ---------------------------------------------------------------- the round that waits for it

  lemma StillWaits(m: Master, e: MasterEvent, x: Ip)
    requires MasterInv(m) && MasterEnabled(m, e) && TB in m.rt.msg && x in m.listed && x !in m.acked
    requires !e.BeginRound? && !(e.HearTa? && e.originator == x)
    ensures var t := MasterNext(m, e);
      TB in t.rt.msg && t.listed == m.listed && x !in t.acked
  {
    if e.HearTa? {
      var t := m.(acked := m.acked + {e.originator});
      TaIsGood(m, m.rt.msg[TB], e.originator);
      ScanMeans(WithoutTaOf(m.rt.msg[TB], e.originator), e.stray);
      NobodyOwesMeans(t, WithoutTaOf(m.rt.msg[TB], e.originator));
      if AllCleared(t) {
        ClearedMeansAcked(t);
      }
    } else {
      OnlyTasEndRounds(m, e);
    }
  }

  /** Without a TA of a listed node the round goes on for ever, over every run that does not remake it. */
  lemma {:induction false} WaitsForEver(m: Master, events: seq<MasterEvent>, x: Ip)
    requires MasterInv(m) && MasterRun(m, events) && TB in m.rt.msg && x in m.listed && x !in m.acked
    requires forall k | 0 <= k < |events| :: !events[k].BeginRound? && !(events[k].HearTa? && events[k].originator == x)
    ensures TB in MasterAfter(m, events).rt.msg && x !in MasterAfter(m, events).acked
    decreases |events|
  {
    if events != [] {
      StillWaits(m, events[0], x);
      MasterStepKeeps(m, events[0]);
      WaitsForEver(MasterNext(m, events[0]), events[1..], x);
    }
  }
}
