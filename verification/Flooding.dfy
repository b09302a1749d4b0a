/** Flood control: which TBs and TAs a node passes on, over whole runs of one node and of a network. */
module Flooding {
  import opened Bytes
  import IpList
  import opened TbFormat
  import opened Node
  import opened Sequences

  datatype Input =
    | HeardTb(bytes: seq<byte>)
    | HeardTa(sender: Ip, originator: Ip, pbid: int)
    | Joined(ip: Ip)  // insertSubSlave

  ghost predicate Acceptable(i: Input) {
    i.HeardTb? ==> Readable(i.bytes)
  }

  function React(s: NodeState, i: Input): Reaction
    requires Acceptable(i)
  {
    match i
    case HeardTb(b) => ReceiveTb(s, b)
    case HeardTa(sender, originator, pbid) =>
      if s.isMaster then Reaction(s, []) else ReceiveTaAtSlave(s, sender, originator, pbid)
    case Joined(ip) => Reaction(s.(subs := IpList.Listed(s.subs, ip)), [])
  }

  /** The node takes part in the round of `b`: it is a listed slave, and `b` is not its own message. */
  predicate TakesPart(s: NodeState, b: seq<byte>)
    requires Readable(b)
  {
    Sender(b) != s.ip && !s.isMaster && s.ip in Ips(b)
  }

  predicate RelaysTb(s: NodeState, b: seq<byte>)
    requires Readable(b)
  {
    TakesPart(s, b) && Relays(s, b, First(Ips(b), s.ip))
  }

  predicate AnswersTb(s: NodeState, b: seq<byte>)
    requires Readable(b)
  {
    TakesPart(s, b) && AsksForTa(b, First(Ips(b), s.ip))
  }

  predicate RelaysTa(s: NodeState, i: Input) {
    i.HeardTa? && !s.isMaster && i.sender != s.ip && ForwardsTa(s, i.originator, i.pbid)
  }

  /** What a reaction sends is what these predicates say: each message once, and the answer to a TB before its relay. */
  lemma SentExactly(s: NodeState, i: Input)
    requires Acceptable(i)
    ensures |React(s, i).sent|
      == (if RelaysTa(s, i) then 1 else 0)
         + (if i.HeardTb? && AnswersTb(s, i.bytes) then 1 else 0)
         + (if i.HeardTb? && RelaysTb(s, i.bytes) then 1 else 0)
    ensures i.HeardTb? && AnswersTb(s, i.bytes) ==> React(s, i).sent[0] == Ta(s.ip, s.tbPbid)
    ensures forall p: seq<byte> ::
      (Tb(p) in React(s, i).sent <==> i.HeardTb? && RelaysTb(s, i.bytes) && p == Stamped(i.bytes, s.ip))
    ensures forall o, p ::
      (Ta(o, p) in React(s, i).sent
       <==> || (RelaysTa(s, i) && o == i.originator && p == i.pbid)
            || (i.HeardTb? && AnswersTb(s, i.bytes) && o == s.ip && p == s.tbPbid))
  {
  }

  // ---------------------------------------------------------------- the relay rule, exactly

  /**
   * A TB must be ahead by one, or by two if the node still owes its own TA, because answering the
   * TB has already used up the next number; only the first TB of a new timetable is let through.
   */
  lemma RelayRule(s: NodeState, b: seq<byte>, place: nat)
    requires Readable(b) && place < |Ips(b)| && -32768 <= s.tbPbid < 32767
    ensures Relays(s, b, place)
      <==> && SomeSubOwes(s.subs, b)
           && ((IsNew(s, b) && Pbid(b) == 0) || Pbid(b) >= s.tbPbid + (if AsksForTa(b, place) then 2 else 1))
  {
  }

  /** So the very next TB is lost on every slave behind a node that has not been acknowledged itself. */
  lemma NextTbStopsAtUnacknowledgedNode(s: NodeState, b: seq<byte>)
    requires Readable(b) && AnswersTb(s, b) && !IsNew(s, b) && -32768 <= s.tbPbid < 32767
    requires Pbid(b) == s.tbPbid + 1
    ensures !RelaysTb(s, b) && React(s, HeardTb(b)).state.tbPbid == Pbid(b)
  {
    RelayRule(s, b, First(Ips(b), s.ip));
  }

  /** At the end of the `short` range the bump wraps, and every PBID counts as new again. */
  lemma WrapForgets(s: NodeState, b: seq<byte>)
    requires Readable(b) && AnswersTb(s, b) && !IsNew(s, b) && s.tbPbid == 32767
    ensures RelaysTb(s, b) <==> SomeSubOwes(s.subs, b) && Pbid(b) != -32768
  {
  }

  // ---------------------------------------------------------------- one node

  /** Answering does not run over the end of the `short` range. */
  predicate NoWrap(s: NodeState, i: Input)
    requires Acceptable(i)
  {
    i.HeardTb? && AnswersTb(s, i.bytes) ==> -32768 <= s.tbPbid < 32767
  }

  /** The node takes part in a timetable that is new to it, and so forgets all TAs. */
  predicate Changes(s: NodeState, i: Input)
    requires Acceptable(i)
  {
    i.HeardTb? && TakesPart(s, i.bytes) && IsNew(s, i.bytes)
  }

  /** What it hears is the first TB of the new timetable, the only one that may lower its PBID. */
  predicate Resets(s: NodeState, i: Input)
    requires Acceptable(i)
  {
    Changes(s, i) && Pbid(i.bytes) == 0
  }

  /** What a step does to the TB PBID. */
  lemma TbStep(s: NodeState, i: Input)
    requires Acceptable(i) && NoWrap(s, i)
    ensures var t := React(s, i).state;
      && t.ip == s.ip && t.isMaster == s.isMaster
      && (!Resets(s, i) ==> t.tbPbid >= s.tbPbid)
      && (i.HeardTb? && RelaysTb(s, i.bytes) ==>
            t.tbPbid == Pbid(i.bytes) && (Resets(s, i) || s.tbPbid < Pbid(i.bytes)))
  {
  }

  /** What a step does to the recorded TAs. */
  lemma TaStep(s: NodeState, i: Input)
    requires Acceptable(i)
    ensures var t := React(s, i).state;
      && (!Changes(s, i) ==> forall o | o in s.taSeen :: o in t.taSeen && t.taSeen[o] >= s.taSeen[o])
      && (RelaysTa(s, i) ==>
            && i.originator in t.taSeen && t.taSeen[i.originator] == i.pbid
            && (i.originator in s.taSeen ==> s.taSeen[i.originator] < i.pbid))
  {
  }

  /** Hearing a timetable, a participant keeps its signature, and nothing else touches it. */
  lemma SignatureStep(s: NodeState, i: Input)
    requires Acceptable(i)
    ensures React(s, i).state.previous ==
      if i.HeardTb? && TakesPart(s, i.bytes) then Some(Signature(i.bytes)) else s.previous
    ensures React(s, i).state.ip == s.ip && React(s, i).state.isMaster == s.isMaster
  {
  }

  ghost predicate AllAcceptable(inputs: seq<Input>) {
    forall k | 0 <= k < |inputs| :: Acceptable(inputs[k])
  }

  /** In no step does the PBID wrap or start again. */
  ghost predicate Settled(s: NodeState, inputs: seq<Input>)
    requires AllAcceptable(inputs)
    decreases |inputs|
  {
    inputs != [] ==>
      NoWrap(s, inputs[0]) && !Resets(s, inputs[0]) && Settled(React(s, inputs[0]).state, inputs[1..])
  }

  /** In no step is there a change of timetable. */
  ghost predicate SameTimetable(s: NodeState, inputs: seq<Input>)
    requires AllAcceptable(inputs)
    decreases |inputs|
  {
    inputs != [] ==> !Changes(s, inputs[0]) && SameTimetable(React(s, inputs[0]).state, inputs[1..])
  }

  /** The PBIDs of the TBs that a node relays, in order. */
  ghost function RelayedPbids(s: NodeState, inputs: seq<Input>): seq<int>
    requires AllAcceptable(inputs)
    decreases |inputs|
  {
    if inputs == [] then []
    else
      (if inputs[0].HeardTb? && RelaysTb(s, inputs[0].bytes) then [Pbid(inputs[0].bytes)] else [])
      + RelayedPbids(React(s, inputs[0]).state, inputs[1..])
  }

  /** The PBID of the TA of `originator` that one input makes a node pass on. */
  function PassedFirst(s: NodeState, i: Input, originator: Ip): seq<int> {
    if RelaysTa(s, i) && i.originator == originator then [i.pbid] else []
  }

  /** The PBIDs of the TAs of `originator` that a node passes on, in order. */
  ghost function PassedPbids(s: NodeState, inputs: seq<Input>, originator: Ip): seq<int>
    requires AllAcceptable(inputs)
    decreases |inputs|
  {
    if inputs == [] then []
    else
      PassedFirst(s, inputs[0], originator) + PassedPbids(React(s, inputs[0]).state, inputs[1..], originator)
  }

  ghost predicate Increasing(xs: seq<int>) {
    forall i, j | 0 <= i < j < |xs| :: xs[i] < xs[j]
  }

  lemma LessThanAll(x: int, rest: seq<int>)
    requires Increasing(rest) && forall p | p in rest :: x < p
    ensures Increasing([x] + rest)
  {
    forall k | 0 <= k < |rest|
      ensures x < rest[k]
    {
      assert rest[k] in rest;
    }
  }

  lemma {:induction false} SettledIncrease(s: NodeState, inputs: seq<Input>)
    requires AllAcceptable(inputs) && Settled(s, inputs)
    ensures Increasing(RelayedPbids(s, inputs))
    ensures forall p | p in RelayedPbids(s, inputs) :: p > s.tbPbid
    decreases |inputs|
  {
    if inputs != [] {
      var t := React(s, inputs[0]).state;
      TbStep(s, inputs[0]);
      SettledIncrease(t, inputs[1..]);
      var rest := RelayedPbids(t, inputs[1..]);
      if inputs[0].HeardTb? && RelaysTb(s, inputs[0].bytes) {
        LessThanAll(t.tbPbid, rest);
        assert RelayedPbids(s, inputs) == [t.tbPbid] + rest;
      } else {
        assert RelayedPbids(s, inputs) == rest;
      }
    }
  }

  /**
   * From one first TB of a timetable to the next, that first one included, the relayed PBIDs
   * strictly increase, TA bumps notwithstanding.
   */
  lemma RelayedPbidsIncrease(s: NodeState, inputs: seq<Input>)
    requires AllAcceptable(inputs) && inputs != [] && Settled(React(s, inputs[0]).state, inputs[1..])
    ensures Increasing(RelayedPbids(s, inputs))
  {
    var t := React(s, inputs[0]).state;
    var rest := RelayedPbids(t, inputs[1..]);
    SettledIncrease(t, inputs[1..]);
    if inputs[0].HeardTb? && RelaysTb(s, inputs[0].bytes) {
      assert t.tbPbid == Pbid(inputs[0].bytes);
      LessThanAll(t.tbPbid, rest);
      assert RelayedPbids(s, inputs) == [t.tbPbid] + rest;
    } else {
      assert RelayedPbids(s, inputs) == rest;
    }
  }

  /** What the node hears is not ahead of the PBID that it has. */
  predicate NotAhead(i: Input, pbid: int)
    requires Acceptable(i)
  {
    i.HeardTb? ==> Pbid(i.bytes) <= pbid
  }

  /**
   * A node that misses the first TB of a new timetable keeps the PBID of the old one, and relays
   * nothing, over every run, until the PBIDs of the new one have passed it.
   */
  lemma {:induction false} SilentUntilPassed(s: NodeState, inputs: seq<Input>, pbid: int)
    requires AllAcceptable(inputs) && Settled(s, inputs) && pbid <= s.tbPbid
    requires forall k | 0 <= k < |inputs| :: NotAhead(inputs[k], pbid)
    ensures RelayedPbids(s, inputs) == []
    decreases |inputs|
  {
    if inputs != [] {
      TbStep(s, inputs[0]);
      assert NotAhead(inputs[0], pbid);
      SilentUntilPassed(React(s, inputs[0]).state, inputs[1..], pbid);
    }
  }

  /** The node hears every TB of a timetable that it knows, one PBID after the other, and each asks it for its TA. */
  ghost predicate KeepsAnswering(s: NodeState, inputs: seq<Input>)
    requires AllAcceptable(inputs)
    decreases |inputs|
  {
    inputs != [] ==>
      && inputs[0].HeardTb? && AnswersTb(s, inputs[0].bytes) && !IsNew(s, inputs[0].bytes)
      && Pbid(inputs[0].bytes) == s.tbPbid + 1 && NoWrap(s, inputs[0])
      && KeepsAnswering(React(s, inputs[0]).state, inputs[1..])
  }

  /** However often the TB is sent again, nothing gets past a node that hears all of them and is not acknowledged. */
  lemma {:induction false} UnacknowledgedNeverRelays(s: NodeState, inputs: seq<Input>)
    requires AllAcceptable(inputs) && KeepsAnswering(s, inputs)
    ensures RelayedPbids(s, inputs) == []
    decreases |inputs|
  {
    if inputs != [] {
      NextTbStopsAtUnacknowledgedNode(s, inputs[0].bytes);
      UnacknowledgedNeverRelays(React(s, inputs[0]).state, inputs[1..]);
    }
  }

  ghost predicate Ahead(s: NodeState, originator: Ip, p: int) {
    originator in s.taSeen ==> s.taSeen[originator] < p
  }

  lemma FirstIsLeast(s: NodeState, i: Input, originator: Ip, rest: seq<int>)
    requires Acceptable(i) && Increasing(rest)
    requires forall p | p in rest :: Ahead(React(s, i).state, originator, p)
    ensures Increasing(PassedFirst(s, i, originator) + rest)
  {
    TaStep(s, i);
    if RelaysTa(s, i) && i.originator == originator {
      forall p | p in rest
        ensures i.pbid < p
      {
        assert Ahead(React(s, i).state, originator, p);
      }
      LessThanAll(i.pbid, rest);
    } else {
      assert [] + rest == rest;
    }
  }

  lemma StillAhead(s: NodeState, i: Input, originator: Ip, p: int)
    requires Acceptable(i) && !Changes(s, i) && Ahead(React(s, i).state, originator, p)
    ensures Ahead(s, originator, p)
  {
    TaStep(s, i);
  }

  lemma {:induction false} SameTimetableIncrease(s: NodeState, inputs: seq<Input>, originator: Ip)
    requires AllAcceptable(inputs) && SameTimetable(s, inputs)
    ensures Increasing(PassedPbids(s, inputs, originator))
    ensures forall p | p in PassedPbids(s, inputs, originator) :: Ahead(s, originator, p)
    decreases |inputs|
  {
    if inputs != [] {
      var t := React(s, inputs[0]).state;
      var rest := PassedPbids(t, inputs[1..], originator);
      SameTimetableIncrease(t, inputs[1..], originator);
      FirstIsLeast(s, inputs[0], originator, rest);
      forall p | p in rest
        ensures Ahead(s, originator, p)
      {
        StillAhead(s, inputs[0], originator, p);
      }
    }
  }

  /**
   * Per originator, the passed-on TA PBIDs strictly increase from one change of timetable, that one
   * included, to the next.
   */
  lemma PassedPbidsIncrease(s: NodeState, inputs: seq<Input>, originator: Ip)
    requires AllAcceptable(inputs) && inputs != [] && SameTimetable(React(s, inputs[0]).state, inputs[1..])
    ensures Increasing(PassedPbids(s, inputs, originator))
  {
    var t := React(s, inputs[0]).state;
    SameTimetableIncrease(t, inputs[1..], originator);
    FirstIsLeast(s, inputs[0], originator, PassedPbids(t, inputs[1..], originator));
  }

  // ---------------------------------------------------------------- a whole network

  /** One node of the network hears or does something. */
  datatype Happening = Happening(node: Ip, input: Input)

  ghost predicate Proper(nodes: map<Ip, NodeState>, run: seq<Happening>) {
    forall k | 0 <= k < |run| :: run[k].node in nodes && Acceptable(run[k].input)
  }

  function Step(nodes: map<Ip, NodeState>, h: Happening): map<Ip, NodeState>
    requires h.node in nodes && Acceptable(h.input)
  {
    nodes[h.node := React(nodes[h.node], h.input).state]
  }

  ghost predicate NoWraps(nodes: map<Ip, NodeState>, run: seq<Happening>)
    requires Proper(nodes, run)
    decreases |run|
  {
    run != [] ==> NoWrap(nodes[run[0].node], run[0].input) && NoWraps(Step(nodes, run[0]), run[1..])
  }

  /** All TBs that participants hear belong to the timetable with signature `g`. */
  ghost predicate OneTimetable(nodes: map<Ip, NodeState>, run: seq<Happening>, g: seq<byte>)
    requires Proper(nodes, run)
    decreases |run|
  {
    run != [] ==>
      var i := run[0].input;
      && (i.HeardTb? && TakesPart(nodes[run[0].node], i.bytes) ==> Signature(i.bytes) == g)
      && OneTimetable(Step(nodes, run[0]), run[1..], g)
  }

  /** How often a node changes to a new timetable, and how often it does so by its first TB. */
  ghost function ChangesIn(nodes: map<Ip, NodeState>, run: seq<Happening>): nat
    requires Proper(nodes, run)
    decreases |run|
  {
    if run == [] then 0
    else (if Changes(nodes[run[0].node], run[0].input) then 1 else 0) + ChangesIn(Step(nodes, run[0]), run[1..])
  }

  ghost function ResetsIn(nodes: map<Ip, NodeState>, run: seq<Happening>): nat
    requires Proper(nodes, run)
    decreases |run|
  {
    if run == [] then 0
    else (if Resets(nodes[run[0].node], run[0].input) then 1 else 0) + ResetsIn(Step(nodes, run[0]), run[1..])
  }

  /** How often, in the whole network, a TB with PBID `p` is relayed. */
  ghost function RelaysOfTb(nodes: map<Ip, NodeState>, run: seq<Happening>, p: int): nat
    requires Proper(nodes, run)
    decreases |run|
  {
    if run == [] then 0
    else
      var i := run[0].input;
      (if i.HeardTb? && RelaysTb(nodes[run[0].node], i.bytes) && Pbid(i.bytes) == p then 1 else 0)
      + RelaysOfTb(Step(nodes, run[0]), run[1..], p)
  }

  /** How often the TA of `originator` with PBID `p` is passed on. */
  ghost function RelaysOfTa(nodes: map<Ip, NodeState>, run: seq<Happening>, originator: Ip, p: int): nat
    requires Proper(nodes, run)
    decreases |run|
  {
    if run == [] then 0
    else
      var i := run[0].input;
      (if RelaysTa(nodes[run[0].node], i) && i.originator == originator && i.pbid == p then 1 else 0)
      + RelaysOfTa(Step(nodes, run[0]), run[1..], originator, p)
  }

  /** The nodes whose own PBID has not reached `p`. */
  ghost function Behind(nodes: map<Ip, NodeState>, p: int): set<Ip> {
    set v | v in nodes && nodes[v].tbPbid < p
  }

  ghost function BehindTa(nodes: map<Ip, NodeState>, originator: Ip, p: int): set<Ip> {
    set v | v in nodes && Ahead(nodes[v], originator, p)
  }

  /** The nodes that have not taken part in the timetable `g` yet. */
  ghost function NotYet(nodes: map<Ip, NodeState>, g: seq<byte>): set<Ip> {
    set v | v in nodes && nodes[v].previous != Some(g)
  }

  lemma Smaller(a: set<Ip>, b: set<Ip>, v: Ip)
    requires a <= b && v in b && v !in a
    ensures |a| < |b|
  {
    SubsetSize(a, b - {v});
  }

  lemma OneMore(a: set<Ip>, b: set<Ip>, v: Ip)
    requires a <= b + {v}
    ensures |a| <= |b| + 1
  {
    SubsetSize(a, b + {v});
  }

  /** A step relays, or lets a node fall behind, only on account of a node that was behind or starts again. */
  lemma TbFloodStep(nodes: map<Ip, NodeState>, h: Happening, p: int)
    requires h.node in nodes && Acceptable(h.input) && NoWrap(nodes[h.node], h.input)
    ensures var s, i := nodes[h.node], h.input;
      (if i.HeardTb? && RelaysTb(s, i.bytes) && Pbid(i.bytes) == p then 1 else 0) + |Behind(Step(nodes, h), p)|
      <= |Behind(nodes, p)| + (if Resets(s, i) then 1 else 0)
  {
    var v, s, i := h.node, nodes[h.node], h.input;
    var before, after := Behind(nodes, p), Behind(Step(nodes, h), p);
    TbStep(s, i);
    if i.HeardTb? && RelaysTb(s, i.bytes) && Pbid(i.bytes) == p {
      assert after <= before && v !in after;
      if Resets(s, i) {
        SubsetSize(after, before);
      } else {
        Smaller(after, before, v);
      }
    } else if Resets(s, i) {
      OneMore(after, before, v);
    } else {
      SubsetSize(after, before);
    }
  }

  /**
   * In every run, whatever timetables come and go, a TB PBID is relayed at most once for each node
   * that is behind it and once for each node that starts with a new timetable.
   */
  lemma {:induction false} TbFloodIsBounded(nodes: map<Ip, NodeState>, run: seq<Happening>, p: int)
    requires Proper(nodes, run) && NoWraps(nodes, run)
    ensures RelaysOfTb(nodes, run, p) <= |Behind(nodes, p)| + ResetsIn(nodes, run)
    decreases |run|
  {
    if run != [] {
      TbFloodStep(nodes, run[0], p);
      TbFloodIsBounded(Step(nodes, run[0]), run[1..], p);
    }
  }

  /** The nodes that may still relay PBID `p` of the timetable `g`. */
  ghost function Unserved(nodes: map<Ip, NodeState>, g: seq<byte>, p: int): set<Ip> {
    NotYet(nodes, g) + Behind(nodes, p)
  }

  lemma UnservedStep(nodes: map<Ip, NodeState>, h: Happening, g: seq<byte>, p: int)
    requires h.node in nodes && Acceptable(h.input) && NoWrap(nodes[h.node], h.input)
    requires h.input.HeardTb? && TakesPart(nodes[h.node], h.input.bytes) ==> Signature(h.input.bytes) == g
    ensures var s, i := nodes[h.node], h.input;
      (if i.HeardTb? && RelaysTb(s, i.bytes) && Pbid(i.bytes) == p then 1 else 0) + |Unserved(Step(nodes, h), g, p)|
      <= |Unserved(nodes, g, p)|
  {
    var v, s, i := h.node, nodes[h.node], h.input;
    var before, after := Unserved(nodes, g, p), Unserved(Step(nodes, h), g, p);
    TbStep(s, i);
    SignatureStep(s, i);
    assert after <= before;
    if i.HeardTb? && RelaysTb(s, i.bytes) && Pbid(i.bytes) == p {
      Smaller(after, before, v);
    } else {
      SubsetSize(after, before);
    }
  }

  /**
   * The flood of one timetable, its first TB included: every PBID is relayed at most once by each
   * node, and only by nodes that had not taken part or were behind.
   */
  lemma {:induction false} TimetableFloodIsBounded(nodes: map<Ip, NodeState>, run: seq<Happening>, g: seq<byte>, p: int)
    requires Proper(nodes, run) && NoWraps(nodes, run) && OneTimetable(nodes, run, g)
    ensures RelaysOfTb(nodes, run, p) <= |Unserved(nodes, g, p)| <= |nodes|
    decreases |run|
  {
    SubsetSize(Unserved(nodes, g, p), nodes.Keys);
    if run != [] {
      UnservedStep(nodes, run[0], g, p);
      TimetableFloodIsBounded(Step(nodes, run[0]), run[1..], g, p);
    }
  }

  lemma TaFloodStep(nodes: map<Ip, NodeState>, h: Happening, originator: Ip, p: int)
    requires h.node in nodes && Acceptable(h.input)
    ensures var s, i := nodes[h.node], h.input;
      (if RelaysTa(s, i) && i.originator == originator && i.pbid == p then 1 else 0)
      + |BehindTa(Step(nodes, h), originator, p)|
      <= |BehindTa(nodes, originator, p)| + (if Changes(s, i) then 1 else 0)
  {
    var v, s, i := h.node, nodes[h.node], h.input;
    var before, after := BehindTa(nodes, originator, p), BehindTa(Step(nodes, h), originator, p);
    TaStep(s, i);
    if RelaysTa(s, i) && i.originator == originator && i.pbid == p {
      Smaller(after, before, v);
    } else if Changes(s, i) {
      OneMore(after, before, v);
    } else {
      SubsetSize(after, before);
    }
  }

  /**
   * The same for the TAs of one originator with one PBID: once for each node that has not seen it,
   * and once for each change of timetable.
   */
  lemma {:induction false} TaFloodIsBounded(nodes: map<Ip, NodeState>, run: seq<Happening>, originator: Ip, p: int)
    requires Proper(nodes, run)
    ensures RelaysOfTa(nodes, run, originator, p) <= |BehindTa(nodes, originator, p)| + ChangesIn(nodes, run)
    decreases |run|
  {
    if run != [] {
      TaFloodStep(nodes, run[0], originator, p);
      TaFloodIsBounded(Step(nodes, run[0]), run[1..], originator, p);
    }
  }

  /** Each node changes to one timetable at most once. */
  lemma {:induction false} ChangesOncePerNode(nodes: map<Ip, NodeState>, run: seq<Happening>, g: seq<byte>)
    requires Proper(nodes, run) && OneTimetable(nodes, run, g)
    ensures ChangesIn(nodes, run) <= |NotYet(nodes, g)|
    decreases |run|
  {
    if run != [] {
      var v, i := run[0].node, run[0].input;
      var after := Step(nodes, run[0]);
      SignatureStep(nodes[v], i);
      ChangesOncePerNode(after, run[1..], g);
      if Changes(nodes[v], i) {
        Smaller(NotYet(after, g), NotYet(nodes, g), v);
      } else {
        SubsetSize(NotYet(after, g), NotYet(nodes, g));
      }
    }
  }

  /** So the TAs that answer one timetable, its first TB included, are passed on at most twice per node. */
  lemma TimetableTasAreBounded(nodes: map<Ip, NodeState>, run: seq<Happening>, g: seq<byte>, originator: Ip, p: int)
    requires Proper(nodes, run) && OneTimetable(nodes, run, g)
    ensures RelaysOfTa(nodes, run, originator, p) <= |BehindTa(nodes, originator, p)| + |NotYet(nodes, g)|
    ensures |BehindTa(nodes, originator, p)| + |NotYet(nodes, g)| <= 2 * |nodes|
  {
    TaFloodIsBounded(nodes, run, originator, p);
    ChangesOncePerNode(nodes, run, g);
    SubsetSize(BehindTa(nodes, originator, p), nodes.Keys);
    SubsetSize(NotYet(nodes, g), nodes.Keys);
  }
}
