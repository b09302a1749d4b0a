/** A slave keeps the TAs it has seen in a PBID table; the flood control reasons about a map. They agree. */
module TaTable {
  import opened Bytes
  import opened Node
  import opened Flooding
  import opened PbidTable

  /** What `TB_RX` and `TA_RX` do to the table that serves node `s`. */
  function TableNext(s: NodeState, t: seq<Pair>, i: Input): (u: seq<Pair>)
    requires Acceptable(i) && t != []
    ensures u != []
  {
    match i
    case HeardTb(b) => if TakesPart(s, b) && IsNew(s, b) then [NO_PAIR] else t
    case HeardTa(sender, originator, pbid) =>
      if !s.isMaster && sender != s.ip && originator in s.subs && TableLetsPass(t, originator, pbid)
      then Inserted(Removed(t, originator), originator, pbid) else t
    case Joined(_) => t
  }

  /** The originator is not in the table, or was seen with a smaller PBID only. */
  predicate TableLetsPass(t: seq<Pair>, originator: Ip, pbid: int)
    requires t != []
  {
    SearchIp(t, originator) == None || SearchIp(t, originator).value < pbid
  }

  predicate NotZeros(i: Input) {
    i.HeardTa? ==> Pair(i.originator, i.pbid) != NO_PAIR
  }

  /** Removing the originator and inserting it anew overwrites it in the map. */
  lemma Recorded(t: seq<Pair>, m: map<Ip, int>, originator: Ip, pbid: int)
    requires Represents(t, m) && Pair(originator, pbid) != NO_PAIR
    ensures Represents(Inserted(Removed(t, originator), originator, pbid), m[originator := pbid])
  {
    RemoveRefines(t, m, originator);
    InsertRefines(Removed(t, originator), m - {originator}, originator, pbid);
    assert (m - {originator})[originator := pbid] == m[originator := pbid];
  }

  /** The search in the table decides like a look into the map. */
  lemma SameDecision(t: seq<Pair>, m: map<Ip, int>, originator: Ip, pbid: int)
    requires Represents(t, m)
    ensures TableLetsPass(t, originator, pbid) <==> (originator in m ==> m[originator] < pbid)
  {
    assert SearchIp(t, originator) == if originator in m then Some(m[originator]) else None;
  }

  lemma TableFollows(s: NodeState, t: seq<Pair>, i: Input)
    requires Acceptable(i) && NotZeros(i) && Represents(t, s.taSeen)
    ensures Represents(TableNext(s, t, i), React(s, i).state.taSeen)
  {
    match i
    case HeardTb(_) => EmptyRepresents();
    case HeardTa(_, originator, pbid) =>
      SameDecision(t, s.taSeen, originator, pbid);
      Recorded(t, s.taSeen, originator, pbid);
    case Joined(_) =>
  }

  ghost function TableAfter(s: NodeState, t: seq<Pair>, inputs: seq<Input>): (u: seq<Pair>)
    requires AllAcceptable(inputs) && t != []
    ensures u != []
    decreases |inputs|
  {
    if inputs == [] then t else TableAfter(React(s, inputs[0]).state, TableNext(s, t, inputs[0]), inputs[1..])
  }

  ghost function NodeAfter(s: NodeState, inputs: seq<Input>): NodeState
    requires AllAcceptable(inputs)
    decreases |inputs|
  {
    if inputs == [] then s else NodeAfter(React(s, inputs[0]).state, inputs[1..])
  }

  lemma {:induction false} RunFollows(s: NodeState, t: seq<Pair>, inputs: seq<Input>)
    requires AllAcceptable(inputs) && Represents(t, s.taSeen)
    requires forall k | 0 <= k < |inputs| :: NotZeros(inputs[k])
    ensures Represents(TableAfter(s, t, inputs), NodeAfter(s, inputs).taSeen)
    decreases |inputs|
  {
    if inputs != [] {
      assert NotZeros(inputs[0]);
      TableFollows(s, t, inputs[0]);
      RunFollows(React(s, inputs[0]).state, TableNext(s, t, inputs[0]), inputs[1..]);
    }
  }

  /**
   * After every run of a new node the decision that the linked table gives is the one that bounds
   * the flood: a TA is passed on exactly if the search finds no equal or greater PBID.
   */
  lemma TableDecidesLikeMap(ip: Ip, inputs: seq<Input>, i: Input)
    requires AllAcceptable(inputs) && (forall k | 0 <= k < |inputs| :: NotZeros(inputs[k])) && i.HeardTa?
    ensures var s, t := NodeAfter(Fresh(ip, false), inputs), TableAfter(Fresh(ip, false), [NO_PAIR], inputs);
      RelaysTa(s, i) <==>
        !s.isMaster && i.sender != s.ip && i.originator in s.subs && TableLetsPass(t, i.originator, i.pbid)
  {
    var start := Fresh(ip, false);
    EmptyRepresents();
    RunFollows(start, [NO_PAIR], inputs);
    var s, t := NodeAfter(start, inputs), TableAfter(start, [NO_PAIR], inputs);
    SameDecision(t, s.taSeen, i.originator, i.pbid);
  }
}
