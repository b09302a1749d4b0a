/** A TB on its way out along a row of slaves, and the TA of the last one on its way back. */
module RoundTrip {
  import opened Bytes
  import opened TbFormat
  import opened Node
  import opened Flooding

  // ---------------------------------------------------------------- the stamp of a relay

  lemma StampKeepsList(b: seq<byte>, x: Ip)
    requires Readable(b)
    ensures var r := Stamped(b, x);
      Readable(r) && |r| == |b| && Ips(r) == Ips(b) && Pbid(r) == Pbid(b) && forall k | 3 <= k < |b| :: r[k] == b[k]
  {
    StampingKeepsCore(b, x);
    CoreDecides(b, Stamped(b, x));
  }

  lemma StampKeepsBit(b: seq<byte>, x: Ip, place: nat)
    requires Readable(b) && place < |Ips(b)|
    ensures Readable(Stamped(b, x)) && |Ips(Stamped(b, x))| == |Ips(b)|
    ensures Owes(Stamped(b, x), |Ips(b)|, place) <==> Owes(b, |Ips(b)|, place)
  {
    StampKeepsList(b, x);
  }

  lemma StampKeepsOwing(b: seq<byte>, x: Ip, ip: Ip)
    requires Readable(b)
    ensures Readable(Stamped(b, x)) && (OwesTa(Stamped(b, x), ip) <==> OwesTa(b, ip))
  {
    StampKeepsList(b, x);
    var place := First(Ips(b), ip);
    if place != -1 {
      StampKeepsBit(b, x, place);
    }
  }

  lemma StampKeepsSignature(b: seq<byte>, x: Ip)
    requires Readable(b)
    ensures Readable(Stamped(b, x)) && Signature(Stamped(b, x)) == Signature(b)
  {
    StampKeepsList(b, x);
  }

  lemma StampKeepsSubs(subs: seq<Ip>, b: seq<byte>, x: Ip)
    requires Readable(b)
    ensures Readable(Stamped(b, x)) && (SomeSubOwes(subs, Stamped(b, x)) <==> SomeSubOwes(subs, b))
  {
    StampKeepsList(b, x);
    forall ip
      ensures OwesTa(Stamped(b, x), ip) <==> OwesTa(b, ip)
    {
      StampKeepsOwing(b, x, ip);
    }
    SomeSubOwesMeans(subs, b);
    SomeSubOwesMeans(subs, Stamped(b, x));
  }

  lemma StampKeepsAsking(b: seq<byte>, x: Ip, place: nat)
    requires Readable(b) && place < |Ips(b)|
    ensures Readable(Stamped(b, x)) && |Ips(Stamped(b, x))| == |Ips(b)|
    ensures AsksForTa(Stamped(b, x), place) <==> AsksForTa(b, place)
  {
    StampKeepsList(b, x);
    StampKeepsBit(b, x, place % 256);
  }

  lemma StampKeepsRules(s: NodeState, b: seq<byte>, x: Ip, place: nat)
    requires Readable(b) && place < |Ips(b)|
    ensures Readable(Stamped(b, x)) && |Ips(Stamped(b, x))| == |Ips(b)|
    ensures AsksForTa(Stamped(b, x), place) <==> AsksForTa(b, place)
    ensures Relays(s, Stamped(b, x), place) <==> Relays(s, b, place)
  {
    StampKeepsAsking(b, x, place);
    StampKeepsList(b, x);
    StampKeepsSubs(s.subs, b, x);
    StampKeepsSignature(b, x);
  }

  lemma StampKeepsReaction(s: NodeState, b: seq<byte>, x: Ip, place: nat)
    requires Readable(b) && place < |Ips(b)|
    ensures Readable(Stamped(b, x)) && |Ips(Stamped(b, x))| == |Ips(b)|
    ensures Taken(s, Stamped(b, x), place) == Taken(s, b, place)
  {
    StampKeepsRules(s, b, x, place);
    StampKeepsSignature(b, x);
    StampKeepsList(b, x);
    StampingKeepsCore(b, x);
    CoreDecides(b, Stamped(b, x));
    assert Stamped(Stamped(b, x), s.ip) == Stamped(b, s.ip);
  }

  /** Whoever a slave hears the TB from, other than itself, it does the same with it. */
  lemma StampIsNothing(s: NodeState, b: seq<byte>, x: Ip)
    requires Readable(b) && x != s.ip && Sender(b) != s.ip
    ensures Readable(Stamped(b, x)) && React(s, HeardTb(Stamped(b, x))) == React(s, HeardTb(b))
    ensures RelaysTb(s, Stamped(b, x)) <==> RelaysTb(s, b)
    ensures AnswersTb(s, Stamped(b, x)) <==> AnswersTb(s, b)
  {
    StampKeepsList(b, x);
    StampingKeepsCore(b, x);
    if s.ip in Ips(b) {
      StampKeepsRules(s, b, x, First(Ips(b), s.ip));
      StampKeepsReaction(s, b, x, First(Ips(b), s.ip));
    }
  }

  // ---------------------------------------------------------------- the world of one TB

  /** A message, and the node that sent this copy of it. */
  datatype Copy = Copy(sender: Ip, message: Message)

  /** The master, whose TAs it has heard, the slaves, and all copies that were ever sent. */
  datatype World = World(master: Ip, heard: set<Ip>, nodes: map<Ip, NodeState>, air: set<Copy>)

  datatype Event =
    | Hears(at: Ip, copy: Copy)                 // a slave, any number of times
    | Counts(copy: Copy, stray: byte)           // the master hears a TA

  function InputOf(c: Copy): Input {
    match c.message
    case Tb(b) => HeardTb(b)
    case Ta(originator, pbid) => HeardTa(c.sender, originator, pbid)
  }

  ghost predicate Enabled(w: World, e: Event) {
    match e
    case Hears(at, c) =>
      at in w.nodes && c in w.air && Acceptable(InputOf(c)) && NoWrap(w.nodes[at], InputOf(c))
    case Counts(c, _) => c in w.air && c.message.Ta? && c.sender != w.master
  }

  ghost function Copies(sender: Ip, sent: seq<Message>): set<Copy> {
    set q | q in sent :: Copy(sender, q)
  }

  ghost function After(w: World, e: Event): World
    requires Enabled(w, e)
  {
    match e
    case Hears(at, c) =>
      var r := React(w.nodes[at], InputOf(c));
      w.(nodes := w.nodes[at := r.state], air := w.air + Copies(at, r.sent))
    case Counts(c, _) => w.(heard := w.heard + {c.message.originator})
  }

  /** `sender` is next to position `i`. */
  predicate Beside(row: seq<Ip>, i: nat, sender: Ip) {
    0 < i < |row| && (sender == row[i - 1] || (i + 1 < |row| && sender == row[i + 1]))
  }

  /** The nodes of the row hear only the next one, before or behind. */
  ghost predicate InRow(row: seq<Ip>, e: Event) {
    match e
    case Hears(at, c) => at in row ==> exists i: nat :: Beside(row, i, c.sender) && row[i] == at
    case Counts(c, _) => |row| > 1 && c.sender == row[1]
  }

  ghost predicate Runs(w: World, row: seq<Ip>, events: seq<Event>)
    decreases |events|
  {
    events != [] ==> Enabled(w, events[0]) && InRow(row, events[0]) && Runs(After(w, events[0]), row, events[1..])
  }

  ghost function End(w: World, row: seq<Ip>, events: seq<Event>): World
    requires Runs(w, row, events)
    decreases |events|
  {
    if events == [] then w else End(After(w, events[0]), row, events[1..])
  }

  predicate HearsTb(e: Event, ip: Ip) {
    e.Hears? && e.at == ip && e.copy.message.Tb?
  }

  /** How often node `ip` hears the TB. */
  function Hearings(events: seq<Event>, ip: Ip): nat {
    if events == [] then 0 else (if HearsTb(events[0], ip) then 1 else 0) + Hearings(events[1..], ip)
  }

  lemma Prepended(w: World, row: seq<Ip>, e: Event, rest: seq<Event>)
    requires Enabled(w, e) && InRow(row, e) && Runs(After(w, e), row, rest)
    ensures Runs(w, row, [e] + rest) && End(w, row, [e] + rest) == End(After(w, e), row, rest)
    ensures forall ip :: Hearings([e] + rest, ip) == (if HearsTb(e, ip) then 1 else 0) + Hearings(rest, ip)
  {
    assert ([e] + rest)[0] == e && ([e] + rest)[1..] == rest;
  }

  lemma TwoRuns(w: World, row: seq<Ip>, e: Event, f: Event, ip: Ip)
    requires Enabled(w, e) && InRow(row, e) && Enabled(After(w, e), f) && InRow(row, f)
    ensures Runs(w, row, [e, f]) && End(w, row, [e, f]) == After(After(w, e), f)
    ensures Hearings([e, f], ip) == (if HearsTb(e, ip) then 1 else 0) + if HearsTb(f, ip) then 1 else 0
  {
    Prepended(After(w, e), row, f, []);
    Prepended(w, row, e, [f] + []);
    assert [e, f] == [e] + ([f] + []);
  }

  // ---------------------------------------------------------------- the row

  /** A slave that the TB `b` lists. */
  ghost predicate Slave(w: World, ip: Ip, b: seq<byte>) {
    Readable(b) && ip in w.nodes && w.nodes[ip].ip == ip && !w.nodes[ip].isMaster && ip in Ips(b)
  }

  /** Distinct nodes in a row, from the master to a slave, and the TB `b` that the master has sent. */
  ghost predicate Row(w: World, row: seq<Ip>, b: seq<byte>) {
    && |row| >= 2 && Distinct(row) && w.master == row[0] && row[0] !in w.nodes
    && Readable(b) && Sender(b) == row[0]
    && (forall i | 0 < i < |row| :: Slave(w, row[i], b))
  }

  ghost predicate SentTb(w: World, ip: Ip) {
    exists p :: Copy(ip, Tb(p)) in w.air
  }

  ghost predicate SentTa(w: World, ip: Ip, leaf: Ip) {
    exists p :: Copy(ip, Ta(leaf, p)) in w.air
  }

  /** The node has sent no TB but `b`. */
  ghost predicate SentOnly(w: World, ip: Ip, b: seq<byte>)
    requires Readable(b)
  {
    forall p | Copy(ip, Tb(p)) in w.air :: p == Stamped(b, ip)
  }

  ghost predicate OneTb(w: World, row: seq<Ip>, b: seq<byte>) {
    Readable(b) && forall i | 0 <= i < |row| :: SentOnly(w, row[i], b)
  }

  /** No TB has left the row from position `j` on, and no TA of `leaf` up to position `j`. */
  ghost predicate NoTbFrom(w: World, row: seq<Ip>, j: nat) {
    forall i | j <= i < |row| :: !SentTb(w, row[i])
  }

  ghost predicate NoTaUpTo(w: World, row: seq<Ip>, leaf: Ip, j: nat) {
    forall i | 0 <= i < |row| && i <= j :: !SentTa(w, row[i], leaf)
  }

  // ---------------------------------------------------------------- what a node of the row sends

  /** What node `ip` hears in a step. */
  ghost predicate HearsAt(w: World, row: seq<Ip>, e: Event, i: nat) {
    && e.Hears? && Enabled(w, e) && InRow(row, e) && 0 < i < |row| && e.at == row[i]
  }

  lemma FromNeighbour(w: World, row: seq<Ip>, e: Event, i: nat)
    requires HearsAt(w, row, e, i) && Distinct(row)
    ensures Beside(row, i, e.copy.sender)
  {
    var k: nat :| Beside(row, k, e.copy.sender) && row[k] == e.at;
    assert k == i;
  }

  /** If that is a TB, it is `b`. */
  lemma HeardIsB(w: World, row: seq<Ip>, b: seq<byte>, e: Event, i: nat)
    requires Row(w, row, b) && OneTb(w, row, b) && HearsAt(w, row, e, i) && e.copy.message.Tb?
    ensures Beside(row, i, e.copy.sender) && e.copy.sender != row[i]
    ensures e.copy.message.bytes == Stamped(b, e.copy.sender)
  {
    FromNeighbour(w, row, e, i);
    var from := if e.copy.sender == row[i - 1] then i - 1 else i + 1;
    assert SentOnly(w, row[from], b);
  }

  lemma RelaysOnly(s: NodeState, b: seq<byte>, x: Ip, p: seq<byte>)
    requires Readable(b) && x != s.ip && Sender(b) != s.ip && Readable(Stamped(b, x))
    requires Tb(p) in React(s, HeardTb(Stamped(b, x))).sent
    ensures RelaysTb(s, b) && p == Stamped(b, s.ip)
  {
    StampIsNothing(s, b, x);
    SentExactly(s, HeardTb(b));
  }

  lemma AnswersOnly(s: NodeState, b: seq<byte>, x: Ip, o: Ip, p: int)
    requires Readable(b) && x != s.ip && Sender(b) != s.ip && Readable(Stamped(b, x))
    requires Ta(o, p) in React(s, HeardTb(Stamped(b, x))).sent
    ensures AnswersTb(s, b) && o == s.ip && p == s.tbPbid
  {
    StampIsNothing(s, b, x);
    SentExactly(s, HeardTb(b));
  }

  /** It sends a TB only on hearing `b` from a neighbour, and then it is `b`. */
  lemma SendsTb(w: World, row: seq<Ip>, b: seq<byte>, e: Event, i: nat, p: seq<byte>)
    requires Row(w, row, b) && OneTb(w, row, b) && HearsAt(w, row, e, i)
    requires Tb(p) in React(w.nodes[e.at], InputOf(e.copy)).sent
    ensures RelaysTb(w.nodes[row[i]], b) && p == Stamped(b, row[i])
    ensures e.copy.message.Tb? && Beside(row, i, e.copy.sender)
  {
    assert Slave(w, row[i], b);
    SentExactly(w.nodes[row[i]], InputOf(e.copy));
    HeardIsB(w, row, b, e, i);
    RelaysOnly(w.nodes[row[i]], b, e.copy.sender, p);
  }

  /** It sends a TA of `leaf` only as the leaf that hears `b`, or on hearing one that it forwards. */
  lemma SendsTa(w: World, row: seq<Ip>, b: seq<byte>, e: Event, i: nat, leaf: Ip, p: int)
    requires Row(w, row, b) && OneTb(w, row, b) && HearsAt(w, row, e, i)
    requires Ta(leaf, p) in React(w.nodes[e.at], InputOf(e.copy)).sent
    ensures Beside(row, i, e.copy.sender)
    ensures || (e.copy.message.Tb? && row[i] == leaf && AnswersTb(w.nodes[leaf], b) && p == w.nodes[leaf].tbPbid)
            || (e.copy.message == Ta(leaf, p) && ForwardsTa(w.nodes[row[i]], leaf, p))
  {
    assert Slave(w, row[i], b);
    FromNeighbour(w, row, e, i);
    if e.copy.message.Tb? {
      HeardIsB(w, row, b, e, i);
      AnswersOnly(w.nodes[row[i]], b, e.copy.sender, leaf, p);
    } else {
      SentExactly(w.nodes[row[i]], InputOf(e.copy));
    }
  }

  // ---------------------------------------------------------------- what stays as it is

  /** The parts of a slave that nothing it hears can change. */
  predicate SamePlace(s: NodeState, t: NodeState) {
    t.ip == s.ip && t.isMaster == s.isMaster && t.subs == s.subs
  }

  lemma HearingKeepsPlace(s: NodeState, c: Copy)
    requires Acceptable(InputOf(c))
    ensures SamePlace(s, React(s, InputOf(c)).state)
  {
  }

  lemma RowStays(w: World, row: seq<Ip>, b: seq<byte>, e: Event)
    requires Row(w, row, b) && Enabled(w, e)
    ensures Row(After(w, e), row, b)
    ensures forall i | 0 < i < |row| :: SamePlace(w.nodes[row[i]], After(w, e).nodes[row[i]])
  {
    var t := After(w, e);
    forall i | 0 < i < |row|
      ensures Slave(t, row[i], b) && SamePlace(w.nodes[row[i]], t.nodes[row[i]])
    {
      assert Slave(w, row[i], b);
      if e.Hears? && e.at == row[i] {
        HearingKeepsPlace(w.nodes[row[i]], e.copy);
      }
    }
  }

  /** A copy that a step adds is sent by the node that hears. */
  lemma NewCopy(w: World, e: Event, ip: Ip, m: Message)
    requires Enabled(w, e) && Copy(ip, m) in After(w, e).air && Copy(ip, m) !in w.air
    ensures e.Hears? && e.at == ip && m in React(w.nodes[ip], InputOf(e.copy)).sent
  {
  }

  lemma OneTbStays(w: World, row: seq<Ip>, b: seq<byte>, e: Event)
    requires Row(w, row, b) && OneTb(w, row, b) && Enabled(w, e) && InRow(row, e)
    ensures OneTb(After(w, e), row, b)
  {
    var t := After(w, e);
    forall i, p | 0 <= i < |row| && Copy(row[i], Tb(p)) in t.air
      ensures p == Stamped(b, row[i])
    {
      if Copy(row[i], Tb(p)) in w.air {
        assert SentOnly(w, row[i], b);
      } else {
        NewCopy(w, e, row[i], Tb(p));
        assert i > 0;
        SendsTb(w, row, b, e, i, p);
      }
    }
    forall i | 0 <= i < |row|
      ensures SentOnly(t, row[i], b)
    {
    }
  }

  /** It would relay `b`, and without a wrap of its PBID. */
  predicate PassesTb(s: NodeState, b: seq<byte>)
    requires Readable(b)
  {
    RelaysTb(s, b) && NoWrap(s, HeardTb(b))
  }

  /** A slave that has taken `b` without relaying it does not relay it the next time. */
  lemma StillNoRelay(s: NodeState, b: seq<byte>, place: nat)
    requires Readable(b) && place < |Ips(b)| && !Relays(s, b, place)
    requires AsksForTa(b, place) ==> -32768 <= s.tbPbid < 32767
    ensures var t := Taken(s, b, place).state;
      Relays(t, b, place) ==> AsksForTa(b, place) && t.tbPbid == 32767
  {
  }

  lemma StillNoPassing(s: NodeState, b: seq<byte>, i: Input)
    requires Readable(b) && Sender(b) != s.ip && !PassesTb(s, b)
    requires i.HeardTa? || (i == HeardTb(b) && NoWrap(s, i))
    ensures !PassesTb(React(s, i).state, b)
  {
    if i.HeardTb? && TakesPart(s, b) {
      StillNoRelay(s, b, First(Ips(b), s.ip));
    }
  }

  // ---------------------------------------------------------------- gaps

  /** It would answer `b`, and without a wrap of its PBID. */
  predicate GivesTa(s: NodeState, b: seq<byte>)
    requires Readable(b)
  {
    AnswersTb(s, b) && NoWrap(s, HeardTb(b))
  }

  function Leaf(row: seq<Ip>): Ip
    requires row != []
  {
    row[|row| - 1]
  }

  ghost predicate NoAnswer(w: World, ip: Ip, b: seq<byte>)
    requires Readable(b)
  {
    ip in w.nodes && !GivesTa(w.nodes[ip], b)
  }

  /** Position `j` would not relay `b`, which has not got past it. */
  ghost predicate RelayGap(w: World, row: seq<Ip>, b: seq<byte>, j: nat) {
    && Row(w, row, b) && OneTb(w, row, b) && 0 < j < |row| - 1 && !PassesTb(w.nodes[row[j]], b)
    && NoTbFrom(w, row, j) && NoTaUpTo(w, row, Leaf(row), |row| - 1)
  }

  /** The leaf would not answer. */
  ghost predicate AnswerGap(w: World, row: seq<Ip>, b: seq<byte>) {
    && Row(w, row, b) && OneTb(w, row, b) && NoAnswer(w, Leaf(row), b)
    && NoTaUpTo(w, row, Leaf(row), |row| - 1)
  }

  /** Position `j` does not list the leaf, whose TA has not got past it. */
  ghost predicate ListGap(w: World, row: seq<Ip>, b: seq<byte>, j: nat) {
    && Row(w, row, b) && OneTb(w, row, b) && 0 < j < |row| - 1 && Leaf(row) !in w.nodes[row[j]].subs
    && NoTaUpTo(w, row, Leaf(row), j)
  }

  ghost predicate Gap(w: World, row: seq<Ip>, b: seq<byte>, j: nat) {
    RelayGap(w, row, b, j) || AnswerGap(w, row, b) || ListGap(w, row, b, j)
  }

  /** What a node of the row hears as a TB has the effect of `b`. */
  lemma SameEffect(w: World, row: seq<Ip>, b: seq<byte>, e: Event, i: nat)
    requires Row(w, row, b) && OneTb(w, row, b) && HearsAt(w, row, e, i) && e.copy.message.Tb?
    ensures var s := w.nodes[row[i]];
      NoWrap(s, HeardTb(b)) && React(s, InputOf(e.copy)) == React(s, HeardTb(b))
  {
    assert Slave(w, row[i], b);
    HeardIsB(w, row, b, e, i);
    StampIsNothing(w.nodes[row[i]], b, e.copy.sender);
  }

  lemma NoPassingStays(w: World, row: seq<Ip>, b: seq<byte>, e: Event, i: nat)
    requires Row(w, row, b) && OneTb(w, row, b) && Enabled(w, e) && InRow(row, e)
    requires 0 < i < |row| && !PassesTb(w.nodes[row[i]], b)
    ensures row[i] in After(w, e).nodes && !PassesTb(After(w, e).nodes[row[i]], b)
  {
    assert Slave(w, row[i], b);
    if e.Hears? && e.at == row[i] {
      if e.copy.message.Tb? {
        SameEffect(w, row, b, e, i);
        StillNoPassing(w.nodes[row[i]], b, HeardTb(b));
      } else {
        StillNoPassing(w.nodes[row[i]], b, InputOf(e.copy));
      }
    }
  }

  /** A slave that would not answer `b` would not after hearing it, or a TA. */
  lemma StillNoAnswer(s: NodeState, b: seq<byte>, i: Input)
    requires Readable(b) && !GivesTa(s, b) && (i.HeardTa? || (i == HeardTb(b) && NoWrap(s, i)))
    ensures !GivesTa(React(s, i).state, b)
  {
  }

  lemma HearingNoAnswer(w: World, row: seq<Ip>, b: seq<byte>, e: Event)
    requires Row(w, row, b) && OneTb(w, row, b) && HearsAt(w, row, e, |row| - 1) && NoAnswer(w, Leaf(row), b)
    ensures !GivesTa(React(w.nodes[Leaf(row)], InputOf(e.copy)).state, b)
  {
    var s := w.nodes[Leaf(row)];
    if e.copy.message.Tb? {
      SameEffect(w, row, b, e, |row| - 1);
      StillNoAnswer(s, b, HeardTb(b));
    } else {
      StillNoAnswer(s, b, InputOf(e.copy));
    }
  }

  lemma NoAnswerStays(w: World, row: seq<Ip>, b: seq<byte>, e: Event)
    requires Row(w, row, b) && OneTb(w, row, b) && Enabled(w, e) && InRow(row, e) && NoAnswer(w, Leaf(row), b)
    ensures NoAnswer(After(w, e), Leaf(row), b)
  {
    if e.Hears? && e.at == Leaf(row) {
      HearingNoAnswer(w, row, b, e);
    }
  }

  lemma SenderOf(w: World, row: seq<Ip>, b: seq<byte>, e: Event, i: nat, m: Message)
    requires Row(w, row, b) && Enabled(w, e) && InRow(row, e) && i < |row|
    requires Copy(row[i], m) in After(w, e).air && Copy(row[i], m) !in w.air
    ensures HearsAt(w, row, e, i) && m in React(w.nodes[row[i]], InputOf(e.copy)).sent
  {
    NewCopy(w, e, row[i], m);
  }

  lemma NoTbStays(w: World, row: seq<Ip>, b: seq<byte>, e: Event, j: nat)
    requires RelayGap(w, row, b, j) && Enabled(w, e) && InRow(row, e)
    ensures NoTbFrom(After(w, e), row, j)
  {
    forall i | j <= i < |row|
      ensures !SentTb(After(w, e), row[i])
    {
      assert !SentTb(w, row[i]);
      if p :| Copy(row[i], Tb(p)) in After(w, e).air {
        SenderOf(w, row, b, e, i, Tb(p));
        SendsTb(w, row, b, e, i, p);
        SameEffect(w, row, b, e, i);
        assert SentTb(w, e.copy.sender);
      }
    }
  }

  /** No position up to `k` sends a TA of the leaf, unless it is the leaf on hearing `b`. */
  lemma NoTaStays(w: World, row: seq<Ip>, b: seq<byte>, e: Event, k: nat)
    requires Row(w, row, b) && OneTb(w, row, b) && Enabled(w, e) && InRow(row, e)
    requires NoTaUpTo(w, row, Leaf(row), k)
    requires k == |row| - 1 || (0 < k < |row| - 1 && Leaf(row) !in w.nodes[row[k]].subs)
    requires k == |row| - 1 && HearsAt(w, row, e, k) && e.copy.message.Tb? ==> NoAnswer(w, Leaf(row), b)
    ensures NoTaUpTo(After(w, e), row, Leaf(row), k)
  {
    var leaf := Leaf(row);
    forall i | 0 <= i < |row| && i <= k
      ensures !SentTa(After(w, e), row[i], leaf)
    {
      assert !SentTa(w, row[i], leaf);
      if p :| Copy(row[i], Ta(leaf, p)) in After(w, e).air {
        SenderOf(w, row, b, e, i, Ta(leaf, p));
        SendsTa(w, row, b, e, i, leaf, p);
        if e.copy.message.Tb? {
          SameEffect(w, row, b, e, i);
        } else {
          assert SentTa(w, e.copy.sender, leaf);
        }
      }
    }
  }

  lemma LinedStays(w: World, row: seq<Ip>, b: seq<byte>, e: Event)
    requires Row(w, row, b) && OneTb(w, row, b) && Enabled(w, e) && InRow(row, e)
    ensures Row(After(w, e), row, b) && OneTb(After(w, e), row, b)
  {
    RowStays(w, row, b, e);
    OneTbStays(w, row, b, e);
  }

  lemma LeafIsDeaf(w: World, row: seq<Ip>, b: seq<byte>, j: nat, e: Event)
    requires RelayGap(w, row, b, j)
    ensures !(HearsAt(w, row, e, |row| - 1) && e.copy.message.Tb?)
  {
  }

  lemma RelayGapStays(w: World, row: seq<Ip>, b: seq<byte>, j: nat, e: Event)
    requires RelayGap(w, row, b, j) && Enabled(w, e) && InRow(row, e)
    ensures RelayGap(After(w, e), row, b, j)
  {
    LinedStays(w, row, b, e);
    NoPassingStays(w, row, b, e, j);
    NoTbStays(w, row, b, e, j);
    LeafIsDeaf(w, row, b, j, e);
    NoTaStays(w, row, b, e, |row| - 1);
  }

  lemma StillNoTa(w: World, row: seq<Ip>, b: seq<byte>, e: Event)
    requires AnswerGap(w, row, b) && Enabled(w, e) && InRow(row, e)
    ensures NoTaUpTo(After(w, e), row, Leaf(row), |row| - 1)
  {
    NoTaStays(w, row, b, e, |row| - 1);
  }

  lemma AnswerGapStays(w: World, row: seq<Ip>, b: seq<byte>, e: Event)
    requires AnswerGap(w, row, b) && Enabled(w, e) && InRow(row, e)
    ensures AnswerGap(After(w, e), row, b)
  {
    LinedStays(w, row, b, e);
    NoAnswerStays(w, row, b, e);
    StillNoTa(w, row, b, e);
  }

  lemma ListGapStays(w: World, row: seq<Ip>, b: seq<byte>, j: nat, e: Event)
    requires ListGap(w, row, b, j) && Enabled(w, e) && InRow(row, e)
    ensures ListGap(After(w, e), row, b, j)
  {
    RowStays(w, row, b, e);
    OneTbStays(w, row, b, e);
    assert SamePlace(w.nodes[row[j]], After(w, e).nodes[row[j]]);
    NoTaStays(w, row, b, e, j);
  }

  lemma GapStays(w: World, row: seq<Ip>, b: seq<byte>, j: nat, e: Event)
    requires Gap(w, row, b, j) && Enabled(w, e) && InRow(row, e)
    ensures Gap(After(w, e), row, b, j)
  {
    if RelayGap(w, row, b, j) {
      RelayGapStays(w, row, b, j, e);
    } else if AnswerGap(w, row, b) {
      AnswerGapStays(w, row, b, e);
    } else {
      ListGapStays(w, row, b, j, e);
    }
  }

  lemma GapMeansNoCopy(w: World, row: seq<Ip>, b: seq<byte>, j: nat)
    requires Gap(w, row, b, j)
    ensures |row| > 1 && !SentTa(w, row[1], Leaf(row))
  {
  }

  lemma NotCounted(w: World, row: seq<Ip>, e: Event)
    requires |row| > 1 && !SentTa(w, row[1], Leaf(row)) && Leaf(row) !in w.heard
    requires Enabled(w, e) && InRow(row, e)
    ensures Leaf(row) !in After(w, e).heard
  {
  }

  /** Behind a gap the leaf's TA never gets to the master, over every run. */
  lemma {:induction false} GapForever(w: World, row: seq<Ip>, b: seq<byte>, j: nat, events: seq<Event>)
    requires Gap(w, row, b, j) && Leaf(row) !in w.heard && Runs(w, row, events)
    ensures Leaf(row) !in End(w, row, events).heard
    decreases |events|
  {
    if events != [] {
      var e := events[0];
      GapStays(w, row, b, j, e);
      GapMeansNoCopy(w, row, b, j);
      NotCounted(w, row, e);
      GapForever(After(w, e), row, b, j, events[1..]);
    }
  }

  // ---------------------------------------------------------------- out along the row

  function Took(s: NodeState, b: seq<byte>): NodeState
    requires Readable(b)
  {
    React(s, HeardTb(b)).state
  }

  /** Position `i` hears the TB of the one before. */
  function Down(row: seq<Ip>, b: seq<byte>, i: nat): Event
    requires 0 < i < |row| && Readable(b)
  {
    Hears(row[i], Copy(row[i - 1], Tb(Stamped(b, row[i - 1]))))
  }

  lemma HearingB(s: NodeState, b: seq<byte>, x: Ip)
    requires Readable(b) && x != s.ip && Sender(b) != s.ip && NoWrap(s, HeardTb(b))
    ensures Readable(Stamped(b, x)) && NoWrap(s, HeardTb(Stamped(b, x)))
    ensures var r := React(s, HeardTb(Stamped(b, x)));
      && r.state == Took(s, b) && (RelaysTb(s, b) ==> Tb(Stamped(b, s.ip)) in r.sent)
      && (AnswersTb(s, b) ==> Ta(s.ip, s.tbPbid) in r.sent)
  {
    StampIsNothing(s, b, x);
    SentExactly(s, HeardTb(b));
  }

  lemma Heard(w: World, at: Ip, c: Copy, m: Message)
    requires Enabled(w, Hears(at, c)) && m in React(w.nodes[at], InputOf(c)).sent
    ensures Copy(at, m) in After(w, Hears(at, c)).air
  {
  }

  lemma DownStep(w: World, row: seq<Ip>, b: seq<byte>, i: nat)
    requires Row(w, row, b) && 0 < i < |row| && Copy(row[i - 1], Tb(Stamped(b, row[i - 1]))) in w.air
    requires row[i] in w.nodes && NoWrap(w.nodes[row[i]], HeardTb(b))
    ensures Enabled(w, Down(row, b, i)) && InRow(row, Down(row, b, i))
    ensures var s, t := w.nodes[row[i]], After(w, Down(row, b, i));
      && t == w.(nodes := w.nodes[row[i] := Took(s, b)], air := t.air) && w.air <= t.air
      && (RelaysTb(s, b) ==> Copy(row[i], Tb(Stamped(b, row[i]))) in t.air)
      && (AnswersTb(s, b) ==> Copy(row[i], Ta(row[i], s.tbPbid)) in t.air)
  {
    var s, e := w.nodes[row[i]], Down(row, b, i);
    assert Slave(w, row[i], b) && Beside(row, i, row[i - 1]);
    HearingB(s, b, row[i - 1]);
    if RelaysTb(s, b) {
      Heard(w, row[i], e.copy, Tb(Stamped(b, row[i])));
    }
    if AnswersTb(s, b) {
      Heard(w, row[i], e.copy, Ta(row[i], s.tbPbid));
    }
  }

  ghost predicate TookIf(w: World, t: World, ip: Ip, b: seq<byte>, took: bool)
    requires Readable(b)
  {
    ip in w.nodes && ip in t.nodes && t.nodes[ip] == if took then Took(w.nodes[ip], b) else w.nodes[ip]
  }

  /** From position `i` on all have heard `b`, and nothing else has happened to the row. */
  ghost predicate Flooded(w: World, t: World, row: seq<Ip>, b: seq<byte>, i: nat)
    requires Readable(b)
  {
    t.master == w.master && t.heard == w.heard && forall j | 0 < j < |row| :: TookIf(w, t, row[j], b, j >= i)
  }

  lemma FloodedFrom(w: World, s: World, t: World, row: seq<Ip>, b: seq<byte>, i: nat)
    requires Row(w, row, b) && 0 < i < |row| && s.master == w.master && s.heard == w.heard
    requires s.nodes == w.nodes[row[i] := Took(w.nodes[row[i]], b)] && Flooded(s, t, row, b, i + 1)
    ensures Flooded(w, t, row, b, i)
  {
    forall j | 0 < j < |row|
      ensures TookIf(w, t, row[j], b, j >= i)
    {
      assert Slave(w, row[j], b) && TookIf(s, t, row[j], b, j >= i + 1);
    }
  }

  /** Positions from `i` on pass `b`, and the leaf answers it. */
  ghost predicate Open(w: World, row: seq<Ip>, b: seq<byte>, i: nat)
    requires Readable(b) && row != []
  {
    && (forall j | i <= j < |row| - 1 :: PassesAt(w, row[j], b))
    && Leaf(row) in w.nodes && GivesTa(w.nodes[Leaf(row)], b)
  }

  ghost predicate PassesAt(w: World, ip: Ip, b: seq<byte>)
    requires Readable(b)
  {
    ip in w.nodes && PassesTb(w.nodes[ip], b)
  }

  lemma OpenBehind(w: World, s: World, row: seq<Ip>, b: seq<byte>, i: nat)
    requires Row(w, row, b) && 0 < i < |row| - 1 && Open(w, row, b, i)
    requires s.nodes == w.nodes[row[i] := Took(w.nodes[row[i]], b)]
    ensures Open(s, row, b, i + 1)
  {
    forall j | i + 1 <= j < |row| - 1
      ensures PassesAt(s, row[j], b)
    {
      assert PassesAt(w, row[j], b);
    }
  }

  lemma NothingFlooded(w: World, row: seq<Ip>, b: seq<byte>)
    requires Row(w, row, b)
    ensures Flooded(w, w, row, b, |row|)
  {
    forall j | 0 < j < |row|
      ensures TookIf(w, w, row[j], b, j >= |row|)
    {
      assert Slave(w, row[j], b);
    }
  }

  /** Position `i` hears the TB, and passes it on or, as the leaf, answers it. */
  lemma DownOne(w: World, row: seq<Ip>, b: seq<byte>, i: nat)
    requires Row(w, row, b) && 0 < i < |row| && Copy(row[i - 1], Tb(Stamped(b, row[i - 1]))) in w.air
    requires Open(w, row, b, i)
    ensures Enabled(w, Down(row, b, i)) && InRow(row, Down(row, b, i)) && row[i] in w.nodes
    ensures var t := After(w, Down(row, b, i));
      && Row(t, row, b) && t == w.(nodes := w.nodes[row[i] := Took(w.nodes[row[i]], b)], air := t.air) && w.air <= t.air
      && if i < |row| - 1 then Open(t, row, b, i + 1) && Copy(row[i], Tb(Stamped(b, row[i]))) in t.air
                               && Leaf(row) in t.nodes && t.nodes[Leaf(row)] == w.nodes[Leaf(row)]
         else Copy(Leaf(row), Ta(Leaf(row), w.nodes[Leaf(row)].tbPbid)) in t.air
  {
    assert i < |row| - 1 ==> PassesAt(w, row[i], b);
    DownStep(w, row, b, i);
    RowStays(w, row, b, Down(row, b, i));
    if i < |row| - 1 {
      OpenBehind(w, After(w, Down(row, b, i)), row, b, i);
    }
  }

  /** From position `i` the TB floods to the leaf, which answers. */
  lemma {:induction false} FloodsDown(w: World, row: seq<Ip>, b: seq<byte>, i: nat) returns (events: seq<Event>)
    requires Row(w, row, b) && 0 < i < |row| && Copy(row[i - 1], Tb(Stamped(b, row[i - 1]))) in w.air
    requires Open(w, row, b, i)
    ensures Runs(w, row, events)
    ensures var t := End(w, row, events);
      && Row(t, row, b) && Flooded(w, t, row, b, i)
      && Copy(Leaf(row), Ta(Leaf(row), w.nodes[Leaf(row)].tbPbid)) in t.air
      && Copy(row[|row| - 2], Tb(Stamped(b, row[|row| - 2]))) in t.air
    ensures Hearings(events, Leaf(row)) == 1
    decreases |row| - i
  {
    var e := Down(row, b, i);
    DownOne(w, row, b, i);
    var s := After(w, e);
    var rest := [];
    if i + 1 < |row| {
      rest := FloodsDown(s, row, b, i + 1);
    } else {
      NothingFlooded(s, row, b);
    }
    FloodedFrom(w, s, End(s, row, rest), row, b, i);
    Prepended(w, row, e, rest);
    events := [e] + rest;
  }

  // ---------------------------------------------------------------- and back

  /** Position `i` hears the TA of the one behind. */
  function Up(row: seq<Ip>, i: nat, p: int): Event
    requires i + 1 < |row|
  {
    var c := Copy(row[i + 1], Ta(Leaf(row), p));
    if i == 0 then Counts(c, 0) else Hears(row[i], c)
  }

  ghost predicate CanForward(w: World, ip: Ip, leaf: Ip, p: int) {
    ip in w.nodes && ForwardsTa(w.nodes[ip], leaf, p)
  }

  ghost predicate AllForward(w: World, row: seq<Ip>, i: nat, p: int) {
    i < |row| && forall j | 0 < j <= i :: CanForward(w, row[j], Leaf(row), p)
  }

  lemma UpStep(w: World, row: seq<Ip>, b: seq<byte>, i: nat, p: int)
    requires Row(w, row, b) && 0 < i < |row| - 1 && Copy(row[i + 1], Ta(Leaf(row), p)) in w.air
    requires CanForward(w, row[i], Leaf(row), p)
    ensures Enabled(w, Up(row, i, p)) && InRow(row, Up(row, i, p))
    ensures var t := After(w, Up(row, i, p));
      && t.master == w.master && Copy(row[i], Ta(Leaf(row), p)) in t.air
      && forall ip | ip in w.nodes && ip != row[i] :: ip in t.nodes && t.nodes[ip] == w.nodes[ip]
  {
    assert Slave(w, row[i], b);
    assert Beside(row, i, row[i + 1]);
    SentExactly(w.nodes[row[i]], InputOf(Copy(row[i + 1], Ta(Leaf(row), p))));
  }

  /** From position `i` the TA of the leaf gets to the master. */
  lemma {:induction false} ClimbsUp(w: World, row: seq<Ip>, b: seq<byte>, i: nat, p: int) returns (events: seq<Event>)
    requires Row(w, row, b) && i < |row| - 1 && Copy(row[i + 1], Ta(Leaf(row), p)) in w.air
    requires AllForward(w, row, i, p)
    ensures Runs(w, row, events) && Leaf(row) in End(w, row, events).heard && Hearings(events, Leaf(row)) == 0
    decreases i
  {
    var e := Up(row, i, p);
    var rest := [];
    if i > 0 {
      assert CanForward(w, row[i], Leaf(row), p);
      UpStep(w, row, b, i, p);
      RowStays(w, row, b, e);
      rest := ClimbsUp(After(w, e), row, b, i - 1, p);
    }
    Prepended(w, row, e, rest);
    events := [e] + rest;
  }

  lemma {:induction false} Appended(w: World, row: seq<Ip>, first: seq<Event>, second: seq<Event>)
    requires Runs(w, row, first) && Runs(End(w, row, first), row, second)
    ensures Runs(w, row, first + second) && End(w, row, first + second) == End(End(w, row, first), row, second)
    ensures forall ip :: Hearings(first + second, ip) == Hearings(first, ip) + Hearings(second, ip)
    decreases |first|
  {
    if first == [] {
      assert first + second == second;
    } else {
      Appended(After(w, first[0]), row, first[1..], second);
      assert (first + second)[0] == first[0] && (first + second)[1..] == first[1..] + second;
    }
  }
}
