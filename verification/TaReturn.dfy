/** Exactly when one sending of a TB brings the TA of the last node of a row back to the master. */
module TaReturn {
  import opened Bytes
  import opened TbFormat
  import opened Node
  import opened Flooding
  import opened TbRound
  import opened RoundTrip
  import Retransmission

  // ---------------------------------------------------------------- hearing the TB again

  /** The slave after it has heard `b` `k` times. */
  function Retook(s: NodeState, b: seq<byte>, k: nat): NodeState
    requires Readable(b)
  {
    if k == 0 then s else Took(Retook(s, b, k - 1), b)
  }

  lemma {:induction false} RetookFirst(s: NodeState, b: seq<byte>, k: nat)
    requires Readable(b)
    ensures Retook(Took(s, b), b, k) == Retook(s, b, k + 1)
  {
    if k > 0 {
      RetookFirst(s, b, k - 1);
    }
  }

  /** It answers each of the first `n` times. */
  ghost predicate GivesTas(s: NodeState, b: seq<byte>, n: nat)
    requires Readable(b)
  {
    forall k | 0 <= k < n :: GivesTa(Retook(s, b, k), b)
  }

  lemma GivesTasNext(s: NodeState, b: seq<byte>, n: nat)
    requires Readable(b) && n > 0 && GivesTas(s, b, n)
    ensures GivesTa(s, b) && GivesTas(Took(s, b), b, n - 1)
  {
    assert GivesTa(Retook(s, b, 0), b);
    forall k | 0 <= k < n - 1
      ensures GivesTa(Retook(Took(s, b), b, k), b)
    {
      RetookFirst(s, b, k);
      assert GivesTa(Retook(s, b, k + 1), b);
    }
  }

  /** The leaf hears the TB of the node before it. */
  lemma LeafHears(w: World, row: seq<Ip>, b: seq<byte>, s: NodeState)
    requires Row(w, row, b) && Copy(row[|row| - 2], Tb(Stamped(b, row[|row| - 2]))) in w.air
    requires Leaf(row) in w.nodes && s == w.nodes[Leaf(row)] && GivesTa(s, b)
    ensures var e := Down(row, b, |row| - 1);
      && Enabled(w, e) && InRow(row, e) && Row(After(w, e), row, b) && HearsTb(e, Leaf(row))
      && After(w, e) == w.(nodes := w.nodes[Leaf(row) := Took(s, b)], air := After(w, e).air)
      && w.air <= After(w, e).air && Copy(Leaf(row), Ta(Leaf(row), s.tbPbid)) in After(w, e).air
  {
    DownStep(w, row, b, |row| - 1);
    RowStays(w, row, b, Down(row, b, |row| - 1));
  }

  /** The PBID of the TA for the last of `n` times. */
  function LastPbid(s: NodeState, b: seq<byte>, n: nat): int
    requires Readable(b)
  {
    if n > 0 then Retook(s, b, n - 1).tbPbid else s.tbPbid
  }

  lemma LastPbidFirst(s: NodeState, b: seq<byte>, n: nat)
    requires Readable(b) && n > 1
    ensures LastPbid(Took(s, b), b, n - 1) == LastPbid(s, b, n)
  {
    RetookFirst(s, b, n - 2);
  }

  /** Only the leaf has changed, to `s`; and, if `sent`, it has sent its TA with `p`. */
  ghost predicate OnlyLeaf(w: World, t: World, leaf: Ip, s: NodeState, sent: bool, p: int) {
    t == w.(nodes := w.nodes[leaf := s], air := t.air) && w.air <= t.air && (sent ==> Copy(leaf, Ta(leaf, p)) in t.air)
  }

  lemma OnlyLeafTwice(w: World, v: World, t: World, leaf: Ip, r: NodeState, s: NodeState, sent: bool, p: int, q: int)
    requires OnlyLeaf(w, v, leaf, r, true, p) && OnlyLeaf(v, t, leaf, s, sent, q) && (!sent ==> p == q)
    ensures OnlyLeaf(w, t, leaf, s, true, q)
  {
  }

  /** The leaf hears the TB of the node before it `n` more times, and sends the TA for the last of them. */
  lemma {:induction false} HearsAgain(w: World, row: seq<Ip>, b: seq<byte>, n: nat, s: NodeState)
    returns (events: seq<Event>)
    requires Row(w, row, b) && Copy(row[|row| - 2], Tb(Stamped(b, row[|row| - 2]))) in w.air
    requires Leaf(row) in w.nodes && s == w.nodes[Leaf(row)] && GivesTas(s, b, n)
    ensures Runs(w, row, events) && Hearings(events, Leaf(row)) == n && Row(End(w, row, events), row, b)
    ensures OnlyLeaf(w, End(w, row, events), Leaf(row), Retook(s, b, n), n > 0, LastPbid(s, b, n))
    decreases n
  {
    events := [];
    if n > 0 {
      var e, r := Down(row, b, |row| - 1), Took(s, b);
      GivesTasNext(s, b, n);
      LeafHears(w, row, b, s);
      var v := After(w, e);
      var rest := HearsAgain(v, row, b, n - 1, r);
      RetookFirst(s, b, n - 1);
      if n > 1 {
        LastPbidFirst(s, b, n);
      }
      OnlyLeafTwice(w, v, End(v, row, rest), Leaf(row), r, Retook(s, b, n), n > 1, s.tbPbid, LastPbid(s, b, n));
      Prepended(w, row, e, rest);
      events := [e] + rest;
    }
  }

  // ---------------------------------------------------------------- where a TA has got

  /** The TAs of `leaf` that the node has recorded, if it still has them after hearing `b`, are older than `p`. */
  predicate Older(s: NodeState, b: seq<byte>, leaf: Ip, p: int)
    requires Readable(b)
  {
    IsNew(s, b) || leaf !in s.taSeen || s.taSeen[leaf] < p
  }

  ghost predicate OlderAt(w: World, ip: Ip, b: seq<byte>, leaf: Ip, p: int)
    requires Readable(b)
  {
    ip in w.nodes && Older(w.nodes[ip], b, leaf, p)
  }

  /** The parts of a slave on which its answers depend are the same. */
  predicate Alike(s: NodeState, t: NodeState) {
    SamePlace(s, t) && t.tbPbid == s.tbPbid && t.previous == s.previous
  }

  lemma AlikeTaken(s: NodeState, t: NodeState, b: seq<byte>, place: nat)
    requires Readable(b) && place < |Ips(b)| && Alike(s, t)
    ensures Alike(Taken(s, b, place).state, Taken(t, b, place).state)
  {
  }

  lemma AlikeTook(s: NodeState, t: NodeState, b: seq<byte>)
    requires Readable(b) && Alike(s, t)
    ensures Alike(Took(s, b), Took(t, b))
  {
    if TakesPart(s, b) {
      AlikeTaken(s, t, b, First(Ips(b), s.ip));
    }
  }

  lemma SamePlaceAnswers(s: NodeState, t: NodeState, b: seq<byte>)
    requires Readable(b) && SamePlace(s, t)
    ensures AnswersTb(s, b) <==> AnswersTb(t, b)
  {
  }

  lemma AlikeAnswers(s: NodeState, t: NodeState, b: seq<byte>)
    requires Readable(b) && Alike(s, t)
    ensures (AnswersTb(s, b) <==> AnswersTb(t, b)) && (NoWrap(s, HeardTb(b)) <==> NoWrap(t, HeardTb(b)))
  {
    SamePlaceAnswers(s, t, b);
  }

  lemma TookAnswers(s: NodeState, b: seq<byte>)
    requires Readable(b)
    ensures SamePlace(s, Took(s, b)) && (AnswersTb(Took(s, b), b) <==> AnswersTb(s, b))
  {
    SamePlaceAnswers(s, Took(s, b), b);
  }

  /** What a slave knew of the timetable and of the leaf's TAs it still knows, or something newer. */
  predicate Keeps(s: NodeState, t: NodeState, b: seq<byte>, leaf: Ip)
    requires Readable(b)
  {
    !IsNew(s, b) ==>
      !IsNew(t, b) && (leaf in s.taSeen ==> leaf in t.taSeen && s.taSeen[leaf] <= t.taSeen[leaf])
  }

  lemma KeepsTook(s: NodeState, b: seq<byte>, leaf: Ip)
    requires Readable(b)
    ensures Keeps(s, Took(s, b), b, leaf)
  {
  }

  lemma KeepsTa(s: NodeState, c: Copy, b: seq<byte>, leaf: Ip)
    requires Readable(b) && c.message.Ta?
    ensures Keeps(s, React(s, InputOf(c)).state, b, leaf) && Alike(s, React(s, InputOf(c)).state)
  {
  }

  ghost predicate KeepsAt(start: World, w: World, ip: Ip, b: seq<byte>, leaf: Ip)
    requires Readable(b)
  {
    ip in start.nodes && ip in w.nodes && Keeps(start.nodes[ip], w.nodes[ip], b, leaf)
  }

  /** From position `i` on, no node in between had recorded anything of the leaf that is not older than `p`. */
  ghost predicate OlderFrom(w: World, row: seq<Ip>, b: seq<byte>, i: nat, p: int)
    requires Readable(b) && row != []
  {
    forall j | 0 < j < |row| - 1 && i <= j :: OlderAt(w, row[j], b, Leaf(row), p)
  }

  /** A TA of the leaf with `p` can have got to position `i`, if the leaf has given the PBIDs `given`. */
  ghost predicate CanBe(start: World, row: seq<Ip>, b: seq<byte>, given: set<int>, i: nat, p: int) {
    Readable(b) && row != [] && p in given && OlderFrom(start, row, b, i, p)
  }

  ghost predicate TaAt(start: World, w: World, row: seq<Ip>, b: seq<byte>, given: set<int>, i: nat)
    requires i < |row|
  {
    forall p | Copy(row[i], Ta(Leaf(row), p)) in w.air :: CanBe(start, row, b, given, i, p)
  }

  /** The leaf is as `s` and has given the PBIDs `given`; no TA of it has got past a record that is not older. */
  ghost predicate Traced(start: World, w: World, row: seq<Ip>, b: seq<byte>, s: NodeState, given: set<int>) {
    && Row(w, row, b) && OneTb(w, row, b) && Leaf(row) in w.nodes && Alike(s, w.nodes[Leaf(row)])
    && (forall j | 0 < j < |row| - 1 :: KeepsAt(start, w, row[j], b, Leaf(row)))
    && !SentTa(w, row[0], Leaf(row)) && (forall i | 0 < i < |row| :: TaAt(start, w, row, b, given, i))
    && (Leaf(row) in w.heard ==> exists p :: CanBe(start, row, b, given, 1, p))
  }

  /** What a step makes of the leaf, and of the PBIDs that it has given. */
  function StateAfter(s: NodeState, b: seq<byte>, e: Event): NodeState
    requires Readable(b)
  {
    if HearsTb(e, s.ip) then Took(s, b) else s
  }

  function GivenAfter(given: set<int>, s: NodeState, e: Event): set<int> {
    if HearsTb(e, s.ip) then given + {s.tbPbid} else given
  }

  lemma OlderFurther(w: World, row: seq<Ip>, b: seq<byte>, i: nat, j: nat, p: int)
    requires Readable(b) && row != [] && OlderFrom(w, row, b, i, p) && i <= j + 1
    requires 0 < j < |row| - 1 && j < i ==> OlderAt(w, row[j], b, Leaf(row), p)
    ensures OlderFrom(w, row, b, j, p)
  {
    forall k | 0 < k < |row| - 1 && j <= k
      ensures OlderAt(w, row[k], b, Leaf(row), p)
    {
      assert k == j || i <= k;
    }
  }

  lemma CanBeLater(start: World, row: seq<Ip>, b: seq<byte>, given: set<int>, more: set<int>, i: nat, j: nat, p: int)
    requires CanBe(start, row, b, given, i, p) && given <= more && i <= j + 1
    requires 0 < j < |row| - 1 && j < i ==> OlderAt(start, row[j], b, Leaf(row), p)
    ensures CanBe(start, row, b, more, j, p)
  {
    OlderFurther(start, row, b, i, j, p);
  }

  lemma LeafTraced(start: World, w: World, row: seq<Ip>, b: seq<byte>, s: NodeState, given: set<int>, e: Event)
    requires Traced(start, w, row, b, s, given) && Enabled(w, e) && InRow(row, e)
    ensures Leaf(row) in After(w, e).nodes && Alike(StateAfter(s, b, e), After(w, e).nodes[Leaf(row)])
    ensures HearsTb(e, Leaf(row)) ==> NoWrap(s, HeardTb(b))
  {
    var t, i := w.nodes[Leaf(row)], |row| - 1;
    assert Slave(w, row[i], b);
    if e.Hears? && e.at == row[i] {
      if e.copy.message.Tb? {
        SameEffect(w, row, b, e, i);
        AlikeTook(s, t, b);
        AlikeAnswers(s, t, b);
      } else {
        KeepsTa(t, e.copy, b, Leaf(row));
      }
    }
  }

  lemma KeepsTwice(s: NodeState, t: NodeState, u: NodeState, b: seq<byte>, leaf: Ip)
    requires Readable(b) && Keeps(s, t, b, leaf) && Keeps(t, u, b, leaf)
    ensures Keeps(s, u, b, leaf)
  {
  }

  lemma NodeTraced(start: World, w: World, row: seq<Ip>, b: seq<byte>, s: NodeState, given: set<int>, e: Event, j: nat)
    requires Traced(start, w, row, b, s, given) && Enabled(w, e) && InRow(row, e) && 0 < j < |row| - 1
    ensures KeepsAt(start, After(w, e), row[j], b, Leaf(row))
  {
    assert Slave(w, row[j], b) && KeepsAt(start, w, row[j], b, Leaf(row));
    if e.Hears? && e.at == row[j] {
      if e.copy.message.Tb? {
        SameEffect(w, row, b, e, j);
        KeepsTook(w.nodes[row[j]], b, Leaf(row));
      } else {
        KeepsTa(w.nodes[row[j]], e.copy, b, Leaf(row));
      }
      KeepsTwice(start.nodes[row[j]], w.nodes[row[j]], After(w, e).nodes[row[j]], b, Leaf(row));
    }
  }

  /** A node in between that forwards a TA had recorded nothing that is not older. */
  lemma ForwardedIsOlder(start: World, w: World, ip: Ip, b: seq<byte>, leaf: Ip, p: int)
    requires Readable(b) && KeepsAt(start, w, ip, b, leaf) && ForwardsTa(w.nodes[ip], leaf, p)
    ensures OlderAt(start, ip, b, leaf, p)
  {
  }

  lemma NewTaTraced(
      start: World, w: World, row: seq<Ip>, b: seq<byte>, s: NodeState, given: set<int>, e: Event, i: nat, p: int)
    requires Traced(start, w, row, b, s, given) && Enabled(w, e) && InRow(row, e) && i < |row|
    requires Copy(row[i], Ta(Leaf(row), p)) in After(w, e).air && Copy(row[i], Ta(Leaf(row), p)) !in w.air
    ensures CanBe(start, row, b, GivenAfter(given, s, e), i, p)
  {
    var leaf := Leaf(row);
    assert Slave(w, row[|row| - 1], b);
    SenderOf(w, row, b, e, i, Ta(leaf, p));
    SendsTa(w, row, b, e, i, leaf, p);
    if e.copy.message.Ta? {
      assert SentTa(w, e.copy.sender, leaf);
      var from := if e.copy.sender == row[i - 1] then i - 1 else i + 1;
      assert TaAt(start, w, row, b, given, from);
      if i < |row| - 1 {
        assert KeepsAt(start, w, row[i], b, leaf);
        ForwardedIsOlder(start, w, row[i], b, leaf, p);
      }
      CanBeLater(start, row, b, given, given, from, i, p);
    }
  }

  lemma TaTraced(start: World, w: World, row: seq<Ip>, b: seq<byte>, s: NodeState, given: set<int>, e: Event, i: nat)
    requires Traced(start, w, row, b, s, given) && Enabled(w, e) && InRow(row, e) && 0 < i < |row|
    ensures TaAt(start, After(w, e), row, b, GivenAfter(given, s, e), i)
  {
    forall p | Copy(row[i], Ta(Leaf(row), p)) in After(w, e).air
      ensures CanBe(start, row, b, GivenAfter(given, s, e), i, p)
    {
      if Copy(row[i], Ta(Leaf(row), p)) in w.air {
        assert TaAt(start, w, row, b, given, i);
        CanBeLater(start, row, b, given, GivenAfter(given, s, e), i, i, p);
      } else {
        NewTaTraced(start, w, row, b, s, given, e, i, p);
      }
    }
  }

  lemma MasterTraced(start: World, w: World, row: seq<Ip>, b: seq<byte>, s: NodeState, given: set<int>, e: Event)
    requires Traced(start, w, row, b, s, given) && Enabled(w, e) && InRow(row, e)
    ensures !SentTa(After(w, e), row[0], Leaf(row))
    ensures Leaf(row) in After(w, e).heard ==> exists p :: CanBe(start, row, b, GivenAfter(given, s, e), 1, p)
  {
    if p :| Copy(row[0], Ta(Leaf(row), p)) in After(w, e).air {
      assert !SentTa(w, row[0], Leaf(row));
      NewCopy(w, e, row[0], Ta(Leaf(row), p));
    }
    if Leaf(row) in After(w, e).heard {
      var p;
      if Leaf(row) in w.heard {
        p :| CanBe(start, row, b, given, 1, p);
      } else {
        p := e.copy.message.pbid;
        assert TaAt(start, w, row, b, given, 1);
      }
      CanBeLater(start, row, b, given, GivenAfter(given, s, e), 1, 1, p);
    }
  }

  lemma StepTraced(start: World, w: World, row: seq<Ip>, b: seq<byte>, s: NodeState, given: set<int>, e: Event)
    requires Traced(start, w, row, b, s, given) && Enabled(w, e) && InRow(row, e)
    ensures Traced(start, After(w, e), row, b, StateAfter(s, b, e), GivenAfter(given, s, e))
    ensures s.ip == Leaf(row) && (HearsTb(e, Leaf(row)) ==> NoWrap(s, HeardTb(b)))
  {
    LinedStays(w, row, b, e);
    LeafTraced(start, w, row, b, s, given, e);
    MasterTraced(start, w, row, b, s, given, e);
    assert Slave(w, row[|row| - 1], b);
    forall j | 0 < j < |row| - 1
      ensures KeepsAt(start, After(w, e), row[j], b, Leaf(row))
    {
      NodeTraced(start, w, row, b, s, given, e, j);
    }
    forall i | 0 < i < |row|
      ensures TaAt(start, After(w, e), row, b, GivenAfter(given, s, e), i)
    {
      TaTraced(start, w, row, b, s, given, e, i);
    }
  }

  /** Slave `s` hears `b` as often as there are PBIDs, gives them in its answers, and becomes `t`. */
  ghost predicate Replays(s: NodeState, b: seq<byte>, given: seq<int>, t: NodeState)
    requires Readable(b)
    decreases |given|
  {
    if given == [] then t == s
    else given[0] == s.tbPbid && NoWrap(s, HeardTb(b)) && Replays(Took(s, b), b, given[1..], t)
  }

  function Members(given: seq<int>): set<int> {
    set p | p in given
  }

  lemma OneMoreGiven(given: set<int>, p: int, rest: seq<int>)
    ensures ([p] + rest)[0] == p && ([p] + rest)[1..] == rest
    ensures given + Members([p] + rest) == given + {p} + Members(rest)
  {
  }

  /** What was recorded in between is still known. */
  ghost predicate AllKeep(start: World, w: World, row: seq<Ip>, b: seq<byte>)
    requires Readable(b) && row != []
  {
    forall j | 0 < j < |row| - 1 :: KeepsAt(start, w, row[j], b, Leaf(row))
  }

  /**
   * Over every run the leaf's TA gets to the master only with a PBID that the leaf has given and
   * that was newer than all that was recorded in between.
   */
  lemma {:induction false} RunTraced(
      start: World, w: World, row: seq<Ip>, b: seq<byte>, s: NodeState, given: set<int>, events: seq<Event>)
    returns (more: seq<int>, t: NodeState)
    requires Traced(start, w, row, b, s, given) && Runs(w, row, events)
    ensures |more| == Hearings(events, Leaf(row)) && Replays(s, b, more, t)
    ensures Leaf(row) in End(w, row, events).heard ==> exists p :: CanBe(start, row, b, given + Members(more), 1, p)
    ensures Row(End(w, row, events), row, b) && AllKeep(start, End(w, row, events), row, b)
    ensures Leaf(row) in End(w, row, events).nodes && Alike(t, End(w, row, events).nodes[Leaf(row)])
    decreases |events|
  {
    more, t := [], s;
    if events == [] {
      assert given + Members(more) == given;
    } else {
      var e := events[0];
      StepTraced(start, w, row, b, s, given, e);
      var r, later := StateAfter(s, b, e), GivenAfter(given, s, e);
      var rest;
      rest, t := RunTraced(start, After(w, e), row, b, r, later, events[1..]);
      if HearsTb(e, Leaf(row)) {
        more := [s.tbPbid] + rest;
        OneMoreGiven(given, s.tbPbid, rest);
      } else {
        more := rest;
      }
    }
  }

  // ---------------------------------------------------------------- exactly

  /** The master has sent `b`, and nobody has heard it yet; all TAs of the leaf are gone. */
  ghost predicate JustSent(w: World, row: seq<Ip>, b: seq<byte>) {
    && Row(w, row, b) && OneTb(w, row, b) && Copy(row[0], Tb(b)) in w.air && NoTbFrom(w, row, 1)
    && NoTaUpTo(w, row, Leaf(row), |row| - 1) && Leaf(row) !in w.heard && Leaf(row) in w.nodes
  }

  /** The node relays `b`, and lists the leaf. */
  ghost predicate Serves(w: World, ip: Ip, b: seq<byte>, leaf: Ip)
    requires Readable(b)
  {
    ip in w.nodes && PassesTb(w.nodes[ip], b) && leaf in w.nodes[ip].subs
  }

  /** The leaf answers, and all in between serve it. */
  ghost predicate AllServe(w: World, row: seq<Ip>, b: seq<byte>) {
    && Readable(b) && row != [] && Leaf(row) in w.nodes && GivesTa(w.nodes[Leaf(row)], b)
    && forall j | 0 < j < |row| - 1 :: Serves(w, row[j], b, Leaf(row))
  }

  /** Nobody in between has recorded a TA of the leaf that is not older than `p`. */
  ghost predicate AllOlder(w: World, row: seq<Ip>, b: seq<byte>, p: int)
    requires Readable(b) && row != []
  {
    OlderFrom(w, row, b, 1, p)
  }

  /** The leaf can give `n` answers, and the last of them is newer than what is recorded in between. */
  ghost predicate NewerAfter(w: World, row: seq<Ip>, b: seq<byte>, n: nat)
    requires Readable(b) && row != [] && Leaf(row) in w.nodes
  {
    GivesTas(w.nodes[Leaf(row)], b, n) && AllOlder(w, row, b, LastPbid(w.nodes[Leaf(row)], b, n))
  }

  lemma ServesMeansOpen(w: World, row: seq<Ip>, b: seq<byte>)
    requires AllServe(w, row, b)
    ensures Open(w, row, b, 1)
  {
    forall j | 1 <= j < |row| - 1
      ensures PassesAt(w, row[j], b)
    {
      assert Serves(w, row[j], b, Leaf(row));
    }
  }

  lemma TookForwards(s: NodeState, b: seq<byte>, leaf: Ip, p: int)
    requires Readable(b) && TakesPart(s, b) && Older(s, b, leaf, p) && leaf in s.subs
    ensures ForwardsTa(Took(s, b), leaf, p)
  {
  }

  /** After the flood, every node in between would pass the leaf's TA on. */
  lemma FloodedForwards(w: World, t: World, row: seq<Ip>, b: seq<byte>, j: nat, p: int)
    requires Row(w, row, b) && Flooded(w, t, row, b, 1) && 0 < j < |row| - 1
    requires Serves(w, row[j], b, Leaf(row)) && OlderAt(w, row[j], b, Leaf(row), p)
    ensures CanForward(t, row[j], Leaf(row), p)
  {
    assert Slave(w, row[j], b) && TookIf(w, t, row[j], b, true);
    TookForwards(w.nodes[row[j]], b, Leaf(row), p);
  }

  lemma FloodedAllForward(w: World, t: World, row: seq<Ip>, b: seq<byte>, p: int)
    requires Row(w, row, b) && Flooded(w, t, row, b, 1) && AllServe(w, row, b) && AllOlder(w, row, b, p)
    ensures AllForward(t, row, |row| - 2, p)
  {
    forall j | 0 < j <= |row| - 2
      ensures CanForward(t, row[j], Leaf(row), p)
    {
      assert Serves(w, row[j], b, Leaf(row)) && OlderAt(w, row[j], b, Leaf(row), p);
      FloodedForwards(w, t, row, b, j, p);
    }
  }

  /** The TB floods to the leaf. */
  lemma Floods(w: World, row: seq<Ip>, b: seq<byte>, s: NodeState) returns (events: seq<Event>)
    requires JustSent(w, row, b) && AllServe(w, row, b) && s == w.nodes[Leaf(row)]
    ensures Runs(w, row, events) && Hearings(events, Leaf(row)) == 1
    ensures var t := End(w, row, events);
      && Row(t, row, b) && Flooded(w, t, row, b, 1) && Leaf(row) in t.nodes && t.nodes[Leaf(row)] == Took(s, b)
      && Copy(row[|row| - 2], Tb(Stamped(b, row[|row| - 2]))) in t.air
      && Copy(Leaf(row), Ta(Leaf(row), s.tbPbid)) in t.air
  {
    assert Stamped(b, row[0]) == b;
    ServesMeansOpen(w, row, b);
    events := FloodsDown(w, row, b, 1);
    assert TookIf(w, End(w, row, events), row[|row| - 1], b, true);
  }

  lemma LeafAside(w: World, t: World, row: seq<Ip>, s: NodeState, sent: bool, p: int)
    requires |row| >= 2 && Distinct(row) && OnlyLeaf(w, t, Leaf(row), s, sent, p) && AllForward(w, row, |row| - 2, p)
    ensures AllForward(t, row, |row| - 2, p)
  {
    forall j | 0 < j <= |row| - 2
      ensures CanForward(t, row[j], Leaf(row), p)
    {
      assert CanForward(w, row[j], Leaf(row), p);
    }
  }

  /** The leaf hears `b` for the `n`-th time, and its TA is in the air. */
  lemma Answered(w: World, row: seq<Ip>, b: seq<byte>, n: nat, p: int, s: NodeState) returns (events: seq<Event>)
    requires JustSent(w, row, b) && AllServe(w, row, b) && s == w.nodes[Leaf(row)]
    requires n > 0 && GivesTas(s, b, n) && p == LastPbid(s, b, n) && AllOlder(w, row, b, p)
    ensures Runs(w, row, events) && Hearings(events, Leaf(row)) == n
    ensures var t := End(w, row, events);
      Row(t, row, b) && AllForward(t, row, |row| - 2, p) && Copy(Leaf(row), Ta(Leaf(row), p)) in t.air
  {
    events := Floods(w, row, b, s);
    var t := End(w, row, events);
    FloodedAllForward(w, t, row, b, p);
    if n > 1 {
      GivesTasNext(s, b, n);
      LastPbidFirst(s, b, n);
      var again := HearsAgain(t, row, b, n - 1, Took(s, b));
      LeafAside(t, End(t, row, again), row, Retook(Took(s, b), b, n - 1), true, p);
      Appended(w, row, events, again);
      events := events + again;
    }
  }

  /** In some run in which the leaf hears the TB at most `n` times its TA gets to the master. */
  ghost predicate CanComeBack(w: World, row: seq<Ip>, n: nat)
    requires row != []
  {
    exists events ::
      Runs(w, row, events) && Hearings(events, Leaf(row)) <= n && Leaf(row) in End(w, row, events).heard
  }

  lemma ComesBackIn(w: World, row: seq<Ip>, events: seq<Event>, n: nat)
    requires row != [] && Runs(w, row, events) && Hearings(events, Leaf(row)) <= n
    requires Leaf(row) in End(w, row, events).heard
    ensures CanComeBack(w, row, n)
  {
  }

  lemma ClimbsBack(w: World, t: World, row: seq<Ip>, b: seq<byte>, down: seq<Event>, n: nat, p: int)
    requires Runs(w, row, down) && t == End(w, row, down) && Row(t, row, b) && Hearings(down, Leaf(row)) <= n
    requires AllForward(t, row, |row| - 2, p) && Copy(Leaf(row), Ta(Leaf(row), p)) in t.air
    ensures CanComeBack(w, row, n)
  {
    var up := ClimbsUp(t, row, b, |row| - 2, p);
    Appended(w, row, down, up);
    ComesBackIn(w, row, down + up, n);
  }

  lemma ComesBack(w: World, row: seq<Ip>, b: seq<byte>, k: nat, n: nat, p: int, s: NodeState)
    requires JustSent(w, row, b) && AllServe(w, row, b) && s == w.nodes[Leaf(row)]
    requires 0 < k <= n && GivesTas(s, b, k) && p == LastPbid(s, b, k) && AllOlder(w, row, b, p)
    ensures CanComeBack(w, row, n)
  {
    var down := Answered(w, row, b, k, p, s);
    ClimbsBack(w, End(w, row, down), row, b, down, n, p);
  }

  lemma NoServiceIsGap(w: World, row: seq<Ip>, b: seq<byte>, j: nat)
    requires JustSent(w, row, b) && 0 < j < |row| - 1 && !Serves(w, row[j], b, Leaf(row))
    ensures Gap(w, row, b, j)
  {
    assert Slave(w, row[j], b);
  }

  lemma OnlyIfServed(w: World, row: seq<Ip>, b: seq<byte>, events: seq<Event>)
    requires JustSent(w, row, b) && !AllServe(w, row, b) && Runs(w, row, events)
    ensures Leaf(row) !in End(w, row, events).heard
  {
    var j: nat := 0;
    if GivesTa(w.nodes[Leaf(row)], b) {
      j :| 0 < j < |row| - 1 && !Serves(w, row[j], b, Leaf(row));
      NoServiceIsGap(w, row, b, j);
    }
    GapForever(w, row, b, j, events);
  }

  /** What a slave gives when it hears `b` again and again. */
  lemma {:induction false} ReplayGives(s: NodeState, b: seq<byte>, given: seq<int>, t: NodeState, k: nat)
    requires Readable(b) && AnswersTb(s, b) && Replays(s, b, given, t) && k < |given|
    ensures GivesTas(s, b, k + 1) && given[k] == LastPbid(s, b, k + 1)
    decreases k
  {
    if k > 0 {
      TookAnswers(s, b);
      ReplayGives(Took(s, b), b, given[1..], t, k - 1);
      LastPbidFirst(s, b, k + 1);
      GivesTasAll(s, b, k + 1);
    }
  }

  lemma GivesTasAll(s: NodeState, b: seq<byte>, n: nat)
    requires Readable(b) && n > 0 && GivesTa(s, b) && GivesTas(Took(s, b), b, n - 1)
    ensures GivesTas(s, b, n)
  {
    forall k | 0 <= k < n
      ensures GivesTa(Retook(s, b, k), b)
    {
      if k > 0 {
        RetookFirst(s, b, k - 1);
        assert GivesTa(Retook(Took(s, b), b, k - 1), b);
      }
    }
  }

  lemma JustSentIsTraced(w: World, row: seq<Ip>, b: seq<byte>, s: NodeState)
    requires JustSent(w, row, b) && s == w.nodes[Leaf(row)]
    ensures Traced(w, w, row, b, s, {})
  {
    forall i | 0 < i < |row|
      ensures TaAt(w, w, row, b, {}, i) && KeepsAt(w, w, row[i], b, Leaf(row))
    {
      assert Slave(w, row[i], b) && !SentTa(w, row[i], Leaf(row));
    }
    assert !SentTa(w, row[0], Leaf(row));
  }

  lemma OnlyIfNewer(w: World, row: seq<Ip>, b: seq<byte>, events: seq<Event>, s: NodeState) returns (k: nat)
    requires JustSent(w, row, b) && AllServe(w, row, b) && s == w.nodes[Leaf(row)]
    requires Runs(w, row, events) && Leaf(row) in End(w, row, events).heard
    ensures 0 < k <= Hearings(events, Leaf(row)) && NewerAfter(w, row, b, k)
  {
    JustSentIsTraced(w, row, b, s);
    var given, t := RunTraced(w, w, row, b, s, {}, events);
    var p :| CanBe(w, row, b, {} + Members(given), 1, p);
    k :| 0 <= k < |given| && given[k] == p;
    ReplayGives(s, b, given, t, k);
    k := k + 1;
  }

  /**
   * Exactly when one sending of a TB can bring the TA of the last node in a row back to the master,
   * whatever is lost or heard again on the way, if the last node hears it at most `n` times: if and
   * only if the last node answers it, every node in between relays it and lists the last one, and
   * one of the `n` answers carries a PBID above all that were recorded in between.
   */
  lemma TaComesBackExactly(w: World, row: seq<Ip>, b: seq<byte>, n: nat)
    requires JustSent(w, row, b)
    ensures CanComeBack(w, row, n) <==> AllServe(w, row, b) && exists k :: 0 < k <= n && NewerAfter(w, row, b, k)
  {
    if AllServe(w, row, b) {
      var s := w.nodes[Leaf(row)];
      if k :| 0 < k <= n && NewerAfter(w, row, b, k) {
        ComesBack(w, row, b, k, n, LastPbid(s, b, k), s);
      }
      if CanComeBack(w, row, n) {
        var events :| Runs(w, row, events) && Hearings(events, Leaf(row)) <= n
          && Leaf(row) in End(w, row, events).heard;
        var k := OnlyIfNewer(w, row, b, events, s);
      }
    } else if CanComeBack(w, row, n) {
      var events :| Runs(w, row, events) && Hearings(events, Leaf(row)) <= n && Leaf(row) in End(w, row, events).heard;
      OnlyIfServed(w, row, b, events);
    }
  }

  /** If the last node hears the sending once, as when nothing is repeated, it is its next PBID that must be above. */
  lemma TaComesBackOnce(w: World, row: seq<Ip>, b: seq<byte>)
    requires JustSent(w, row, b)
    ensures CanComeBack(w, row, 1) <==> AllServe(w, row, b) && AllOlder(w, row, b, w.nodes[Leaf(row)].tbPbid)
  {
    TaComesBackExactly(w, row, b, 1);
    if AllServe(w, row, b) {
      GivesTasAll(w.nodes[Leaf(row)], b, 1);
      assert NewerAfter(w, row, b, 1) <==> AllOlder(w, row, b, w.nodes[Leaf(row)].tbPbid);
    }
  }

  // ---------------------------------------------------------------- the master's round

  /** What the events of a run are to the master. */
  function TaEvents(events: seq<Event>): seq<MasterEvent> {
    if events == [] then []
    else
      (match events[0]
       case Counts(c, stray) => if c.message.Ta? then [HearTa(c.sender, c.message.originator, stray)] else []
       case Hears(_, _) => [])
      + TaEvents(events[1..])
  }

  /** Over every run the master acknowledges the originators of the TAs that it hears, and nobody else. */
  lemma {:induction false} MasterAcknowledges(m: Master, w: World, row: seq<Ip>, events: seq<Event>)
    requires MasterInv(m) && m.ip == w.master && m.acked == w.heard && Runs(w, row, events)
    ensures MasterRun(m, TaEvents(events)) && MasterAfter(m, TaEvents(events)).acked == End(w, row, events).heard
    decreases |events|
  {
    if events != [] {
      var e, later := events[0], TaEvents(events[1..]);
      if e.Counts? {
        var ta := HearTa(e.copy.sender, e.copy.message.originator, e.stray);
        MasterStepKeeps(m, ta);
        MasterAcknowledges(MasterNext(m, ta), After(w, e), row, events[1..]);
        assert TaEvents(events) == [ta] + later && ([ta] + later)[1..] == later;
      } else {
        MasterAcknowledges(m, After(w, e), row, events[1..]);
        assert TaEvents(events) == later;
      }
    }
  }

  /** Whoever has been acknowledged no longer owes a TA in the pending TB. */
  lemma AcknowledgedIsCleared(m: Master, o: Ip)
    requires MasterInv(m) && o in m.acked && Retransmission.TB in m.rt.msg
    ensures !OwesTa(m.rt.msg[Retransmission.TB], o)
  {
    var b := m.rt.msg[Retransmission.TB];
    var place := First(Ips(b), o);
    if place > 0 {
      assert Acknowledged(m, place);
    }
  }

  /** In some run in which the leaf hears the TB at most `n` times the master acknowledges it, and its bit goes. */
  ghost predicate LeafCleared(m: Master, w: World, row: seq<Ip>, n: nat)
    requires MasterInv(m) && row != []
  {
    exists events :: ClearedIn(m, w, row, events, n)
  }

  ghost predicate ClearedIn(m: Master, w: World, row: seq<Ip>, events: seq<Event>, n: nat)
    requires MasterInv(m) && row != []
  {
    && Runs(w, row, events) && Hearings(events, Leaf(row)) <= n
    && MasterRun(m, TaEvents(events)) && Clears(m, TaEvents(events), Leaf(row))
  }

  ghost predicate Clears(m: Master, events: seq<MasterEvent>, leaf: Ip)
    requires MasterInv(m) && MasterRun(m, events)
  {
    RunKeepsMasterInv(m, events);
    var t := MasterAfter(m, events);
    leaf in t.acked && (Retransmission.TB in t.rt.msg ==> !OwesTa(t.rt.msg[Retransmission.TB], leaf))
  }

  lemma ClearsIffHeard(m: Master, w: World, row: seq<Ip>, events: seq<Event>)
    requires MasterInv(m) && m.ip == w.master && m.acked == w.heard && Runs(w, row, events) && row != []
    ensures MasterRun(m, TaEvents(events))
    ensures Clears(m, TaEvents(events), Leaf(row)) <==> Leaf(row) in End(w, row, events).heard
  {
    MasterAcknowledges(m, w, row, events);
    RunKeepsMasterInv(m, TaEvents(events));
    var t := MasterAfter(m, TaEvents(events));
    if Leaf(row) in t.acked && Retransmission.TB in t.rt.msg {
      AcknowledgedIsCleared(t, Leaf(row));
    }
  }

  lemma ClearedIffHeard(m: Master, w: World, row: seq<Ip>, n: nat)
    requires MasterInv(m) && m.ip == w.master && m.acked == w.heard && row != []
    ensures LeafCleared(m, w, row, n) <==> CanComeBack(w, row, n)
  {
    if LeafCleared(m, w, row, n) {
      var events :| ClearedIn(m, w, row, events, n);
      ClearsIffHeard(m, w, row, events);
    }
    if CanComeBack(w, row, n) {
      var events :| Runs(w, row, events) && Hearings(events, Leaf(row)) <= n && Leaf(row) in End(w, row, events).heard;
      ClearsIffHeard(m, w, row, events);
      assert ClearedIn(m, w, row, events, n);
    }
  }

  /** The same at the master of a round: exactly then the leaf's bit in the pending TB can be cleared. */
  lemma BitClearedExactly(m: Master, w: World, row: seq<Ip>, b: seq<byte>, n: nat)
    requires JustSent(w, row, b) && MasterInv(m) && m.ip == w.master && m.acked == w.heard
    ensures LeafCleared(m, w, row, n) <==> AllServe(w, row, b) && exists k :: 0 < k <= n && NewerAfter(w, row, b, k)
  {
    TaComesBackExactly(w, row, b, n);
    ClearedIffHeard(m, w, row, n);
  }
}
