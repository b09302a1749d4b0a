/** What PB, PR, PC and SD packets, and the choice of a next hop, do to the routing table over time. */
module RoutingRuns {
  import opened Bytes
  import opened Distance
  import opened Routing
  import opened Routes

  datatype Packet =
    | Pb(sender: Ip, distance: Short, pbe: real, inside: bool, act: nat)  // `inside`: the status of this node
    | Pr(sender: Ip, originator: Ip, distance: Short, pbe: real, remote: real, act: nat)
    | Pc(sender: Ip, reached: Ip, pbe: real, remote: real, act: nat)
    | Sd(sender: Ip, pbe: real, received: nat, size: Size, act: nat)      // with this node as next hop
    | Choose(act: nat)                                                    // getBestHop

  const PB_SIZE: Size := 7
  const PR_SIZE: Size := 13
  const PC_SIZE: Size := 11

  function RemoteOf(t: seq<Entry>, ip: Ip): real {
    if Find(t, ip) < |t| then t[Find(t, ip)].remote else WORST_QUALITY
  }

  /** The table after a packet; None when the code follows a null pointer. */
  function Receive(t: seq<Entry>, self: Ip, p: Packet): Option<seq<Entry>> {
    match p
    case Pb(sender, distance, pbe, inside, act) =>
      if sender == self then Some(t)
      else
        var h := Heard(t, sender, act);
        Some(if inside then Updated(h, Report(sender, distance, pbe, RemoteOf(h, sender), act, PB_SIZE)) else h)
    case Pr(sender, originator, distance, pbe, remote, act) =>
      Some(if originator == self then Updated(t, Report(sender, distance, pbe, remote, act, PR_SIZE)) else t)
    case Pc(sender, reached, pbe, remote, act) =>
      if reached != self then Some(t)
      else if Find(t, sender) == |t| then None
      else Some(Updated(t, Report(sender, t[Find(t, sender)].distance, pbe, remote, act, PC_SIZE)))
    case Sd(sender, pbe, received, size, act) =>
      var h := Heard(t, sender, act);
      Some(if Find(h, sender) == |h| then Updated(h, Report(sender, UNREACHABLE, pbe, WORST_QUALITY, received, size))
           else RolledIn(h, sender, pbe, size))
    case Choose(act) => Some(Pruned(t, act))
  }

  // ---------------------------------------------------------------- the same on a map

  function HeardMap(m: map<Ip, Entry>, ip: Ip, act: nat): map<Ip, Entry> {
    if ip in m then m[ip := m[ip].(lastHeard := act)] else m
  }

  function Learnt(m: map<Ip, Entry>, r: Report): map<Ip, Entry> {
    m[r.ip := MergedMap(m, r)]
  }

  /** What a packet means for what is known of each neighbour; only pruning depends on the order in the table `t`. */
  function Known(m: map<Ip, Entry>, t: seq<Entry>, self: Ip, p: Packet): map<Ip, Entry>
    requires Receive(t, self, p).Some?
  {
    match p
    case Pb(sender, distance, pbe, inside, act) =>
      if sender == self then m
      else
        var h := HeardMap(m, sender, act);
        var remote := if sender in h then h[sender].remote else WORST_QUALITY;
        if inside then Learnt(h, Report(sender, distance, pbe, remote, act, PB_SIZE)) else h
    case Pr(sender, originator, distance, pbe, remote, act) =>
      if originator == self then Learnt(m, Report(sender, distance, pbe, remote, act, PR_SIZE)) else m
    case Pc(sender, reached, pbe, remote, act) =>
      if reached != self || sender !in m then m
      else Learnt(m, Report(sender, m[sender].distance, pbe, remote, act, PC_SIZE))
    case Sd(sender, pbe, received, size, act) =>
      var h := HeardMap(m, sender, act);
      if sender in h then h[sender := RolledEntry(h[sender], pbe, size)]
      else Learnt(h, Report(sender, UNREACHABLE, pbe, WORST_QUALITY, received, size))
    case Choose(act) => m - Ips(t[..StaleHeads(t, act)])
  }

  /** A lookup in the map, as the table sees it. */
  lemma Finds(t: seq<Entry>, m: map<Ip, Entry>, ip: Ip)
    requires Represents(t, m)
    ensures Find(t, ip) < |t| <==> ip in m
    ensures ip in m ==> t[Find(t, ip)] == m[ip]
  {
    assert Lookup(t, ip) == if ip in m then Some(m[ip]) else None;
  }

  lemma HeardRefines(t: seq<Entry>, m: map<Ip, Entry>, ip: Ip, act: nat)
    requires Represents(t, m)
    ensures Represents(Heard(t, ip, act), HeardMap(m, ip, act))
  {
    Finds(t, m, ip);
    if ip in m {
      ReplaceRefines(t, m, Find(t, ip), m[ip].(lastHeard := act));
    }
  }

  lemma RolledRefines(t: seq<Entry>, m: map<Ip, Entry>, ip: Ip, pbe: real, size: Size)
    requires Represents(t, m) && ip in m
    ensures Represents(RolledIn(t, ip, pbe, size), m[ip := RolledEntry(m[ip], pbe, size)])
  {
    Finds(t, m, ip);
    ReplaceRefines(t, m, Find(t, ip), RolledEntry(m[ip], pbe, size));
  }

  lemma PbRefines(t: seq<Entry>, m: map<Ip, Entry>, self: Ip, p: Packet)
    requires p.Pb? && Represents(t, m)
    ensures Represents(Receive(t, self, p).value, Known(m, t, self, p))
  {
    if p.sender != self {
      var h, g := Heard(t, p.sender, p.act), HeardMap(m, p.sender, p.act);
      HeardRefines(t, m, p.sender, p.act);
      Finds(h, g, p.sender);
      UpdateRefines(h, g, Report(p.sender, p.distance, p.pbe, RemoteOf(h, p.sender), p.act, PB_SIZE));
    }
  }

  lemma SdRefines(t: seq<Entry>, m: map<Ip, Entry>, self: Ip, p: Packet)
    requires p.Sd? && Represents(t, m)
    ensures Represents(Receive(t, self, p).value, Known(m, t, self, p))
  {
    var h, g := Heard(t, p.sender, p.act), HeardMap(m, p.sender, p.act);
    HeardRefines(t, m, p.sender, p.act);
    Finds(h, g, p.sender);
    if p.sender in g {
      RolledRefines(h, g, p.sender, p.pbe, p.size);
    } else {
      UpdateRefines(h, g, Report(p.sender, UNREACHABLE, p.pbe, WORST_QUALITY, p.received, p.size));
    }
  }

  lemma PacketRefines(t: seq<Entry>, m: map<Ip, Entry>, self: Ip, p: Packet)
    requires Represents(t, m) && Receive(t, self, p).Some?
    ensures Represents(Receive(t, self, p).value, Known(m, t, self, p))
  {
    match p
    case Pb(_, _, _, _, _) => PbRefines(t, m, self, p);
    case Pr(sender, _, distance, pbe, remote, act) =>
      UpdateRefines(t, m, Report(sender, distance, pbe, remote, act, PR_SIZE));
    case Pc(sender, reached, pbe, remote, act) =>
      Finds(t, m, sender);
      if reached == self {
        UpdateRefines(t, m, Report(sender, m[sender].distance, pbe, remote, act, PC_SIZE));
      }
    case Sd(_, _, _, _, _) => SdRefines(t, m, self, p);
    case Choose(act) => PruneRefines(t, m, act);
  }

  // ---------------------------------------------------------------- whole runs

  /** The table, what is known of the neighbours, and those that have answered a PB or a PR of this node. */
  datatype State = State(table: seq<Entry>, known: map<Ip, Entry>, answered: set<Ip>)

  const START := State([], map[], {})

  predicate Answers(self: Ip, p: Packet) {
    (p.Pr? && p.originator == self) || (p.Pc? && p.reached == self)
  }

  function After(s: State, self: Ip, p: Packet): State
    requires Receive(s.table, self, p).Some?
  {
    State(Receive(s.table, self, p).value, Known(s.known, s.table, self, p),
          if Answers(self, p) then s.answered + {p.sender} else s.answered)
  }

  /** Data does not push an entry across another: the exact condition of RollingKeepsOrderExactly. */
  predicate Orderly(t: seq<Entry>, p: Packet) {
    p.Sd? ==>
      var h := Heard(t, p.sender, p.act);
      var k := Find(h, p.sender);
      k < |h| ==> MayStay(h, k, RolledEntry(h[k], p.pbe, p.size))
  }

  /** No packet of the run makes the code follow a null pointer. */
  ghost predicate Runs(s: State, self: Ip, ps: seq<Packet>)
    decreases |ps|
  {
    ps != [] ==> Receive(s.table, self, ps[0]).Some? && Runs(After(s, self, ps[0]), self, ps[1..])
  }

  ghost predicate OrderlyRun(s: State, self: Ip, ps: seq<Packet>)
    requires Runs(s, self, ps)
    decreases |ps|
  {
    ps != [] ==> Orderly(s.table, ps[0]) && OrderlyRun(After(s, self, ps[0]), self, ps[1..])
  }

  ghost function End(s: State, self: Ip, ps: seq<Packet>): State
    requires Runs(s, self, ps)
    decreases |ps|
  {
    if ps == [] then s else End(After(s, self, ps[0]), self, ps[1..])
  }

  /** A neighbour that has not answered is still at the worst quality. */
  ghost predicate Confirmed(m: map<Ip, Entry>, answered: set<Ip>) {
    forall ip | ip in m :: ConfirmedEntry(m[ip], ip, answered)
  }

  predicate ConfirmedEntry(e: Entry, ip: Ip, answered: set<Ip>) {
    e.ip == ip && (e.remote == WORST_QUALITY || ip in answered)
  }

  lemma LearntConfirmed(m: map<Ip, Entry>, answered: set<Ip>, r: Report)
    requires Confirmed(m, answered)
    requires r.remote == WORST_QUALITY || r.ip in answered || (r.ip in m && r.remote == m[r.ip].remote)
    ensures Confirmed(Learnt(m, r), answered)
  {
    assert r.ip in m ==> ConfirmedEntry(m[r.ip], r.ip, answered);
    assert ConfirmedEntry(MergedMap(m, r), r.ip, answered);
  }

  lemma HeardConfirmed(m: map<Ip, Entry>, answered: set<Ip>, ip: Ip, act: nat)
    requires Confirmed(m, answered)
    ensures Confirmed(HeardMap(m, ip, act), answered)
  {
    assert ip in m ==> ConfirmedEntry(m[ip], ip, answered);
  }

  lemma RolledConfirmed(m: map<Ip, Entry>, answered: set<Ip>, ip: Ip, pbe: real, size: Size)
    requires Confirmed(m, answered) && ip in m
    ensures Confirmed(m[ip := RolledEntry(m[ip], pbe, size)], answered)
  {
    assert ConfirmedEntry(m[ip], ip, answered);
  }

  lemma StepConfirmed(m: map<Ip, Entry>, t: seq<Entry>, answered: set<Ip>, self: Ip, p: Packet)
    requires Confirmed(m, answered) && Receive(t, self, p).Some?
    ensures Confirmed(Known(m, t, self, p), if Answers(self, p) then answered + {p.sender} else answered)
  {
    match p
    case Pb(sender, distance, pbe, inside, act) =>
      var h := HeardMap(m, sender, act);
      HeardConfirmed(m, answered, sender, act);
      var remote := if sender in h then h[sender].remote else WORST_QUALITY;
      LearntConfirmed(h, answered, Report(sender, distance, pbe, remote, act, PB_SIZE));
    case Pr(sender, _, distance, pbe, remote, act) =>
      LearntConfirmed(m, answered + {sender}, Report(sender, distance, pbe, remote, act, PR_SIZE));
    case Pc(sender, reached, pbe, remote, act) =>
      if sender in m {
        LearntConfirmed(m, answered + {sender}, Report(sender, m[sender].distance, pbe, remote, act, PC_SIZE));
      }
    case Sd(sender, pbe, received, size, act) =>
      var h := HeardMap(m, sender, act);
      HeardConfirmed(m, answered, sender, act);
      if sender in h {
        RolledConfirmed(h, answered, sender, pbe, size);
      } else {
        LearntConfirmed(h, answered, Report(sender, UNREACHABLE, pbe, WORST_QUALITY, received, size));
      }
    case Choose(_) =>
  }

  lemma {:induction false} RunRefines(s: State, self: Ip, ps: seq<Packet>)
    requires Represents(s.table, s.known) && Confirmed(s.known, s.answered) && Runs(s, self, ps)
    ensures var e := End(s, self, ps); Represents(e.table, e.known) && Confirmed(e.known, e.answered)
    decreases |ps|
  {
    if ps != [] {
      PacketRefines(s.table, s.known, self, ps[0]);
      StepConfirmed(s.known, s.table, s.answered, self, ps[0]);
      RunRefines(After(s, self, ps[0]), self, ps[1..]);
    }
  }

  /** A packet keeps the order exactly if it is not disorderly data. */
  lemma StepSorted(t: seq<Entry>, self: Ip, p: Packet)
    requires Sorted(t) && Receive(t, self, p).Some?
    ensures Sorted(Receive(t, self, p).value) <==> Orderly(t, p)
  {
    match p
    case Pb(sender, distance, pbe, inside, act) =>
      var h := Heard(t, sender, act);
      HeardSorted(t, sender, act);
      UpdatedSorted(h, Report(sender, distance, pbe, RemoteOf(h, sender), act, PB_SIZE));
    case Pr(sender, _, distance, pbe, remote, act) =>
      UpdatedSorted(t, Report(sender, distance, pbe, remote, act, PR_SIZE));
    case Pc(sender, reached, pbe, remote, act) =>
      if reached == self {
        UpdatedSorted(t, Report(sender, t[Find(t, sender)].distance, pbe, remote, act, PC_SIZE));
      }
    case Sd(sender, pbe, received, size, act) =>
      var h := Heard(t, sender, act);
      HeardSorted(t, sender, act);
      if Find(h, sender) < |h| {
        RollingKeepsOrderExactly(h, sender, pbe, size);
      } else {
        UpdatedSorted(h, Report(sender, UNREACHABLE, pbe, WORST_QUALITY, received, size));
      }
    case Choose(act) => PrunedSorted(t, act);
  }

  /** The table is sorted at the start and after every packet of the run. */
  ghost predicate SortedThroughout(s: State, self: Ip, ps: seq<Packet>)
    requires Runs(s, self, ps)
    decreases |ps|
  {
    Sorted(s.table) && (ps != [] ==> SortedThroughout(After(s, self, ps[0]), self, ps[1..]))
  }

  /** The table stays sorted throughout a run if and only if the run has no disorderly data. */
  lemma {:induction false} SortedExactly(s: State, self: Ip, ps: seq<Packet>)
    requires Sorted(s.table) && Runs(s, self, ps)
    ensures SortedThroughout(s, self, ps) <==> OrderlyRun(s, self, ps)
    ensures SortedThroughout(s, self, ps) ==> Sorted(End(s, self, ps).table)
    decreases |ps|
  {
    if ps != [] {
      StepSorted(s.table, self, ps[0]);
      if Orderly(s.table, ps[0]) {
        SortedExactly(After(s, self, ps[0]), self, ps[1..]);
      }
    }
  }

  /** After every run the table holds one entry for each known neighbour, and nothing else. */
  lemma TableRefinesMap(self: Ip, ps: seq<Packet>)
    requires Runs(START, self, ps)
    ensures var e := End(START, self, ps); Represents(e.table, e.known)
  {
    RunRefines(START, self, ps);
  }

  /** From the empty table the same, and without disorderly data the table is sorted at the end. */
  lemma TableIsSorted(self: Ip, ps: seq<Packet>)
    requires Runs(START, self, ps)
    ensures SortedThroughout(START, self, ps) <==> OrderlyRun(START, self, ps)
    ensures OrderlyRun(START, self, ps) ==> Sorted(End(START, self, ps).table)
  {
    SortedExactly(START, self, ps);
  }

  lemma RunOne(s: State, self: Ip, p: Packet, ps: seq<Packet>)
    requires Receive(s.table, self, p).Some? && Runs(After(s, self, p), self, ps)
    ensures Runs(s, self, [p] + ps) && End(s, self, [p] + ps) == End(After(s, self, p), self, ps)
  {
    assert ([p] + ps)[0] == p && ([p] + ps)[1..] == ps;
  }

  lemma RunThree(s: State, self: Ip, p: Packet, q: Packet, r: Packet)
    requires Receive(s.table, self, p).Some?
    requires Receive(After(s, self, p).table, self, q).Some?
    requires Receive(After(After(s, self, p), self, q).table, self, r).Some?
    ensures Runs(s, self, [p, q, r])
    ensures End(s, self, [p, q, r]) == After(After(After(s, self, p), self, q), self, r)
  {
    var s1 := After(s, self, p);
    RunOne(After(s1, self, q), self, r, []);
    RunOne(s1, self, q, [r] + []);
    RunOne(s, self, p, [q] + ([r] + []));
    assert [p, q, r] == [p] + ([q] + ([r] + []));
  }

  /** Two neighbours answer, the nearer one over a link that is still at the worst quality; then it sends data. */
  function Misleading(self: Ip, a: Ip, b: Ip): seq<Packet> {
    [Pr(a, self, 500, 0.0, 0.0, 1), Pr(b, self, 100, 1.0, 0.0, 2), Sd(b, 0.0, 3, 7, 3)]
  }

  /** The entries of the two neighbours before and after the data. */
  function FarOne(a: Ip): Entry {
    Entry(a, 500, 0.0, 0.0, 1, 0)
  }

  function NearOne(b: Ip, rolled: bool): Entry {
    if rolled then Entry(b, 100, 0.0, 0.0, 3, 7) else Entry(b, 100, 1.0, 0.0, 2, 0)
  }

  lemma TwoAnswers(self: Ip, a: Ip, b: Ip)
    requires a != b
    ensures var ps := Misleading(self, a, b);
      && Receive([], self, ps[0]) == Some([FarOne(a)])
      && Receive([FarOne(a)], self, ps[1]) == Some([FarOne(a), NearOne(b, false)])
  {
    assert Dist(FarOne(a)) == 500 && Dist(NearOne(b, false)) == UNREACHABLE;
    assert Updated([], Report(a, 500, 0.0, 0.0, 1, PR_SIZE)) == [FarOne(a)];
    var t, e := [FarOne(a)], NearOne(b, false);
    assert Find(t, b) == 1 && Place(t, Dist(e)) == 1;
    assert t[..1] + [e] + t[1..] == [FarOne(a), e];
  }

  lemma DataRolls(self: Ip, a: Ip, b: Ip)
    requires a != b
    ensures Receive([FarOne(a), NearOne(b, false)], self, Misleading(self, a, b)[2])
      == Some([FarOne(a), NearOne(b, true)])
  {
    var t, h := [FarOne(a), NearOne(b, false)], [FarOne(a), NearOne(b, false).(lastHeard := 3)];
    FindIs(t, b, 1);
    FindIs(h, b, 1);
    assert Heard(t, b, 3) == h;
    assert Average(1.0, 0, 0.0, 7) == 0.0 && RolledEntry(h[1], 0.0, 7) == NearOne(b, true);
    assert h[1 := NearOne(b, true)] == [FarOne(a), NearOne(b, true)];
  }

  /** After these packets the table is out of order, and the farther of two usable neighbours is chosen. */
  lemma RollingMisleads(self: Ip, a: Ip, b: Ip)
    requires a != b
    ensures Runs(START, self, Misleading(self, a, b))
    ensures var t := End(START, self, Misleading(self, a, b)).table;
      !Sorted(t) && BestHop(t, 4) == Via(a) && exists e | e in t :: e.ip == b && Usable(e, 4) && Dist(e) < 500
  {
    var ps := Misleading(self, a, b);
    TwoAnswers(self, a, b);
    DataRolls(self, a, b);
    RunThree(START, self, ps[0], ps[1], ps[2]);
    var t := [FarOne(a), NearOne(b, true)];
    assert Dist(t[0]) == 500 && Dist(t[1]) == 100 && !NotFarther(t, 0, 1);
    assert Timeout(t[0]) == ROUTE_LOSS_DELAY && t[1] in t;
  }

  /** A node routes only through a neighbour that has answered it. */
  lemma NextHopHasAnswered(self: Ip, ps: seq<Packet>, act: nat, ip: Ip)
    requires Runs(START, self, ps) && BestHop(End(START, self, ps).table, act) == Via(ip)
    ensures ip in End(START, self, ps).answered
  {
    var e := End(START, self, ps);
    RunRefines(START, self, ps);
    var k := StaleHeads(e.table, act);
    FindIs(e.table, ip, k);
    Finds(e.table, e.known, ip);
    assert ConfirmedEntry(e.known[ip], ip, e.answered);
  }

  // ---------------------------------------------------------------- the null pointer

  /** The one packet that makes the code follow a null pointer: a PC for this node from a sender without an entry. */
  lemma CrashesExactly(t: seq<Entry>, self: Ip, p: Packet)
    ensures Receive(t, self, p) == None <==> p.Pc? && p.reached == self && forall e | e in t :: e.ip != p.sender
  {
    if p.Pc? {
      var k := Find(t, p.sender);
      assert k < |t| ==> t[k] in t;
    }
  }

  /** Nothing but the choice of a next hop makes a neighbour unknown. */
  lemma StaysKnown(s: State, self: Ip, p: Packet, ip: Ip)
    requires Receive(s.table, self, p).Some? && ip in s.known && !p.Choose?
    ensures ip in After(s, self, p).known
  {
  }

  lemma {:induction false} KnownOverRuns(s: State, self: Ip, ps: seq<Packet>, ip: Ip)
    requires Runs(s, self, ps) && ip in s.known && forall i | 0 <= i < |ps| :: !ps[i].Choose?
    ensures ip in End(s, self, ps).known
    decreases |ps|
  {
    if ps != [] {
      StaysKnown(s, self, ps[0], ip);
      KnownOverRuns(After(s, self, ps[0]), self, ps[1..], ip);
    }
  }

  /** In every reachable state a PC for this node crashes it exactly if its sender is not known. */
  lemma CrashesIffUnknown(self: Ip, ps: seq<Packet>, p: Packet)
    requires Runs(START, self, ps)
    ensures var e := End(START, self, ps);
      Receive(e.table, self, p) == None <==> p.Pc? && p.reached == self && p.sender !in e.known
  {
    RunRefines(START, self, ps);
    if p.Pc? {
      Finds(End(START, self, ps).table, End(START, self, ps).known, p.sender);
    }
  }

  /** The packet makes its sender known. */
  predicate Introduces(self: Ip, p: Packet) {
    match p
    case Pb(sender, _, _, inside, _) => sender != self && inside
    case Pr(_, originator, _, _, _, _) => originator == self
    case Sd(_, _, _, _, _) => true
    case _ => false
  }

  lemma IntroducedIsKnown(s: State, self: Ip, p: Packet)
    requires Receive(s.table, self, p).Some? && Introduces(self, p)
    ensures p.sender in After(s, self, p).known
  {
  }

  /**
   * After a PB, a PR or data has been taken from a neighbour, its PCs do not crash the node over
   * any run in which no next hop is chosen: only pruning brings the null pointer back.
   */
  lemma OnlyPruningCrashes(s: State, self: Ip, p: Packet, ps: seq<Packet>, pc: Packet)
    requires Represents(s.table, s.known) && Confirmed(s.known, s.answered)
    requires Receive(s.table, self, p).Some? && Introduces(self, p)
    requires Runs(After(s, self, p), self, ps) && forall i | 0 <= i < |ps| :: !ps[i].Choose?
    requires pc.Pc? && pc.sender == p.sender
    ensures Receive(End(After(s, self, p), self, ps).table, self, pc).Some?
  {
    var t := After(s, self, p);
    PacketRefines(s.table, s.known, self, p);
    StepConfirmed(s.known, s.table, s.answered, self, p);
    RunRefines(t, self, ps);
    IntroducedIsKnown(s, self, p);
    KnownOverRuns(t, self, ps, p.sender);
    Finds(End(t, self, ps).table, End(t, self, ps).known, p.sender);
  }

  /**
   * And pruning does: after a choice of next hop, a PC crashes the node exactly if its sender was
   * unknown or among the stale heads.
   */
  lemma ChoiceCrashesExactly(t: seq<Entry>, self: Ip, act: nat, pc: Packet)
    requires DistinctIps(t) && pc.Pc? && pc.reached == self
    ensures Receive(Pruned(t, act), self, pc) == None
      <==> Find(t, pc.sender) == |t| || Find(t, pc.sender) < StaleHeads(t, act)
  {
    var k, at, p := StaleHeads(t, act), Find(t, pc.sender), Pruned(t, act);
    FindIs(p, pc.sender, if k <= at then at - k else |p|);
  }

  /** This happens in a reachable state: a PB, a choice of next hop one minute later, and the PC. */
  lemma LateConfirmationCrashes()
    ensures exists self, ps, p :: Runs(START, self, ps) && Receive(End(START, self, ps).table, self, p) == None
  {
    var self, other := Ip(0, 1), Ip(0, 2);
    var pb := Pb(other, 0, 0.0, true, 1);
    var choose := Choose(60_000_000_003);
    var s1 := After(START, self, pb);
    var e := Entry(other, 0, 0.0, 1.0, 1, 0);
    assert s1.table == [e];
    assert Timeout(e) == 60_000_000_000;
    var s2 := After(s1, self, choose);
    assert s2.table == [];
    var last := [choose];
    assert last[1..] == [] && Runs(s2, self, []) && End(s2, self, []) == s2;
    assert Runs(s1, self, last) && End(s1, self, last) == s2;
    var ps := [pb, choose];
    assert ps[1..] == last && Runs(START, self, ps) && End(START, self, ps) == s2;
    assert Receive(s2.table, self, Pc(other, self, 0.0, 0.0, 60_000_000_004)) == None;
  }
}
