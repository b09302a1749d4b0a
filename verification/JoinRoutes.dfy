/** Joining over the routing tables: which way an NER goes, and when it gets to the master. */
module JoinRoutes {
  import opened Bytes
  import opened Distance
  import opened Routing
  import opened Routes
  import opened Join
  import Retransmission
  import RoutingNet
  import RoutingRuns
  import TbFormat
  import TbRound

  /** What a node consults when an NE or an NER arrives: its table, its clock and, at the master, its round. */
  datatype View = View(table: seq<Entry>, act: nat, rt: Retransmission.Rt)

  function HopOf(v: View): Hop {
    BestHop(v.table, v.act)
  }

  /** The master would start or remake a TB now, whatever its bytes. */
  predicate Ready(v: View) {
    TbRound.Begin(v.rt, v.act, []).ok
  }

  ghost predicate AllViews(net: Net, views: map<Ip, View>) {
    net.nodes.Keys <= views.Keys && forall ip | ip in net.nodes :: net.nodes[ip].ip == ip
  }

  /** A node that hears an NE or an NER does with it what its view says. */
  ghost predicate Follows(net: Net, views: map<Ip, View>, e: Event) {
    e.Receive? && (e.copy.packet.Ne? || e.copy.packet.Ner?) && e.at in net.nodes && e.at in views ==>
      if net.nodes[e.at].isMaster then e.begun == Ready(views[e.at]) else e.hop == HopOf(views[e.at])
  }

  predicate NewProxy(e: Event, x: Ip) {
    e.Receive? && e.copy.packet.Ne? && e.copy.packet.outsider == x
  }

  /** A run in which all nodes follow their views, and `x` finds no further proxy. */
  ghost predicate RunsAlong(net: Net, views: map<Ip, View>, events: seq<Event>, x: Ip) {
    Runs(net, events, x) && forall k | 0 <= k < |events| :: Follows(net, views, events[k]) && !NewProxy(events[k], x)
  }

  // ---------------------------------------------------------------- where the best hops lead

  /** The slave `at` would pass an NER for `x` to `next`. */
  ghost predicate Onward(net: Net, views: map<Ip, View>, at: Ip, next: Ip, x: Ip) {
    at in net.nodes && at in views && !net.nodes[at].isMaster && at != x && HopOf(views[at]) == Via(next)
  }

  /** The master `at` would answer it. */
  ghost predicate Arrived(net: Net, views: map<Ip, View>, at: Ip, x: Ip) {
    at in net.nodes && at in views && net.nodes[at].isMaster && at != x && Ready(views[at])
  }

  /** From the first node of the row, each best hop is the next, and the last is a master that answers. */
  ghost predicate LeadsUp(net: Net, views: map<Ip, View>, row: seq<Ip>, x: Ip) {
    && row != [] && (forall i | 0 <= i < |row| - 1 :: Onward(net, views, row[i], row[i + 1], x))
    && Arrived(net, views, row[|row| - 1], x)
  }

  ghost predicate Reaches(net: Net, views: map<Ip, View>, h: Ip, x: Ip) {
    exists row :: LeadsUp(net, views, row, x) && row[0] == h
  }

  lemma LeadsUpFrom(net: Net, views: map<Ip, View>, at: Ip, row: seq<Ip>, x: Ip)
    requires LeadsUp(net, views, row, x) && Onward(net, views, at, row[0], x)
    ensures LeadsUp(net, views, [at] + row, x)
  {
    var longer := [at] + row;
    forall i | 0 <= i < |longer| - 1
      ensures Onward(net, views, longer[i], longer[i + 1], x)
    {
      assert i == 0 || Onward(net, views, row[i - 1], row[i], x);
    }
  }

  lemma ReachesFrom(net: Net, views: map<Ip, View>, at: Ip, next: Ip, x: Ip)
    requires Onward(net, views, at, next, x) && Reaches(net, views, next, x)
    ensures Reaches(net, views, at, x)
  {
    var row :| LeadsUp(net, views, row, x) && row[0] == next;
    LeadsUpFrom(net, views, at, row, x);
    assert ([at] + row)[0] == at;
  }

  lemma MasterReaches(net: Net, views: map<Ip, View>, at: Ip, x: Ip)
    requires Arrived(net, views, at, x)
    ensures Reaches(net, views, at, x)
  {
    assert LeadsUp(net, views, [at], x) && [at][0] == at;
  }

  // ---------------------------------------------------------------- answered exactly

  ghost predicate SameRoles(net: Net, t: Net) {
    t.nodes.Keys == net.nodes.Keys && forall ip | ip in net.nodes :: SamePlace(net.nodes[ip], t.nodes[ip])
  }

  predicate SamePlace(n: Joiner, m: Joiner) {
    m.ip == n.ip && m.isMaster == n.isMaster
  }

  lemma RolesStay(net: Net, e: Event, x: Ip)
    requires Enabled(net, e)
    ensures SameRoles(net, After(net, e, x))
  {
  }

  lemma RolesTwice(net: Net, s: Net, t: Net)
    requires SameRoles(net, s) && SameRoles(s, t)
    ensures SameRoles(net, t)
  {
    forall ip | ip in net.nodes
      ensures SamePlace(net.nodes[ip], t.nodes[ip])
    {
      assert SamePlace(net.nodes[ip], s.nodes[ip]) && SamePlace(s.nodes[ip], t.nodes[ip]);
    }
  }

  /** An NER for `x`. */
  predicate Carries(c: Copy, x: Ip) {
    c.packet.Ner? && c.packet.outsider == x
  }

  /** No NER for `x` that is in the air can get to a master, as the nodes of `start` see it. */
  ghost predicate NoWay(start: Net, net: Net, views: map<Ip, View>, x: Ip) {
    && AllViews(start, views) && SameRoles(start, net) && x !in net.answered
    && forall c | c in net.air && Carries(c, x) :: !Reaches(start, views, c.packet.nextHop, x)
  }

  /** Where an NER comes from if no NE is heard: an NER that was for this node. */
  lemma NerFromNer(n: Joiner, p: Packet, hop: Hop, begun: bool, x: Ip, next: Ip)
    requires Hear(n, p, hop, begun).Done? && Ner(next, x) in Hear(n, p, hop, begun).sent
    requires !(p.Ne? && p.outsider == x)
    ensures p == Ner(n.ip, x) && x != n.ip && !n.isMaster && hop == Via(next)
  {
  }

  lemma NoWayFurther(start: Net, net: Net, views: map<Ip, View>, x: Ip, e: Event, next: Ip)
    requires NoWay(start, net, views, x) && Enabled(net, e) && Follows(start, views, e) && !NewProxy(e, x)
    requires e.Receive? && Ner(next, x) in Hear(net.nodes[e.at], e.copy.packet, e.hop, e.begun).sent
    ensures !Reaches(start, views, next, x)
  {
    assert SamePlace(start.nodes[e.at], net.nodes[e.at]);
    NerFromNer(net.nodes[e.at], e.copy.packet, e.hop, e.begun, x, next);
    assert Carries(e.copy, x) && Onward(start, views, e.at, next, x);
    if Reaches(start, views, next, x) {
      ReachesFrom(start, views, e.at, next, x);
    }
  }

  lemma NoAnswer(start: Net, net: Net, views: map<Ip, View>, x: Ip, e: Event)
    requires NoWay(start, net, views, x) && Enabled(net, e) && Follows(start, views, e)
    ensures x !in After(net, e, x).answered
  {
    if x in After(net, e, x).answered {
      assert SamePlace(start.nodes[e.at], net.nodes[e.at]) && Carries(e.copy, x);
      MasterReaches(start, views, e.at, x);
    }
  }

  lemma NoWayStays(start: Net, net: Net, views: map<Ip, View>, x: Ip, e: Event)
    requires NoWay(start, net, views, x) && Enabled(net, e) && Follows(start, views, e) && !NewProxy(e, x)
    ensures NoWay(start, After(net, e, x), views, x)
  {
    var t := After(net, e, x);
    RolesStay(net, e, x);
    RolesTwice(start, net, t);
    NoAnswer(start, net, views, x, e);
    forall c | c in t.air && Carries(c, x)
      ensures !Reaches(start, views, c.packet.nextHop, x)
    {
      if c !in net.air {
        NoWayFurther(start, net, views, x, e, c.packet.nextHop);
      }
    }
  }

  lemma {:induction false} NeverAnswered(start: Net, net: Net, views: map<Ip, View>, x: Ip, events: seq<Event>)
    requires NoWay(start, net, views, x) && Runs(net, events, x)
    requires forall k | 0 <= k < |events| :: Follows(start, views, events[k]) && !NewProxy(events[k], x)
    ensures x !in End(net, events, x).answered
    decreases |events|
  {
    if events != [] {
      NoWayStays(start, net, views, x, events[0]);
      NeverAnswered(start, After(net, events[0], x), views, x, events[1..]);
    }
  }

  /** The event at which `at` hears the NER for `x` and does what its view says. */
  function Hears(views: map<Ip, View>, sender: Ip, at: Ip, x: Ip): Event
    requires at in views
  {
    Receive(at, Copy(sender, Ner(at, x)), HopOf(views[at]), Ready(views[at]))
  }

  lemma PassesOn(net: Net, views: map<Ip, View>, sender: Ip, at: Ip, next: Ip, x: Ip)
    requires AllViews(net, views) && Onward(net, views, at, next, x) && Copy(sender, Ner(at, x)) in net.air
    ensures Enabled(net, Hears(views, sender, at, x))
    ensures Copy(at, Ner(next, x)) in After(net, Hears(views, sender, at, x), x).air
  {
    var o := Hear(net.nodes[at], Ner(at, x), HopOf(views[at]), Ready(views[at]));
    assert o.sent == [Ner(next, x)] && o.sent[0] in o.sent;
  }

  lemma {:induction false} GetsThrough(start: Net, net: Net, views: map<Ip, View>, sender: Ip, row: seq<Ip>, x: Ip)
    returns (events: seq<Event>)
    requires AllViews(start, views) && SameRoles(start, net) && LeadsUp(start, views, row, x)
    requires Copy(sender, Ner(row[0], x)) in net.air
    ensures Runs(net, events, x) && x in End(net, events, x).answered
    ensures forall k | 0 <= k < |events| :: Follows(start, views, events[k]) && !NewProxy(events[k], x)
    decreases |row|
  {
    assert if |row| > 1 then Onward(start, views, row[0], row[1], x) else Arrived(start, views, row[0], x);
    var e := Hears(views, sender, row[0], x);
    assert SamePlace(start.nodes[row[0]], net.nodes[row[0]]);
    var rest := [];
    if |row| > 1 {
      RolesStay(net, e, x);
      forall ip | ip in net.nodes
        ensures net.nodes[ip].ip == ip
      {
        assert SamePlace(start.nodes[ip], net.nodes[ip]);
      }
      PassesOn(net, views, sender, row[0], row[1], x);
      RolesTwice(start, net, After(net, e, x));
      rest := GetsThrough(start, After(net, e, x), views, row[0], row[1..], x);
    }
    events := [e] + rest;
    assert events[0] == e && events[1..] == rest;
  }

  /**
   * While the tables and the master's round stand as they are, an outsider can be answered, by an
   * NER of the proxies that it has now, exactly if from some NER in the air the best hops lead to a
   * master that may begin a TB.
   */
  lemma AnsweredExactly(net: Net, views: map<Ip, View>, x: Ip)
    requires AllViews(net, views) && x !in net.answered
    ensures (exists events :: RunsAlong(net, views, events, x) && x in End(net, events, x).answered)
      <==> exists c | c in net.air :: Carries(c, x) && Reaches(net, views, c.packet.nextHop, x)
  {
    if c :| c in net.air && Carries(c, x) && Reaches(net, views, c.packet.nextHop, x) {
      var row :| LeadsUp(net, views, row, x) && row[0] == c.packet.nextHop;
      var events := GetsThrough(net, net, views, c.sender, row, x);
      assert RunsAlong(net, views, events, x);
    } else {
      forall events | RunsAlong(net, views, events, x)
        ensures x !in End(net, events, x).answered
      {
        NeverAnswered(net, net, views, x, events);
      }
    }
  }

  // ---------------------------------------------------------------- consistent tables

  /** The distance that a node advertises. */
  function Advertised(net: Net, views: map<Ip, View>, ip: Ip): Short
    requires ip in net.nodes && ip in views
  {
    MyDistance(net.nodes[ip].isMaster, views[ip].table)
  }

  /** The first entry of the table is a usable node of the network other than `x`, and up to date. */
  ghost predicate Current(net: Net, views: map<Ip, View>, ip: Ip, x: Ip) {
    && ip in net.nodes && ip in views && views[ip].table != []
    && var e := views[ip].table[0];
      && Usable(e, views[ip].act) && e.ip in net.nodes && e.ip in views && e.ip != x
      && e.distance == Advertised(net, views, e.ip)
  }

  /** The link to the first entry is acceptable. */
  predicate Acceptable(e: Entry) {
    e.local != WORST_QUALITY && 0.0 <= e.remote * HIGHEST_LOSS_MAGNITUDE <= 1.0
  }

  /** A slave whose next hop is current, over a link that costs at least one unit; a master that may begin a TB. */
  ghost predicate Settled(net: Net, views: map<Ip, View>, ip: Ip, x: Ip) {
    && ip in net.nodes && ip in views
    && if net.nodes[ip].isMaster then Ready(views[ip]) else
        && Current(net, views, ip, x)
        && var e := views[ip].table[0];
          Acceptable(e) && !Clean(e.distance, e.remote * HIGHEST_LOSS_MAGNITUDE)
  }

  ghost predicate AllSettled(net: Net, views: map<Ip, View>, x: Ip) {
    forall ip | ip in net.nodes && ip != x :: Settled(net, views, ip, x)
  }

  /** The next hop of a settled slave advertises less than the slave itself. */
  lemma SettledHop(net: Net, views: map<Ip, View>, ip: Ip, x: Ip) returns (next: Ip)
    requires Settled(net, views, ip, x) && ip != x && !net.nodes[ip].isMaster
    ensures Onward(net, views, ip, next, x) && next in net.nodes && next in views && next != x
    ensures Advertised(net, views, next) < Advertised(net, views, ip)
  {
    var e := views[ip].table[0];
    next := e.ip;
    assert StaleHeads(views[ip].table, views[ip].act) == 0;
    GetDistanceIsHop(e.local, e.remote, e.distance);
    HopGrows(e.distance, e.remote * HIGHEST_LOSS_MAGNITUDE);
  }

  ghost predicate Falling(net: Net, views: map<Ip, View>, row: seq<Ip>) {
    && (forall ip | ip in row :: ip in net.nodes && ip in views)
    && forall i, j | 0 <= i < j < |row| :: Lower(net, views, row[j], row[i])
  }

  ghost predicate Lower(net: Net, views: map<Ip, View>, a: Ip, b: Ip) {
    && a in net.nodes && b in net.nodes && a in views && b in views
    && Advertised(net, views, a) < Advertised(net, views, b)
  }

  lemma FallsFrom(net: Net, views: map<Ip, View>, at: Ip, row: seq<Ip>)
    requires row != [] && Falling(net, views, row) && Lower(net, views, row[0], at)
    ensures Falling(net, views, [at] + row)
  {
    var longer := [at] + row;
    forall i, j | 0 <= i < j < |longer|
      ensures Lower(net, views, longer[j], longer[i])
    {
      assert j == 1 || Lower(net, views, row[j - 1], row[0]);
      assert i == 0 || Lower(net, views, row[j - 1], row[i - 1]);
    }
  }

  /** In a settled network the best hops lead from every node down to a master. */
  lemma {:induction false} SettledRow(net: Net, views: map<Ip, View>, ip: Ip, x: Ip) returns (row: seq<Ip>)
    requires AllSettled(net, views, x) && ip in net.nodes && ip in views && ip != x
    ensures LeadsUp(net, views, row, x) && row[0] == ip && Falling(net, views, row) && x !in row
    decreases Advertised(net, views, ip)
  {
    assert Settled(net, views, ip, x);
    if net.nodes[ip].isMaster {
      row := [ip];
      assert Arrived(net, views, row[0], x);
    } else {
      var next := SettledHop(net, views, ip, x);
      var rest := SettledRow(net, views, next, x);
      LeadsUpFrom(net, views, ip, rest, x);
      FallsFrom(net, views, ip, rest);
      row := [ip] + rest;
    }
  }

  lemma FallingIsDistinct(net: Net, views: map<Ip, View>, row: seq<Ip>)
    requires Falling(net, views, row)
    ensures TbFormat.Distinct(row)
  {
    forall i, j | 0 <= i < j < |row|
      ensures row[i] != row[j]
    {
      assert Lower(net, views, row[j], row[i]);
    }
  }

  lemma RowIsPath(net: Net, views: map<Ip, View>, row: seq<Ip>, x: Ip)
    requires AllViews(net, views) && LeadsUp(net, views, row, x) && TbFormat.Distinct(row) && x !in row && |row| >= 2
    ensures OnPath(net, row, x)
  {
    forall i | 0 <= i < |row|
      ensures IsAt(net, row[i], i == |row| - 1)
    {
      assert i < |row| - 1 ==> Onward(net, views, row[i], row[i + 1], x);
      assert i == |row| - 1 ==> Arrived(net, views, row[i], x);
    }
  }

  /** A proxy for `x` that has sent its NER to its best hop. */
  ghost predicate Proxies(net: Net, views: map<Ip, View>, p: Ip, x: Ip) {
    && IsAt(net, p, false) && p in views && p != x && x in net.nodes[p].outside
    && HopOf(views[p]).Via? && Copy(p, Ner(HopOf(views[p]).ip, x)) in net.air
  }

  lemma SettledTrail(net: Net, views: map<Ip, View>, p: Ip, x: Ip) returns (row: seq<Ip>)
    requires AllViews(net, views) && AllSettled(net, views, x) && Proxies(net, views, p, x)
    ensures row != [] && row[0] == p && LeadsUp(net, views, row, x) && Trail(net, row, x)
  {
    row := SettledRow(net, views, p, x);
    assert |row| == 1 ==> Arrived(net, views, row[0], x);
    FallingIsDistinct(net, views, row);
    RowIsPath(net, views, row, x);
    assert Onward(net, views, row[0], row[1], x);
  }

  lemma GuidedFollows(net: Net, views: map<Ip, View>, row: seq<Ip>, x: Ip, e: Event)
    requires |row| >= 2 && LeadsUp(net, views, row, x) && GuidedStep(row, x, e)
    ensures Follows(net, views, e) && !NewProxy(e, x)
  {
    if e.copy.packet != Nea(x) {
      var i :| 0 < i < |row| && e == Up(row, x, i);
      if i < |row| - 1 {
        assert Onward(net, views, row[i], row[i + 1], x);
      } else {
        assert Arrived(net, views, row[i], x);
      }
    }
  }

  /** The run that brings the NEA back does at each node what its table says. */
  lemma FollowedReturn(net: Net, views: map<Ip, View>, row: seq<Ip>, x: Ip) returns (events: seq<Event>)
    requires Trail(net, row, x) && LeadsUp(net, views, row, x) && Unblocked(net, row, x)
    ensures RunsAlong(net, views, events, x) && Returns(net, row, x, events)
  {
    events := UnblockedComesBack(net, row, x);
    forall k | 0 <= k < |events|
      ensures Follows(net, views, events[k]) && !NewProxy(events[k], x)
    {
      assert GuidedStep(row, x, events[k]);
      GuidedFollows(net, views, row, x, events[k]);
    }
  }

  /** Some run in which all follow their tables brings the NEA back along the row. */
  ghost predicate ReturnsAlong(net: Net, views: map<Ip, View>, row: seq<Ip>, x: Ip)
    requires |row| >= 2
  {
    exists events :: RunsAlong(net, views, events, x) && Returns(net, row, x, events)
  }

  /** Along best hops, the exact condition of NeaComesBackExactly, and of FirstNeaComesBackExactly. */
  lemma ReturnsAlongExactly(net: Net, views: map<Ip, View>, row: seq<Ip>, x: Ip)
    requires Trail(net, row, x) && LeadsUp(net, views, row, x)
    ensures ReturnsAlong(net, views, row, x) <==> Unblocked(net, row, x)
    ensures (forall i | 0 <= i < |row| - 1 :: Copy(row[i], Nea(x)) !in net.air) ==>
      (Unblocked(net, row, x) <==> NoOldProxy(net, row, x))
  {
    NeaComesBackExactly(net, row, x);
    if Unblocked(net, row, x) {
      var events := FollowedReturn(net, views, row, x);
    }
    if forall i | 0 <= i < |row| - 1 :: Copy(row[i], Nea(x)) !in net.air {
      FirstNeaComesBackExactly(net, row, x);
    }
  }

  /**
   * In a network with current tables, links that cost at least one unit, and a master that may begin
   * a TB, the best hops lead the NER of every proxy along a row of distinct nodes to a master, and a
   * run in which all follow their tables brings the NEA back along the row if and only if no old
   * proxy in between blocks it.
   */
  lemma SettledJoin(net: Net, views: map<Ip, View>, p: Ip, x: Ip) returns (row: seq<Ip>)
    requires AllViews(net, views) && AllSettled(net, views, x) && Proxies(net, views, p, x)
    ensures row != [] && row[0] == p && LeadsUp(net, views, row, x) && Trail(net, row, x)
    ensures ReturnsAlong(net, views, row, x) <==> Unblocked(net, row, x)
  {
    row := SettledTrail(net, views, p, x);
    ReturnsAlongExactly(net, views, row, x);
  }

  // ---------------------------------------------------------------- two nodes that route through each other

  ghost predicate Mutual(net: Net, views: map<Ip, View>, a: Ip, b: Ip, x: Ip) {
    && IsAt(net, a, false) && IsAt(net, b, false) && x !in [a, b] && a in views && b in views
    && HopOf(views[a]) == Via(b) && HopOf(views[b]) == Via(a)
  }

  lemma {:induction false} NeverLeavesPair(net: Net, views: map<Ip, View>, a: Ip, b: Ip, x: Ip, row: seq<Ip>)
    requires Mutual(net, views, a, b, x) && row != [] && row[0] in [a, b]
    ensures !LeadsUp(net, views, row, x)
    decreases |row|
  {
    if LeadsUp(net, views, row, x) && |row| > 1 {
      assert Onward(net, views, row[0], row[1], x);
      var rest := row[1..];
      forall i | 0 <= i < |rest| - 1
        ensures Onward(net, views, rest[i], rest[i + 1], x)
      {
        assert Onward(net, views, row[i + 1], row[i + 2], x);
      }
      NeverLeavesPair(net, views, a, b, x, rest);
    }
  }

  /** An NER that has got to one of them is never answered. */
  lemma MutualNeverAnswers(net: Net, views: map<Ip, View>, a: Ip, b: Ip, x: Ip, events: seq<Event>)
    requires AllViews(net, views) && Mutual(net, views, a, b, x) && x !in net.answered
    requires forall c | c in net.air && Carries(c, x) :: c.packet.nextHop in [a, b]
    requires RunsAlong(net, views, events, x)
    ensures x !in End(net, events, x).answered
  {
    if c :| c in net.air && Carries(c, x) && Reaches(net, views, c.packet.nextHop, x) {
      var row :| LeadsUp(net, views, row, x) && row[0] == c.packet.nextHop;
      NeverLeavesPair(net, views, a, b, x, row);
    }
    AnsweredExactly(net, views, x);
  }

  // ---------------------------------------------------------------- tables that the routing conversation makes

  /** The tables of the views are those of the routers, at time `act`. */
  ghost predicate Shows(views: map<Ip, View>, routers: RoutingNet.Net, act: nat) {
    forall ip | ip in routers.routers :: ShowsAt(views, routers, ip, act)
  }

  ghost predicate ShowsAt(views: map<Ip, View>, routers: RoutingNet.Net, ip: Ip, act: nat) {
    ip in routers.routers && ip in views && views[ip].table == routers.routers[ip].table && views[ip].act == act
  }

  /** A loop that the conversation makes swallows every NER that gets to it. */
  lemma LoopSwallows(
      net: Net, views: map<Ip, View>, routers: RoutingNet.Net, a: Ip, b: Ip, m: Ip, act: nat, x: Ip, events: seq<Event>)
    requires AllViews(net, views) && Shows(views, routers, act) && RoutingNet.Loops(routers, a, b, m, act)
    requires IsAt(net, a, false) && IsAt(net, b, false) && x !in [a, b] && x !in net.answered
    requires forall c | c in net.air && Carries(c, x) :: c.packet.nextHop in [a, b]
    requires RunsAlong(net, views, events, x)
    ensures x !in End(net, events, x).answered
  {
    assert ShowsAt(views, routers, a, act) && ShowsAt(views, routers, b, act);
    MutualNeverAnswers(net, views, a, b, x, events);
  }

  /** The nodes of a row, and no others; the first is the master. */
  ghost predicate RowOf(net: Net, row: seq<Ip>) {
    && row != [] && (forall ip | ip in net.nodes :: ip in row)
    && forall i | 0 <= i < |row| :: IsAt(net, row[i], i == 0)
  }

  lemma PositionSettled(net: Net, views: map<Ip, View>, routers: RoutingNet.Net, row: seq<Ip>, ys: seq<real>,
      act: nat, x: Ip, i: nat)
    requires RowOf(net, row) && Shows(views, routers, act) && x !in row && 0 < i < |row|
    requires RoutingNet.SettledTo(routers, row, ys, |row| - 1, act)
    ensures Settled(net, views, row[i], x)
  {
    assert RoutingNet.SettledAt(routers, row, ys, i, act) && RoutingNet.SettledAt(routers, row, ys, i - 1, act);
    assert ShowsAt(views, routers, row[i], act) && ShowsAt(views, routers, row[i - 1], act);
    assert IsAt(net, row[i], false) && IsAt(net, row[i - 1], i == 1);
    var e := RoutingNet.Upstream(row, ys, i, act);
    RoutingNet.LinkGrows(ys, i);
    if i > 1 {
      RoutingNet.LinkGrows(ys, i - 1);
    }
    assert views[row[i]].table[0] == e && !Stale(e, act);
  }

  /** The network that RowSettles ends in is one of those that SettledJoin is about. */
  lemma RowIsSettled(net: Net, views: map<Ip, View>, routers: RoutingNet.Net, row: seq<Ip>, ys: seq<real>,
      act: nat, x: Ip)
    requires RowOf(net, row) && Shows(views, routers, act) && x !in row
    requires RoutingNet.SettledTo(routers, row, ys, |row| - 1, act)
    requires row[0] in views ==> Ready(views[row[0]])
    ensures AllSettled(net, views, x)
  {
    forall ip | ip in net.nodes && ip != x
      ensures Settled(net, views, ip, x)
    {
      var i :| 0 <= i < |row| && row[i] == ip;
      if i == 0 {
        assert RoutingNet.SettledAt(routers, row, ys, 0, act) && ShowsAt(views, routers, row[0], act);
        assert IsAt(net, row[0], true);
      } else {
        PositionSettled(net, views, routers, row, ys, act, x, i);
      }
    }
  }

  // ---------------------------------------------------------------- a neighbour that has not answered

  /**
   * A slave that has heard one PB, from a node that has not answered it yet, follows a null pointer
   * on the first NE that it is asked to take, whoever sends it.
   */
  lemma FirstNeCrashes(n: Joiner, x: Ip, pb: RoutingRuns.Packet, now: nat, begun: bool)
    requires pb.Pb? && pb.inside && pb.sender != n.ip && now <= pb.act + ROUTE_LOSS_DELAY
    requires !n.isMaster && x != n.ip
    ensures RoutingRuns.Runs(RoutingRuns.START, n.ip, [pb])
    ensures var t := RoutingRuns.End(RoutingRuns.START, n.ip, [pb]).table;
      Hear(n, Ne(x, n.ip), BestHop(t, now), begun) == NullPointer
  {
    RoutingRuns.RunOne(RoutingRuns.START, n.ip, pb, []);
    assert [pb] == [pb] + [];
    var e := Entry(pb.sender, pb.distance, pb.pbe, WORST_QUALITY, pb.act, 0);
    assert Dist(e) == UNREACHABLE && Timeout(e) == 2 * ROUTE_LOSS_DELAY;
    var t := RoutingRuns.End(RoutingRuns.START, n.ip, [pb]).table;
    assert t == [e];
  }
}
