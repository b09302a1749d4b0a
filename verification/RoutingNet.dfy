/** The routing conversation between many nodes: PBs, PRs and PCs with the distances that the nodes compute. */
module RoutingNet {
  import opened Bytes
  import opened Distance
  import opened Routing
  import opened Routes
  import opened Runs
  import opened Sequences
  import RoutingRuns
  import TbFormat

  /** `pb` is the distance in the PB that is being retransmitted: it was computed when that PB was built. */
  datatype Router = Router(isMaster: bool, inside: bool, table: seq<Entry>, pb: Option<Short>)

  /** A PR and a PC carry the PBE at which the packet that they answer was heard. */
  datatype Message =
    | Pb(sender: Ip, distance: Short)
    | Pr(sender: Ip, originator: Ip, distance: Short, pbe: real)
    | Pc(sender: Ip, reached: Ip, pbe: real)

  /** All nodes, and all messages that were ever sent. */
  datatype Net = Net(routers: map<Ip, Router>, air: set<Message>)

  datatype Event =
    | Beacon(at: Ip)                                                   // retransmits its PB
    | Hears(at: Ip, message: Message, pbe: real, act: nat)             // any node, any message, any number of times
    | Data(at: Ip, sender: Ip, pbe: real, received: nat, size: Size, act: nat)
    | Chooses(at: Ip, act: nat)                                        // getBestHop
    | Settles(at: Ip, inside: bool)                                    // what else changes the status

  function Advertised(r: Router): Short {
    MyDistance(r.isMaster, r.table)
  }

  /** What a message is to the table of router `r`. */
  function PacketOf(r: Router, m: Message, pbe: real, act: nat): RoutingRuns.Packet {
    match m
    case Pb(sender, distance) => RoutingRuns.Pb(sender, distance, pbe, r.inside, act)
    case Pr(sender, originator, distance, remote) => RoutingRuns.Pr(sender, originator, distance, pbe, remote, act)
    case Pc(sender, reached, remote) => RoutingRuns.Pc(sender, reached, pbe, remote, act)
  }

  function PacketIn(r: Router, e: Event): RoutingRuns.Packet
    requires e.Hears? || e.Data? || e.Chooses?
  {
    match e
    case Hears(_, m, pbe, act) => PacketOf(r, m, pbe, act)
    case Data(_, sender, pbe, received, size, act) => RoutingRuns.Sd(sender, pbe, received, size, act)
    case Chooses(_, act) => RoutingRuns.Choose(act)
  }

  /** The router afterwards, if it can take the event. A PC for it makes it build a new PB. */
  function RouterAfter(r: Router, e: Event): Option<Router> {
    match e
    case Beacon(_) => if r.pb.Some? then Some(r) else None
    case Settles(_, inside) => Some(r.(inside := inside))
    case _ =>
      match RoutingRuns.Receive(r.table, e.at, PacketIn(r, e))
      case None => None
      case Some(table) =>
        var t := r.(table := table);
        Some(if e.Hears? && e.message.Pc? && e.message.reached == e.at then t.(pb := Some(Advertised(t))) else t)
  }

  predicate Enabled(net: Net, e: Event) {
    e.at in net.routers && RouterAfter(net.routers[e.at], e).Some? && (e.Hears? ==> e.message in net.air)
  }

  /** What it sends, being `t` afterwards: a PR for a PB if it is inside, a PC for a PR that is for it. */
  function Sends(t: Router, e: Event): set<Message> {
    match e
    case Beacon(at) => if t.pb.Some? then {Pb(at, t.pb.value)} else {}
    case Hears(at, Pb(sender, _), pbe, _) =>
      if sender != at && t.inside then {Pr(at, sender, Advertised(t), pbe)} else {}
    case Hears(at, Pr(sender, originator, _, _), pbe, _) => if originator == at then {Pc(at, sender, pbe)} else {}
    case _ => {}
  }

  function After(net: Net, e: Event): Net
    requires Enabled(net, e)
  {
    var t := RouterAfter(net.routers[e.at], e).value;
    Net(net.routers[e.at := t], net.air + Sends(t, e))
  }

  function Step(net: Net, e: Event): Option<Net> {
    if Enabled(net, e) then Some(After(net, e)) else None
  }

  ghost predicate Possible(net: Net, events: seq<Event>) {
    RunFrom(Step, net, events).Some?
  }

  ghost function End(net: Net, events: seq<Event>): Net
    requires Possible(net, events)
  {
    RunFrom(Step, net, events).value
  }

  /** At the start tables are empty, and only masters send PBs. */
  ghost predicate Initial(net: Net) {
    net.air == {} && forall ip | ip in net.routers :: Begins(net.routers[ip])
  }

  predicate Begins(r: Router) {
    r.table == [] && !r.inside && r.pb == if r.isMaster then Some(0) else None
  }

  // ---------------------------------------------------------------- nobody is nearer than it is

  /** The loss costs at least one unit, from whatever distance below `top` on; or the link is at its worst. */
  predicate Costs(pbe: real, top: nat) {
    pbe == WORST_QUALITY
    || (0.0 <= pbe * HIGHEST_LOSS_MAGNITUDE <= 1.0 && pbe * HIGHEST_LOSS_MAGNITUDE * (65535 - top) as real >= 1.0)
  }

  /** How many hops each node is from a master, at most `top`. */
  ghost predicate Levels(net: Net, level: map<Ip, nat>, top: nat) {
    && net.routers.Keys <= level.Keys && top < UNREACHABLE && (forall ip | ip in level :: level[ip] <= top)
    && forall ip | ip in net.routers && net.routers[ip].isMaster :: level[ip] == 0
  }

  function SenderOf(e: Event): Ip
    requires e.Hears? || e.Data?
  {
    if e.Hears? then e.message.sender else e.sender
  }

  /** A node hears only nodes at most one hop nearer, and at a loss that costs something. */
  ghost predicate OneHop(level: map<Ip, nat>, top: nat, e: Event) {
    e.Hears? || e.Data? ==> Linked(level, e.at, SenderOf(e)) && Costs(e.pbe, top)
  }

  predicate Linked(level: map<Ip, nat>, a: Ip, b: Ip) {
    a in level && b in level && level[a] <= level[b] + 1
  }

  predicate GoodEntry(level: map<Ip, nat>, top: nat, at: Ip, e: Entry) {
    Linked(level, at, e.ip) && e.distance >= level[e.ip] && Costs(e.remote, top)
  }

  ghost predicate GoodTable(level: map<Ip, nat>, top: nat, at: Ip, t: seq<Entry>) {
    forall e | e in t :: GoodEntry(level, top, at, e)
  }

  ghost predicate GoodRouter(level: map<Ip, nat>, top: nat, at: Ip, r: Router) {
    && at in level && (r.isMaster ==> level[at] == 0) && GoodTable(level, top, at, r.table)
    && (r.pb.Some? ==> r.pb.value >= level[at])
  }

  ghost predicate GoodMessage(level: map<Ip, nat>, top: nat, m: Message) {
    m.sender in level && (m.Pc? || m.distance >= level[m.sender]) && (m.Pb? || Costs(m.pbe, top))
  }

  ghost predicate GoodNet(net: Net, level: map<Ip, nat>, top: nat) {
    && Levels(net, level, top)
    && (forall ip | ip in net.routers :: GoodRouter(level, top, ip, net.routers[ip]))
    && forall m | m in net.air :: GoodMessage(level, top, m)
  }

  lemma CostsGrow(d: Short, pbe: real, top: nat)
    requires Costs(pbe, top) && pbe != WORST_QUALITY && d < top < UNREACHABLE
    ensures !Clean(d, pbe * HIGHEST_LOSS_MAGNITUDE)
  {
    var x := pbe * HIGHEST_LOSS_MAGNITUDE;
    assert x * (65535.0 - d as real) == x * (65535 - top) as real + x * (top - d) as real;
  }

  /** A good entry makes nobody nearer than it is. */
  lemma EntryNotTooNear(level: map<Ip, nat>, top: nat, at: Ip, e: Entry)
    requires GoodEntry(level, top, at, e) && level[at] <= top < UNREACHABLE
    ensures Dist(e) >= level[at]
  {
    if e.local != WORST_QUALITY && e.remote != WORST_QUALITY && e.distance != UNREACHABLE {
      var x := e.remote * HIGHEST_LOSS_MAGNITUDE;
      GetDistanceIsHop(e.local, e.remote, e.distance);
      HopBounds(e.distance, x);
      if e.distance < level[at] {
        CostsGrow(e.distance, e.remote, top);
        HopGrows(e.distance, x);
      }
    }
  }

  lemma AdvertisedNotTooNear(level: map<Ip, nat>, top: nat, at: Ip, r: Router)
    requires GoodRouter(level, top, at, r) && level[at] <= top < UNREACHABLE
    ensures Advertised(r) >= level[at]
  {
    if !r.isMaster && r.table != [] {
      assert r.table[0] in r.table;
      EntryNotTooNear(level, top, at, r.table[0]);
    }
  }

  // ---------------------------------------------------------------- every event keeps that

  lemma HeardGood(level: map<Ip, nat>, top: nat, at: Ip, t: seq<Entry>, ip: Ip, act: nat)
    requires GoodTable(level, top, at, t)
    ensures GoodTable(level, top, at, Heard(t, ip, act))
  {
    var k := Find(t, ip);
    if k < |t| {
      assert GoodEntry(level, top, at, t[k]);
    }
  }

  lemma UpdatedGood(level: map<Ip, nat>, top: nat, at: Ip, t: seq<Entry>, r: Report)
    requires GoodTable(level, top, at, t) && Linked(level, at, r.ip)
    requires r.distance >= level[r.ip] && Costs(r.remote, top)
    ensures GoodTable(level, top, at, Updated(t, r))
  {
    var k := Find(t, r.ip);
    var s := if k == |t| then t else Without(t, k);
    var e := if k == |t| then Fresh(r) else Merged(t[k], r);
    if k < |t| {
      WithoutElements(t, k);
    }
    InsertedElements(s, Place(s, Dist(e)), e);
    forall f | f in Updated(t, r)
      ensures GoodEntry(level, top, at, f)
    {
      assert f == e || f in s;
    }
  }

  lemma RolledGood(level: map<Ip, nat>, top: nat, at: Ip, t: seq<Entry>, ip: Ip, pbe: real, size: Size)
    requires GoodTable(level, top, at, t)
    ensures GoodTable(level, top, at, RolledIn(t, ip, pbe, size))
  {
    var k := Find(t, ip);
    if k < |t| {
      assert GoodEntry(level, top, at, t[k]);
    }
  }

  lemma RemoteGood(level: map<Ip, nat>, top: nat, at: Ip, t: seq<Entry>, ip: Ip)
    requires GoodTable(level, top, at, t)
    ensures Costs(RoutingRuns.RemoteOf(t, ip), top)
  {
    var k := Find(t, ip);
    if k < |t| {
      assert GoodEntry(level, top, at, t[k]);
    }
  }

  lemma MessageKeepsTable(level: map<Ip, nat>, top: nat, at: Ip, r: Router, m: Message, pbe: real, act: nat)
    requires GoodRouter(level, top, at, r) && GoodMessage(level, top, m) && Linked(level, at, m.sender)
    requires top < UNREACHABLE && (forall ip | ip in level :: level[ip] <= top)
    requires RoutingRuns.Receive(r.table, at, PacketOf(r, m, pbe, act)).Some?
    ensures GoodTable(level, top, at, RoutingRuns.Receive(r.table, at, PacketOf(r, m, pbe, act)).value)
  {
    match m
    case Pb(sender, distance) =>
      var h := Heard(r.table, sender, act);
      HeardGood(level, top, at, r.table, sender, act);
      RemoteGood(level, top, at, h, sender);
      UpdatedGood(level, top, at, h,
        Report(sender, distance, pbe, RoutingRuns.RemoteOf(h, sender), act, RoutingRuns.PB_SIZE));
    case Pr(sender, _, distance, remote) =>
      UpdatedGood(level, top, at, r.table, Report(sender, distance, pbe, remote, act, RoutingRuns.PR_SIZE));
    case Pc(sender, reached, remote) =>
      if reached == at {
        var e := r.table[Find(r.table, sender)];
        assert GoodEntry(level, top, at, e);
        UpdatedGood(level, top, at, r.table, Report(sender, e.distance, pbe, remote, act, RoutingRuns.PC_SIZE));
      }
  }

  lemma DataKeepsTable(level: map<Ip, nat>, top: nat, at: Ip, t: seq<Entry>, e: Event)
    requires GoodTable(level, top, at, t) && e.Data? && Linked(level, at, e.sender)
    requires top < UNREACHABLE && (forall ip | ip in level :: level[ip] <= top)
    ensures var p := RoutingRuns.Sd(e.sender, e.pbe, e.received, e.size, e.act);
      GoodTable(level, top, at, RoutingRuns.Receive(t, at, p).value)
  {
    var h := Heard(t, e.sender, e.act);
    HeardGood(level, top, at, t, e.sender, e.act);
    UpdatedGood(level, top, at, h, Report(e.sender, UNREACHABLE, e.pbe, WORST_QUALITY, e.received, e.size));
    RolledGood(level, top, at, h, e.sender, e.pbe, e.size);
  }

  lemma RouterStaysGood(net: Net, level: map<Ip, nat>, top: nat, e: Event)
    requires GoodNet(net, level, top) && Enabled(net, e) && OneHop(level, top, e)
    ensures GoodRouter(level, top, e.at, RouterAfter(net.routers[e.at], e).value)
  {
    var r := net.routers[e.at];
    assert GoodRouter(level, top, e.at, r);
    match e
    case Hears(at, m, pbe, act) =>
      assert GoodMessage(level, top, m);
      MessageKeepsTable(level, top, at, r, m, pbe, act);
      var t := r.(table := RoutingRuns.Receive(r.table, at, PacketOf(r, m, pbe, act)).value);
      AdvertisedNotTooNear(level, top, at, t);
    case Data(at, _, _, _, _, _) => DataKeepsTable(level, top, at, r.table, e);
    case _ =>
  }

  lemma StepStaysGood(net: Net, level: map<Ip, nat>, top: nat, e: Event)
    requires GoodNet(net, level, top) && Enabled(net, e) && OneHop(level, top, e)
    ensures GoodNet(After(net, e), level, top)
  {
    var t := RouterAfter(net.routers[e.at], e).value;
    RouterStaysGood(net, level, top, e);
    AdvertisedNotTooNear(level, top, e.at, t);
    forall m | m in Sends(t, e)
      ensures GoodMessage(level, top, m)
    {
    }
  }

  lemma {:induction false} RunStaysGood(net: Net, level: map<Ip, nat>, top: nat, events: seq<Event>)
    requires GoodNet(net, level, top) && Possible(net, events)
    requires forall k | 0 <= k < |events| :: OneHop(level, top, events[k])
    ensures GoodNet(End(net, events), level, top)
    decreases |events|
  {
    if events != [] {
      StepStaysGood(net, level, top, events[0]);
      RunStaysGood(After(net, events[0]), level, top, events[1..]);
    }
  }

  /**
   * In every run, however stale the distances that travel, no node advertises less than the number of
   * hops that it is away from a master, if each link costs at least one unit.
   */
  lemma NobodyIsTooNear(net: Net, level: map<Ip, nat>, top: nat, events: seq<Event>, ip: Ip)
    requires Initial(net) && Levels(net, level, top) && Possible(net, events)
    requires forall k | 0 <= k < |events| :: OneHop(level, top, events[k])
    requires ip in End(net, events).routers
    ensures ip in level && Advertised(End(net, events).routers[ip]) >= level[ip]
  {
    forall at | at in net.routers
      ensures GoodRouter(level, top, at, net.routers[at])
    {
      assert Begins(net.routers[at]);
    }
    RunStaysGood(net, level, top, events);
    assert GoodRouter(level, top, ip, End(net, events).routers[ip]);
    AdvertisedNotTooNear(level, top, ip, End(net, events).routers[ip]);
  }

  // ---------------------------------------------------------------- a row that settles

  /** What the node at position `i` of a row comes to advertise, if `ys[i]` is the PBE of the link before it. */
  function DistanceAt(ys: seq<real>, i: nat): Short
    requires i < |ys|
  {
    if i == 0 then 0 else GetDistance(ys[i], ys[i], DistanceAt(ys, i - 1))
  }

  /** The link before position `i` is acceptable, and costs at least one unit. */
  predicate LinkAt(ys: seq<real>, i: nat)
    requires 0 < i < |ys|
  {
    0.0 <= ys[i] * HIGHEST_LOSS_MAGNITUDE < 1.0 && !Clean(DistanceAt(ys, i - 1), ys[i] * HIGHEST_LOSS_MAGNITUDE)
  }

  lemma LinkGrows(ys: seq<real>, i: nat)
    requires 0 < i < |ys| && LinkAt(ys, i)
    ensures DistanceAt(ys, i - 1) < DistanceAt(ys, i) < UNREACHABLE && ys[i] != WORST_QUALITY
  {
    var d, x := DistanceAt(ys, i - 1), ys[i] * HIGHEST_LOSS_MAGNITUDE;
    GetDistanceIsHop(ys[i], ys[i], d);
    HopBounds(d, x);
    HopGrows(d, x);
  }

  /** The entry that position `i` comes to have of the one before. */
  function Upstream(row: seq<Ip>, ys: seq<real>, i: nat, act: nat): Entry
    requires 0 < i < |row| && |ys| == |row|
  {
    Entry(row[i - 1], DistanceAt(ys, i - 1), ys[i], ys[i], act, RoutingRuns.PC_SIZE)
  }

  predicate FirstIs(t: seq<Entry>, e: Entry) {
    t != [] && t[0] == e
  }

  /** Position `i` advertises its distance in its PB, and has the node before it at the head of its table. */
  ghost predicate SettledAt(net: Net, row: seq<Ip>, ys: seq<real>, i: nat, act: nat)
    requires i < |row| == |ys|
  {
    && row[i] in net.routers && net.routers[row[i]].pb == Some(DistanceAt(ys, i))
    && (net.routers[row[i]].isMaster <==> i == 0)
    && (i > 0 ==> FirstIs(net.routers[row[i]].table, Upstream(row, ys, i, act)))
  }

  /** A slave that is inside and has heard nothing. */
  ghost predicate WaitsAt(net: Net, ip: Ip) {
    && ip in net.routers && !net.routers[ip].isMaster && net.routers[ip].inside && net.routers[ip].table == []
    && net.routers[ip].pb == None
  }

  /** The links of a row of distinct nodes. */
  ghost predicate Line(row: seq<Ip>, ys: seq<real>) {
    |row| == |ys| && TbFormat.Distinct(row) && forall i | 0 < i < |row| :: LinkAt(ys, i)
  }

  /** The row has settled up to position `k`, which has heard nobody else. */
  ghost predicate SettledTo(net: Net, row: seq<Ip>, ys: seq<real>, k: nat, act: nat) {
    && Line(row, ys) && k < |row| && (forall i | 0 <= i <= k :: SettledAt(net, row, ys, i, act))
    && row[k] in net.routers && |net.routers[row[k]].table| == (if k == 0 then 0 else 1)
    && forall i | k < i < |row| :: WaitsAt(net, row[i])
  }

  /** The PB of `from`, the PR that answers it, and the PC that confirms that, over a link of PBE `y` both ways. */
  function Talk(from: Ip, to: Ip, d: Short, y: real, act: nat): seq<Event> {
    Introduce(from, to, d, y, act) + Confirm(from, to, y, act)
  }

  function Introduce(from: Ip, to: Ip, d: Short, y: real, act: nat): seq<Event> {
    [Beacon(from), Hears(to, Pb(from, d), y, act)]
  }

  function Confirm(from: Ip, to: Ip, y: real, act: nat): seq<Event> {
    [Hears(from, Pr(to, from, UNREACHABLE, y), y, act), Hears(to, Pc(from, to, y), y, act)]
  }

  // What the three packets do to the two tables.

  lemma PbIntroduces(a: Ip, b: Ip, d: Short, y: real, act: nat)
    requires a != b
    ensures RoutingRuns.Receive([], b, RoutingRuns.Pb(a, d, y, true, act))
      == Some([Entry(a, d, y, WORST_QUALITY, act, 0)])
    ensures MyDistance(false, [Entry(a, d, y, WORST_QUALITY, act, 0)]) == UNREACHABLE
  {
    var e := Entry(a, d, y, WORST_QUALITY, act, 0);
    assert Updated([], Report(a, d, y, WORST_QUALITY, act, RoutingRuns.PB_SIZE)) == [e];
  }

  lemma PrGoesBehind(a: Ip, b: Ip, t: seq<Entry>, y: real, act: nat)
    requires |t| <= 1 && (t != [] ==> t[0].ip != b && Dist(t[0]) < UNREACHABLE)
    ensures var s := RoutingRuns.Receive(t, a, RoutingRuns.Pr(b, a, UNREACHABLE, y, y, act));
      s.Some? && (t != [] ==> FirstIs(s.value, t[0]))
  {
    if t != [] {
      var e := Fresh(Report(b, UNREACHABLE, y, y, act, RoutingRuns.PR_SIZE));
      assert Find(t, b) == 1 && Dist(e) == UNREACHABLE && Place(t, Dist(e)) == 1;
    }
  }

  lemma PcConfirms(a: Ip, b: Ip, d: Short, y: real, act: nat)
    ensures RoutingRuns.Receive([Entry(a, d, y, WORST_QUALITY, act, 0)], b, RoutingRuns.Pc(a, b, y, y, act))
      == Some([Entry(a, d, y, y, act, RoutingRuns.PC_SIZE)])
  {
    var t, e := [Entry(a, d, y, WORST_QUALITY, act, 0)], Entry(a, d, y, y, act, RoutingRuns.PC_SIZE);
    assert Average(y, 0, y, RoutingRuns.PC_SIZE) == y;
    assert Find(t, a) == 0 && Without(t, 0) == [];
    assert Updated(t, Report(a, d, y, y, act, RoutingRuns.PC_SIZE)) == [e];
  }

  /** The two routers of a conversation afterwards. */
  ghost predicate Talked(net: Net, t: Net, a: Ip, b: Ip, e: Entry) {
    && a in net.routers && b in net.routers && a != b && a in t.routers
    && t.routers == net.routers[a := t.routers[a]][b := net.routers[b].(table := [e], pb := Some(Dist(e)))]
    && t.routers[a] == net.routers[a].(table := t.routers[a].table)
    && (net.routers[a].table != [] ==> FirstIs(t.routers[a].table, net.routers[a].table[0]))
  }

  lemma FirstHalf(net: Net, a: Ip, b: Ip, d: Short, y: real, act: nat) returns (t: Net)
    requires a in net.routers && a != b && net.routers[a].pb == Some(d) && WaitsAt(net, b)
    ensures RunFrom(Step, net, Introduce(a, b, d, y, act)) == Some(t)
    ensures t.routers == net.routers[b := net.routers[b].(table := [Entry(a, d, y, WORST_QUALITY, act, 0)])]
    ensures Pr(b, a, UNREACHABLE, y) in t.air
  {
    var e, f := Beacon(a), Hears(b, Pb(a, d), y, act);
    PbIntroduces(a, b, d, y, act);
    TwoSteps(Step, net, e, f);
    t := After(After(net, e), f);
  }

  lemma SecondHalf(net: Net, a: Ip, b: Ip, d: Short, y: real, act: nat) returns (t: Net)
    requires a in net.routers && b in net.routers && a != b && Pr(b, a, UNREACHABLE, y) in net.air
    requires |net.routers[a].table| <= 1
    requires net.routers[a].table != [] ==>
      net.routers[a].table[0].ip != b && Dist(net.routers[a].table[0]) < UNREACHABLE
    requires !net.routers[b].isMaster && net.routers[b].table == [Entry(a, d, y, WORST_QUALITY, act, 0)]
    ensures RunFrom(Step, net, Confirm(a, b, y, act)) == Some(t)
    ensures Talked(net, t, a, b, Entry(a, d, y, y, act, RoutingRuns.PC_SIZE))
    ensures Some(t.routers[a].table)
      == RoutingRuns.Receive(net.routers[a].table, a, RoutingRuns.Pr(b, a, UNREACHABLE, y, y, act))
  {
    var e, f := Hears(a, Pr(b, a, UNREACHABLE, y), y, act), Hears(b, Pc(a, b, y), y, act);
    PrGoesBehind(a, b, net.routers[a].table, y, act);
    PcConfirms(a, b, d, y, act);
    TwoSteps(Step, net, e, f);
    t := After(After(net, e), f);
  }

  /** A conversation between a node that sends PBs and one that has heard nothing. */
  lemma TalkRuns(net: Net, from: Ip, to: Ip, d: Short, y: real, act: nat)
    requires from in net.routers && from != to && net.routers[from].pb == Some(d) && WaitsAt(net, to)
    requires |net.routers[from].table| <= 1
    requires net.routers[from].table != [] ==>
      net.routers[from].table[0].ip != to && Dist(net.routers[from].table[0]) < UNREACHABLE
    ensures Possible(net, Talk(from, to, d, y, act))
    ensures var t := End(net, Talk(from, to, d, y, act));
      && Talked(net, t, from, to, Entry(from, d, y, y, act, RoutingRuns.PC_SIZE))
      && Some(t.routers[from].table)
         == RoutingRuns.Receive(net.routers[from].table, from, RoutingRuns.Pr(to, from, UNREACHABLE, y, y, act))
  {
    var s := FirstHalf(net, from, to, d, y, act);
    var t := SecondHalf(s, from, to, d, y, act);
    Appended(Step, net, Introduce(from, to, d, y, act), Confirm(from, to, y, act));
  }

  lemma TalkedSettles(net: Net, t: Net, row: seq<Ip>, ys: seq<real>, k: nat, act: nat)
    requires SettledTo(net, row, ys, k, act) && k + 1 < |row|
    requires Talked(net, t, row[k], row[k + 1], Upstream(row, ys, k + 1, act))
    ensures SettledTo(t, row, ys, k + 1, act)
  {
    assert SettledAt(net, row, ys, k, act) && WaitsAt(net, row[k + 1]);
    LinkGrows(ys, k + 1);
    forall i | 0 <= i <= k + 1
      ensures SettledAt(t, row, ys, i, act)
    {
      assert i <= k ==> SettledAt(net, row, ys, i, act);
    }
    forall i | k + 1 < i < |row|
      ensures WaitsAt(t, row[i])
    {
      assert WaitsAt(net, row[i]);
    }
  }

  /** The conversation that settles position `i`. */
  function Conversation(row: seq<Ip>, ys: seq<real>, i: nat, act: nat): seq<Event>
    requires 0 < i < |row| == |ys|
  {
    Talk(row[i - 1], row[i], DistanceAt(ys, i - 1), ys[i], act)
  }

  /** One conversation settles the next position. */
  lemma NextSettles(net: Net, row: seq<Ip>, ys: seq<real>, k: nat, act: nat)
    requires SettledTo(net, row, ys, k, act) && k + 1 < |row|
    ensures Possible(net, Conversation(row, ys, k + 1, act))
    ensures SettledTo(End(net, Conversation(row, ys, k + 1, act)), row, ys, k + 1, act)
  {
    assert SettledAt(net, row, ys, k, act) && WaitsAt(net, row[k + 1]);
    if k > 0 {
      LinkGrows(ys, k);
    }
    TalkRuns(net, row[k], row[k + 1], DistanceAt(ys, k), ys[k + 1], act);
    TalkedSettles(net, End(net, Conversation(row, ys, k + 1, act)), row, ys, k, act);
  }

  lemma OneFurther(net: Net, first: seq<Event>, row: seq<Ip>, ys: seq<real>, k: nat, act: nat)
    returns (events: seq<Event>)
    requires Possible(net, first) && SettledTo(End(net, first), row, ys, k, act) && k + 1 < |row|
    ensures Possible(net, events) && SettledTo(End(net, events), row, ys, k + 1, act)
  {
    NextSettles(End(net, first), row, ys, k, act);
    Appended(Step, net, first, Conversation(row, ys, k + 1, act));
    events := first + Conversation(row, ys, k + 1, act);
  }

  lemma {:induction false} SettlesTo(net: Net, first: seq<Event>, row: seq<Ip>, ys: seq<real>, k: nat, act: nat)
    returns (events: seq<Event>)
    requires Possible(net, first) && SettledTo(End(net, first), row, ys, 0, act) && k < |row|
    ensures Possible(net, events) && SettledTo(End(net, events), row, ys, k, act)
    decreases k
  {
    if k == 0 {
      events := first;
    } else {
      events := SettlesTo(net, first, row, ys, k - 1, act);
      events := OneFurther(net, events, row, ys, k - 1, act);
    }
  }

  /** The nodes of the row are there, and the first of them is the one master. */
  ghost predicate InLine(net: Net, row: seq<Ip>) {
    forall i | 0 <= i < |row| :: PlacedAt(net, row[i], i == 0)
  }

  ghost predicate PlacedAt(net: Net, ip: Ip, master: bool) {
    ip in net.routers && net.routers[ip].isMaster == master
  }

  /** The slaves of the row up to position `k` are inside, and nothing else has happened. */
  ghost predicate InsideTo(net: Net, row: seq<Ip>, k: nat) {
    && k < |row| && row[0] in net.routers && net.routers[row[0]] == Router(true, false, [], Some(0))
    && forall i | 0 < i < |row| :: EmptyAt(net, row[i], i <= k)
  }

  ghost predicate EmptyAt(net: Net, ip: Ip, inside: bool) {
    ip in net.routers && net.routers[ip] == Router(false, inside, [], None)
  }

  lemma OneEnters(net: Net, row: seq<Ip>, k: nat)
    requires InsideTo(net, row, k) && k + 1 < |row| && TbFormat.Distinct(row)
    ensures var e := Settles(row[k + 1], true); Enabled(net, e) && InsideTo(After(net, e), row, k + 1)
  {
    assert EmptyAt(net, row[k + 1], false);
    forall i | 0 < i < |row|
      ensures EmptyAt(After(net, Settles(row[k + 1], true)), row[i], i <= k + 1)
    {
      assert EmptyAt(net, row[i], i <= k);
    }
  }

  lemma {:induction false} AllEnter(net: Net, row: seq<Ip>, k: nat) returns (events: seq<Event>)
    requires InsideTo(net, row, 0) && k < |row| && TbFormat.Distinct(row)
    ensures Possible(net, events) && InsideTo(End(net, events), row, k)
    decreases k
  {
    events := [];
    if k > 0 {
      events := AllEnter(net, row, k - 1);
      var t, e := End(net, events), Settles(row[k], true);
      OneEnters(t, row, k - 1);
      OneStep(Step, t, e);
      Appended(Step, net, events, [e]);
      events := events + [e];
    }
  }

  lemma AllInside(net: Net, row: seq<Ip>, ys: seq<real>, act: nat)
    requires |row| > 0 && InsideTo(net, row, |row| - 1) && Line(row, ys)
    ensures SettledTo(net, row, ys, 0, act)
  {
    forall i | 0 < i < |row|
      ensures WaitsAt(net, row[i])
    {
      assert EmptyAt(net, row[i], true);
    }
  }

  /**
   * For every row of distinct nodes from a master on, whose links cost at least one unit and are not
   * at their worst, there is a run from the start after which each node has the one before it for its
   * nearest neighbour, with the distance that that one advertises.
   */
  lemma RowSettles(net: Net, row: seq<Ip>, ys: seq<real>, act: nat) returns (events: seq<Event>)
    requires Initial(net) && row != [] && InLine(net, row) && Line(row, ys)
    ensures Possible(net, events) && SettledTo(End(net, events), row, ys, |row| - 1, act)
  {
    assert PlacedAt(net, row[0], true) && Begins(net.routers[row[0]]);
    forall i | 0 < i < |row|
      ensures EmptyAt(net, row[i], false)
    {
      assert PlacedAt(net, row[i], false) && Begins(net.routers[row[i]]);
    }
    events := AllEnter(net, row, |row| - 1);
    AllInside(End(net, events), row, ys, act);
    events := SettlesTo(net, events, row, ys, |row| - 1, act);
  }

  // ---------------------------------------------------------------- a loop over links without loss

  /** The entry of a neighbour at distance 0 that has confirmed, over a link without loss. */
  function Confirmed(ip: Ip, act: nat): Entry {
    Entry(ip, 0, 0.0, 0.0, act, RoutingRuns.PC_SIZE)
  }

  /** The one that it has after only a PR, and after a PB on top of that. */
  function Answered(ip: Ip, act: nat): Entry {
    Entry(ip, UNREACHABLE, 0.0, 0.0, act, 0)
  }

  function Renewed(ip: Ip, act: nat): Entry {
    Entry(ip, 0, 0.0, 0.0, act, RoutingRuns.PB_SIZE)
  }

  lemma NoLoss(ip: Ip, act: nat)
    ensures Dist(Confirmed(ip, act)) == Dist(Renewed(ip, act)) == 0 && Dist(Answered(ip, act)) == UNREACHABLE
    ensures !Stale(Confirmed(ip, act), act) && !Stale(Renewed(ip, act), act)
  {
    assert Span(0.0, 0.0) == 0.0;
    assert Timeout(Confirmed(ip, act)) == Timeout(Renewed(ip, act)) == ROUTE_LOSS_DELAY;
  }

  lemma PrIsAdded(a: Ip, b: Ip, m: Ip, act: nat)
    requires a != m
    ensures RoutingRuns.Receive([Confirmed(m, act)], b, RoutingRuns.Pr(a, b, UNREACHABLE, 0.0, 0.0, act))
      == Some([Confirmed(m, act), Answered(a, act)])
  {
    NoLoss(m, act);
    NoLoss(a, act);
    var t, e := [Confirmed(m, act)], Answered(a, act);
    assert Find(t, a) == 1 && Place(t, Dist(e)) == 1;
    assert t[..1] + [e] + t[1..] == [t[0], e];
  }

  /** Of two entries the renewed one is taken out first, and then goes before the single one at the same distance. */
  lemma PbOvertakes(a: Ip, b: Ip, m: Ip, act: nat)
    requires a != m && a != b
    ensures RoutingRuns.Receive([Confirmed(m, act), Answered(a, act)], b, RoutingRuns.Pb(a, 0, 0.0, true, act))
      == Some([Renewed(a, act), Confirmed(m, act)])
  {
    NoLoss(m, act);
    NoLoss(a, act);
    var t, e := [Confirmed(m, act), Answered(a, act)], Renewed(a, act);
    FindIs(t, a, 1);
    assert Heard(t, a, act) == t && Without(t, 1) == [Confirmed(m, act)];
    assert Average(0.0, 0, 0.0, RoutingRuns.PB_SIZE) == 0.0;
    assert Merged(t[1], Report(a, 0, 0.0, 0.0, act, RoutingRuns.PB_SIZE)) == e;
    assert Place([t[0]], Dist(e)) == 0;
    assert [t[0]][..0] + [e] + [t[0]][0..] == [e, t[0]];
  }

  /** A master `m` and two slaves `a` and `b` that are inside, before anything has been heard. */
  ghost predicate Trio(net: Net, a: Ip, b: Ip, m: Ip) {
    && TbFormat.Distinct([m, b, a]) && InsideTo(net, [m, b, a], 2)
  }

  lemma TrioRouters(net: Net, a: Ip, b: Ip, m: Ip)
    requires Trio(net, a, b, m)
    ensures a != b && a != m && b != m && WaitsAt(net, b) && WaitsAt(net, a)
    ensures m in net.routers && net.routers[m] == Router(true, false, [], Some(0))
  {
    var row := [m, b, a];
    assert row[0] == m && row[1] == b && row[2] == a;
    assert EmptyAt(net, row[1], true) && EmptyAt(net, row[2], true);
  }

  /** What `b` and `a` have in their tables after both conversations. */
  lemma BothTalked(net: Net, a: Ip, b: Ip, m: Ip, act: nat) returns (t: Net)
    requires Trio(net, a, b, m)
    ensures var both := Talk(m, b, 0, 0.0, act) + Talk(b, a, 0, 0.0, act); Possible(net, both) && t == End(net, both)
    ensures a in t.routers && t.routers[a] == Router(false, true, [Confirmed(b, act)], Some(0))
    ensures b in t.routers && t.routers[b] == Router(false, true, [Confirmed(m, act), Answered(a, act)], Some(0))
  {
    TrioRouters(net, a, b, m);
    NoLoss(m, act);
    NoLoss(b, act);
    TalkRuns(net, m, b, 0, 0.0, act);
    var s := End(net, Talk(m, b, 0, 0.0, act));
    assert s.routers[b] == Router(false, true, [Confirmed(m, act)], Some(0)) && WaitsAt(s, a);
    TalkRuns(s, b, a, 0, 0.0, act);
    PrIsAdded(a, b, m, act);
    Appended(Step, net, Talk(m, b, 0, 0.0, act), Talk(b, a, 0, 0.0, act));
    t := End(s, Talk(b, a, 0, 0.0, act));
  }

  lemma LastBeacon(net: Net, a: Ip, b: Ip, m: Ip, act: nat)
    requires a != b && a != m && a in net.routers && net.routers[a].pb == Some(0)
    requires b in net.routers
    requires net.routers[b] == Router(false, true, [Confirmed(m, act), Answered(a, act)], Some(0))
    ensures var last := [Beacon(a), Hears(b, Pb(a, 0), 0.0, act)];
      && Possible(net, last) && b in End(net, last).routers
      && End(net, last).routers == net.routers[b := End(net, last).routers[b]]
      && End(net, last).routers[b].table == [Renewed(a, act), Confirmed(m, act)]
      && !End(net, last).routers[b].isMaster
  {
    var e, f := Beacon(a), Hears(b, Pb(a, 0), 0.0, act);
    PbOvertakes(a, b, m, act);
    TwoSteps(Step, net, e, f);
  }

  /** Two slaves are each other's next hop, and `b` knows a usable master `m`. */
  ghost predicate Loops(net: Net, a: Ip, b: Ip, m: Ip, act: nat) {
    && a in net.routers && b in net.routers
    && BestHop(net.routers[a].table, act) == Via(b) && BestHop(net.routers[b].table, act) == Via(a)
    && Advertised(net.routers[a]) == Advertised(net.routers[b]) == 0
    && exists e | e in net.routers[b].table :: e.ip == m && Usable(e, act)
  }

  lemma TrioLoops(net: Net, a: Ip, b: Ip, m: Ip, act: nat) returns (events: seq<Event>)
    requires Trio(net, a, b, m)
    ensures Possible(net, events) && Loops(End(net, events), a, b, m, act)
  {
    TrioRouters(net, a, b, m);
    var first, last := Talk(m, b, 0, 0.0, act) + Talk(b, a, 0, 0.0, act), [Beacon(a), Hears(b, Pb(a, 0), 0.0, act)];
    var s := BothTalked(net, a, b, m, act);
    LastBeacon(s, a, b, m, act);
    Appended(Step, net, first, last);
    NoLoss(a, act);
    NoLoss(b, act);
    NoLoss(m, act);
    assert Confirmed(m, act) in [Renewed(a, act), Confirmed(m, act)];
    events := first + last;
  }

  /**
   * Over links without loss the conversation itself makes a loop: for every master and two slaves
   * there is a run from the start, with the distances that they compute, after which the slaves
   * route through each other, although the master is in range of one of them.
   */
  lemma PerfectLinksLoop(net: Net, a: Ip, b: Ip, m: Ip, act: nat) returns (events: seq<Event>)
    requires Initial(net) && TbFormat.Distinct([m, b, a]) && InLine(net, [m, b, a])
    ensures Possible(net, events) && Loops(End(net, events), a, b, m, act)
  {
    var row := [m, b, a];
    assert row[0] == m && PlacedAt(net, row[0], true) && Begins(net.routers[m]);
    forall i | 0 < i < |row|
      ensures EmptyAt(net, row[i], false)
    {
      assert PlacedAt(net, row[i], false) && Begins(net.routers[row[i]]);
    }
    var first := AllEnter(net, row, 2);
    var last := TrioLoops(End(net, first), a, b, m, act);
    Appended(Step, net, first, last);
    events := first + last;
  }
}
