/** How an outsider joins: NE to a proxy, NER up to the master, NEA back along the breadcrumbs. */
module Join {
  import opened Bytes
  import opened Node
  import opened IpList
  import opened Routes
  import TbFormat

  datatype Packet =
    | Ne(outsider: Ip, proxy: Ip)
    | Nep(proxy: Ip, outsider: Ip)
    | Ner(nextHop: Ip, outsider: Ip)
    | Nea(outsider: Ip)

  /**
   * The part of `Self` that joining is about. `ne` says that an NE is being retransmitted; `ner` is
   * the one NER that is, if any.
   */
  datatype Joiner = Joiner(
    ip: Ip, isMaster: bool, status: Status, subs: seq<Ip>, outside: seq<Ip>, pending: seq<Ip>,
    ne: bool, ner: Option<Packet>)

  /** What a handler leads to: the node and what it sends, a null pointer that it follows, or a restart. */
  datatype Outcome = Done(node: Joiner, sent: seq<Packet>) | NullPointer | Restarting

  /** `n` hands the NER for `outsider` to its next hop; `getBestHop` may find none, or not return. */
  function PassUp(n: Joiner, outsider: Ip, hop: Hop, proxy: bool): Outcome {
    match hop
    case NoHop => NullPointer
    case Restart => Restarting
    case Via(next) =>
      if proxy then Done(n.(ner := Some(Ner(next, outsider))), [Nep(n.ip, outsider), Ner(next, outsider)])
      else Done(n, [Ner(next, outsider)])
  }

  /**
   * The four handlers. `hop` is what `getBestHop` would say now, `begun` whether
   * `beginTBTransmission` would start or remake a TB.
   */
  function Hear(n: Joiner, p: Packet, hop: Hop, begun: bool): Outcome {
    match p
    case Ne(outsider, proxy) =>
      if outsider == n.ip || proxy != n.ip then Done(n, [])
      else
        var s := n.(subs := Listed(n.subs, outsider));
        if n.isMaster then Done(s, if begun then [Nep(n.ip, outsider)] else [])
        else PassUp(s.(outside := Listed(n.outside, outsider)), outsider, hop, true)
    case Nep(proxy, outsider) =>
      if proxy == n.ip || outsider != n.ip then Done(n, []) else Done(n.(status := Waiting, ne := false), [])
    case Ner(nextHop, outsider) =>
      if outsider == n.ip || nextHop != n.ip then Done(n, [])
      else
        var s := n.(subs := Listed(n.subs, outsider), pending := Listed(n.pending, outsider));
        if n.isMaster then Done(s, if begun then [Nea(outsider)] else [])
        else PassUp(s, outsider, hop, false)
    case Nea(outsider) =>
      if outsider in n.outside then Done(n.(ner := None), [])
      else if outsider in n.pending then Done(n.(pending := Delisted(n.pending, outsider)), [Nea(outsider)])
      else Done(n, [])
  }

  // ---------------------------------------------------------------- when it crashes, and when an NER is lost

  /** The packet asks node `n` to pass an NER up. */
  predicate AsksForRoute(n: Joiner, p: Packet) {
    !n.isMaster && ((p.Ne? && p.proxy == n.ip) || (p.Ner? && p.nextHop == n.ip)) && p.outsider != n.ip
  }

  /**
   * Whatever the routing table `t`, a handler gets no further exactly if it needs a next hop and the
   * first neighbour that is not stale, if any, is unreachable; on a sorted table, if no neighbour is
   * usable. It restarts exactly if besides there were neighbours, all of them stale.
   */
  lemma StuckWithoutRoute(n: Joiner, p: Packet, t: seq<Routing.Entry>, act: nat, begun: bool)
    ensures !Hear(n, p, BestHop(t, act), begun).Done?
      <==> AsksForRoute(n, p) && forall i: nat | FirstFresh(t, i, act) :: !Usable(t[i], act)
    ensures Routing.Sorted(t) ==> (!Hear(n, p, BestHop(t, act), begun).Done?
      <==> AsksForRoute(n, p) && forall e | e in t :: !Usable(e, act))
    ensures Hear(n, p, BestHop(t, act), begun) == Restarting
      <==> AsksForRoute(n, p) && t != [] && forall e | e in t :: Stale(e, act)
  {
    HopIffFirstFreshUsable(t, act);
    if Routing.Sorted(t) {
      HopIffUsable(t, act);
    }
    RestartIffAllStale(t, act);
  }

  predicate NerFor(n: Joiner, x: Ip) {
    n.ner.Some? && n.ner.value.Ner? && n.ner.value.outsider == x
  }

  /**
   * There is one NER buffer: the NER for `x` is no longer retransmitted exactly after an NEA for
   * any outsider that this node was ever proxy for, or an NE that makes it proxy for another.
   */
  lemma NerLostExactly(n: Joiner, p: Packet, hop: Hop, begun: bool, x: Ip)
    requires NerFor(n, x) && Hear(n, p, hop, begun).Done?
    ensures !NerFor(Hear(n, p, hop, begun).node, x)
      <==> || (p.Nea? && p.outsider in n.outside)
           || (p.Ne? && p.proxy == n.ip && !n.isMaster && p.outsider != n.ip && p.outsider != x)
  {
  }

  /** The packet asks node `n` to take in the outsider `x`: directly, or from further out. */
  predicate AsksDirectly(n: Joiner, p: Packet, x: Ip) {
    p == Ne(x, n.ip) && x != n.ip
  }

  predicate AsksFromBelow(n: Joiner, p: Packet, x: Ip) {
    p == Ner(n.ip, x) && x != n.ip
  }

  /**
   * What the handlers do to the three lists, address by address: an NE or NER for this node makes
   * the outsider a slave, an NE to a slave makes it an outside slave for good, an NER lays a
   * breadcrumb, and an NEA takes the breadcrumb away unless the node was once a proxy.
   */
  lemma ListsExactly(n: Joiner, p: Packet, hop: Hop, begun: bool, x: Ip)
    requires TbFormat.Distinct(n.pending) && Hear(n, p, hop, begun).Done?
    ensures var m := Hear(n, p, hop, begun).node;
      && (x in m.subs <==> x in n.subs || AsksDirectly(n, p, x) || AsksFromBelow(n, p, x))
      && (x in m.outside <==> x in n.outside || (AsksDirectly(n, p, x) && !n.isMaster))
      && (x in m.pending <==> (x in n.pending && !(p == Nea(x) && x !in n.outside)) || AsksFromBelow(n, p, x))
  {
    var o := if p.Nep? then x else p.outsider;
    InListed(n.subs, o, x);
    InListed(n.outside, o, x);
    InListed(n.pending, o, x);
    DelistedSet(n.pending, o);
    assert x in SetOf(Delisted(n.pending, o)) <==> x in SetOf(n.pending) && x != o;
  }

  lemma InListed(s: seq<Ip>, o: Ip, x: Ip)
    ensures x in Listed(s, o) <==> x in s || x == o
  {
    assert o !in s ==> Listed(s, o)[0] == o && Listed(s, o)[1..] == s;
  }

  // ---------------------------------------------------------------- runs of a whole network

  /** A packet, and the node that sent this copy of it. */
  datatype Copy = Copy(sender: Ip, packet: Packet)

  /**
   * All nodes, all copies that were ever sent, the outsiders that a master has answered with an NEA
   * of its own, and how often an NEA for `x` was passed on or a breadcrumb for `x` laid.
   */
  datatype Net = Net(nodes: map<Ip, Joiner>, air: set<Copy>, answered: set<Ip>, passed: nat, laid: nat)

  datatype Event =
    | Ask(outsider: Ip, proxy: Ip)                            // an outsider sends an NE
    | Receive(at: Ip, copy: Copy, hop: Hop, begun: bool)      // any node, any copy, any number of times
    | Data(at: Ip, sender: Ip)                                // SD_RX, which lists the sender, too
    | Settle(at: Ip, status: Status, ne: bool)                // whatever else changes the status: never to Waiting

  ghost predicate Enabled(net: Net, e: Event) {
    match e
    case Ask(outsider, _) => outsider in net.nodes ==> net.nodes[outsider].status == Outside
    case Receive(at, c, hop, begun) =>
      at in net.nodes && c in net.air && Hear(net.nodes[at], c.packet, hop, begun).Done?
    case Data(at, _) => at in net.nodes
    case Settle(at, status, ne) => at in net.nodes && status != Waiting && (ne ==> net.nodes[at].ne)
  }

  function HearData(n: Joiner, sender: Ip): Joiner {
    n.(subs := Listed(n.subs, sender), pending := Listed(n.pending, sender))
  }

  ghost function Copies(sender: Ip, sent: seq<Packet>): set<Copy> {
    set q | q in sent :: Copy(sender, q)
  }

  /** The node that an event changes, afterwards. */
  ghost function NodeAfter(net: Net, e: Event): Joiner
    requires Enabled(net, e) && !e.Ask?
  {
    match e
    case Receive(at, c, hop, begun) => Hear(net.nodes[at], c.packet, hop, begun).node
    case Data(at, sender) => HearData(net.nodes[at], sender)
    case Settle(at, status, ne) => net.nodes[at].(status := status, ne := ne)
  }

  function Laid(before: Joiner, after: Joiner, x: Ip): nat {
    if x in after.pending && x !in before.pending then 1 else 0
  }

  ghost function After(net: Net, e: Event, x: Ip): Net
    requires Enabled(net, e)
  {
    match e
    case Ask(outsider, proxy) =>
      net.(air := net.air + {Copy(outsider, Ne(outsider, proxy))},
           nodes := if outsider !in net.nodes then net.nodes
                    else net.nodes[outsider := net.nodes[outsider].(ne := true)])
    case Receive(at, c, hop, begun) =>
      var n, o := net.nodes[at], Hear(net.nodes[at], c.packet, hop, begun);
      Net(net.nodes[at := o.node], net.air + Copies(at, o.sent),
          if c.packet.Ner? && o.sent != [] && n.isMaster then net.answered + {c.packet.outsider} else net.answered,
          net.passed + (if c.packet == Nea(x) && o.sent != [] then 1 else 0), net.laid + Laid(n, o.node, x))
    case Data(at, sender) =>
      net.(nodes := net.nodes[at := NodeAfter(net, e)], laid := net.laid + Laid(net.nodes[at], NodeAfter(net, e), x))
    case Settle(at, _, _) => net.(nodes := net.nodes[at := NodeAfter(net, e)])
  }

  /** The nodes that still hold a breadcrumb for `x`. */
  ghost function Holders(nodes: map<Ip, Joiner>, x: Ip): set<Ip> {
    set ip | ip in nodes && x in nodes[ip].pending
  }

  /**
   * The lists of a node: each address once, own address never, and whoever is pending or outside is
   * a slave. A waiting node has stopped its NE.
   */
  ghost predicate GoodNode(n: Joiner, ip: Ip) {
    && n.ip == ip && TbFormat.Distinct(n.pending) && ip !in n.subs
    && (forall o | o in n.pending :: o in n.subs)
    && (forall o | o in n.outside :: o in n.subs)
    && (n.status == Waiting ==> !n.ne)
  }

  /** Somebody has taken `o` into its subtree; only the master counts if `master`. */
  ghost predicate Adopted(nodes: map<Ip, Joiner>, o: Ip, master: bool) {
    exists ip | ip in nodes :: o in nodes[ip].subs && (master ==> nodes[ip].isMaster)
  }

  /** A packet was sent for a reason. */
  ghost predicate Justified(nodes: map<Ip, Joiner>, answered: set<Ip>, p: Packet) {
    match p
    case Ne(_, _) => true
    case Nep(proxy, o) => proxy in nodes && o in nodes[proxy].subs
    case Ner(_, o) => Adopted(nodes, o, false)
    case Nea(o) => o in answered
  }

  ghost predicate Inv(net: Net) {
    && (forall ip | ip in net.nodes :: GoodNode(net.nodes[ip], ip))
    && (forall c | c in net.air :: Justified(net.nodes, net.answered, c.packet))
    && (forall o | o in net.answered :: Adopted(net.nodes, o, true))
    && (forall ip | ip in net.nodes && net.nodes[ip].status == Waiting :: Adopted(net.nodes, ip, false))
  }

  /** No handler forgets a slave or an outsider. */
  ghost predicate Grows(n: Joiner, m: Joiner) {
    && m.ip == n.ip && m.isMaster == n.isMaster
    && (forall o | o in n.subs :: o in m.subs)
    && (forall o | o in n.outside :: o in m.outside)
  }

  /** The node's own lists justify the packet, or it passes on what it has heard. */
  predicate SentBy(n: Joiner, p: Packet, q: Packet) {
    match q
    case Ne(_, _) => false
    case Nep(proxy, o) => proxy == n.ip && o in n.subs
    case Ner(_, o) => o in n.subs
    case Nea(o) => q == p || (n.isMaster && o in n.subs && p.Ner? && p.outsider == o)
  }

  lemma PendingListed(n: Joiner, outsider: Ip)
    requires TbFormat.Distinct(n.pending)
    ensures TbFormat.Distinct(Listed(n.pending, outsider))
    ensures TbFormat.Distinct(Delisted(n.pending, outsider))
    ensures forall o | o in Delisted(n.pending, outsider) :: o in n.pending
  {
    ListedSet(n.pending, outsider);
    DelistedSet(n.pending, outsider);
    forall o | o in Delisted(n.pending, outsider)
      ensures o in n.pending
    {
      assert o in SetOf(Delisted(n.pending, outsider));
    }
  }

  /** What a handler does to the node. */
  lemma HearKeepsNode(n: Joiner, p: Packet, hop: Hop, begun: bool)
    requires GoodNode(n, n.ip) && Hear(n, p, hop, begun).Done?
    ensures var o := Hear(n, p, hop, begun);
      && GoodNode(o.node, n.ip) && Grows(n, o.node)
      && (o.node.status == Waiting ==> n.status == Waiting || (p.Nep? && p.outsider == n.ip))
  {
    if !p.Nep? {
      PendingListed(n, p.outsider);
    }
  }

  /** Why it sends what it sends. */
  lemma HearSends(n: Joiner, p: Packet, hop: Hop, begun: bool)
    requires Hear(n, p, hop, begun).Done?
    ensures var o := Hear(n, p, hop, begun); forall q | q in o.sent :: SentBy(o.node, p, q)
  {
  }

  lemma AdoptedStays(nodes: map<Ip, Joiner>, at: Ip, n: Joiner, o: Ip, master: bool)
    requires at in nodes && Grows(nodes[at], n) && Adopted(nodes, o, master)
    ensures Adopted(nodes[at := n], o, master)
  {
    var ip :| ip in nodes && o in nodes[ip].subs && (master ==> nodes[ip].isMaster);
    assert o in nodes[at := n][ip].subs;
  }

  lemma JustifiedStays(nodes: map<Ip, Joiner>, answered: set<Ip>, more: set<Ip>, at: Ip, n: Joiner, p: Packet)
    requires at in nodes && Grows(nodes[at], n) && Justified(nodes, answered, p) && answered <= more
    ensures Justified(nodes[at := n], more, p)
  {
    if p.Ner? {
      AdoptedStays(nodes, at, n, p.outsider, false);
    }
  }

  /** A change of one node keeps everything, if the node stays good and does not start waiting without a reason. */
  lemma NodeChanges(net: Net, at: Ip, n: Joiner)
    requires Inv(net) && at in net.nodes && GoodNode(n, at) && Grows(net.nodes[at], n)
    requires n.status == Waiting ==> Adopted(net.nodes, at, false)
    ensures Inv(net.(nodes := net.nodes[at := n]))
  {
    var nodes := net.nodes[at := n];
    forall c | c in net.air
      ensures Justified(nodes, net.answered, c.packet)
    {
      JustifiedStays(net.nodes, net.answered, net.answered, at, n, c.packet);
    }
    forall o | o in net.answered
      ensures Adopted(nodes, o, true)
    {
      AdoptedStays(net.nodes, at, n, o, true);
    }
    forall ip | ip in nodes && nodes[ip].status == Waiting
      ensures Adopted(nodes, ip, false)
    {
      AdoptedStays(net.nodes, at, n, ip, false);
    }
  }

  lemma AirGrows(net: Net, more: set<Copy>, answered: set<Ip>)
    requires Inv(net) && net.answered <= answered && forall o | o in answered :: Adopted(net.nodes, o, true)
    requires forall c | c in more :: Justified(net.nodes, answered, c.packet)
    ensures Inv(net.(air := net.air + more, answered := answered))
  {
  }

  lemma CountersAside(net: Net, passed: nat, laid: nat)
    requires Inv(net)
    ensures Inv(net.(passed := passed, laid := laid))
  {
  }

  /** No node takes data from itself; nothing else can put its own address into SubSlaves. */
  predicate NotOwnData(e: Event) {
    e.Data? ==> e.sender != e.at
  }

  lemma SentIsJustified(net: Net, at: Ip, p: Packet, q: Packet, answered: set<Ip>)
    requires at in net.nodes && net.nodes[at].ip == at && SentBy(net.nodes[at], p, q)
    requires Justified(net.nodes, answered, p) && (p.Ner? && net.nodes[at].isMaster ==> p.outsider in answered)
    ensures Justified(net.nodes, answered, q)
  {
  }

  lemma ReceiveKeeps(net: Net, at: Ip, c: Copy, hop: Hop, begun: bool, x: Ip)
    requires Inv(net) && Enabled(net, Receive(at, c, hop, begun))
    ensures Inv(After(net, Receive(at, c, hop, begun), x))
  {
    var n := net.nodes[at];
    var o := Hear(n, c.packet, hop, begun);
    assert GoodNode(n, at) && Justified(net.nodes, net.answered, c.packet);
    HearKeepsNode(n, c.packet, hop, begun);
    HearSends(n, c.packet, hop, begun);
    if c.packet.Nep? && c.packet.outsider == at && c.packet.proxy in net.nodes {
      assert at in net.nodes[c.packet.proxy].subs;
    }
    NodeChanges(net, at, o.node);
    var t := net.(nodes := net.nodes[at := o.node]);
    var end := After(net, Receive(at, c, hop, begun), x);
    JustifiedStays(net.nodes, net.answered, end.answered, at, o.node, c.packet);
    if end.answered != net.answered {
      assert c.packet.outsider in t.nodes[at].subs && t.nodes[at].isMaster;
    }
    forall q | q in o.sent
      ensures Justified(t.nodes, end.answered, q)
    {
      SentIsJustified(t, at, c.packet, q, end.answered);
    }
    AirGrows(t, Copies(at, o.sent), end.answered);
    CountersAside(t.(air := end.air, answered := end.answered), end.passed, end.laid);
  }

  lemma DataKeeps(net: Net, at: Ip, sender: Ip, x: Ip)
    requires Inv(net) && Enabled(net, Data(at, sender)) && sender != at
    ensures Inv(After(net, Data(at, sender), x))
  {
    var n := HearData(net.nodes[at], sender);
    assert GoodNode(net.nodes[at], at);
    PendingListed(net.nodes[at], sender);
    NodeChanges(net, at, n);
    var end := After(net, Data(at, sender), x);
    CountersAside(net.(nodes := net.nodes[at := n]), end.passed, end.laid);
  }

  lemma StepKeeps(net: Net, e: Event, x: Ip)
    requires Inv(net) && Enabled(net, e) && NotOwnData(e)
    ensures Inv(After(net, e, x))
  {
    match e
    case Ask(outsider, proxy) =>
      if outsider in net.nodes {
        assert GoodNode(net.nodes[outsider], outsider);
        NodeChanges(net, outsider, net.nodes[outsider].(ne := true));
      }
    case Receive(at, c, hop, begun) => ReceiveKeeps(net, at, c, hop, begun, x);
    case Data(at, sender) => DataKeeps(net, at, sender, x);
    case Settle(at, status, ne) =>
      assert GoodNode(net.nodes[at], at);
      NodeChanges(net, at, NodeAfter(net, e));
  }

  ghost predicate Runs(net: Net, events: seq<Event>, x: Ip)
    decreases |events|
  {
    events != [] ==>
      Enabled(net, events[0]) && NotOwnData(events[0]) && Runs(After(net, events[0], x), events[1..], x)
  }

  ghost function End(net: Net, events: seq<Event>, x: Ip): Net
    requires Runs(net, events, x)
    decreases |events|
  {
    if events == [] then net else End(After(net, events[0], x), events[1..], x)
  }

  lemma {:induction false} RunKeeps(net: Net, events: seq<Event>, x: Ip)
    requires Inv(net) && Runs(net, events, x)
    ensures Inv(End(net, events, x))
    decreases |events|
  {
    if events != [] {
      StepKeeps(net, events[0], x);
      RunKeeps(After(net, events[0], x), events[1..], x);
    }
  }

  ghost predicate Initial(net: Net) {
    && net.air == {} && net.answered == {} && net.passed == 0 && net.laid == 0
    && forall ip | ip in net.nodes ::
         var n := net.nodes[ip];
         n.ip == ip && n.status != Waiting && n.subs == n.outside == n.pending == []
  }

  /**
   * In every reachable state, whoever was answered with an NEP is a slave of the answering node, an
   * outsider named in an NEA was answered by a master and is its slave, a waiting node is
   * somebody's slave and has stopped its NE, and no node lists itself.
   */
  lemma NobodyIsForgotten(net: Net, events: seq<Event>, x: Ip, sender: Ip, proxy: Ip, o: Ip)
    requires Initial(net) && Runs(net, events, x)
    ensures var end := End(net, events, x);
      && (Copy(sender, Nep(proxy, o)) in end.air ==> proxy in end.nodes && o in end.nodes[proxy].subs)
      && (Copy(sender, Nea(o)) in end.air ==> o in end.answered && Adopted(end.nodes, o, true))
      && (o in end.nodes && end.nodes[o].status == Waiting ==> Adopted(end.nodes, o, false) && !end.nodes[o].ne)
      && (o in end.nodes ==> o !in end.nodes[o].subs)
  {
    RunKeeps(net, events, x);
    var end := End(net, events, x);
    assert Copy(sender, Nep(proxy, o)) in end.air ==> Justified(end.nodes, end.answered, Nep(proxy, o));
    assert Copy(sender, Nea(o)) in end.air ==> Justified(end.nodes, end.answered, Nea(o));
    assert o in end.nodes ==> GoodNode(end.nodes[o], o);
  }

  /** The missing check in SD_RX: a node comes to list itself exactly by taking data from itself. */
  lemma OwnAddressOnlyByData(net: Net, e: Event, x: Ip)
    requires Inv(net) && Enabled(net, e) && !e.Ask?
    ensures e.at in After(net, e, x).nodes[e.at].subs <==> !NotOwnData(e)
  {
    assert GoodNode(net.nodes[e.at], e.at);
    if NotOwnData(e) {
      StepKeeps(net, e, x);
      assert GoodNode(After(net, e, x).nodes[e.at], e.at);
    }
  }

  // ---------------------------------------------------------------- NEAs die out

  lemma HoldersAfter(nodes: map<Ip, Joiner>, at: Ip, n: Joiner, x: Ip)
    requires at in nodes
    ensures Holders(nodes[at := n], x) == if x in n.pending then Holders(nodes, x) + {at} else Holders(nodes, x) - {at}
  {
  }

  lemma HoldersCount(nodes: map<Ip, Joiner>, at: Ip, n: Joiner, x: Ip)
    requires at in nodes
    ensures |Holders(nodes[at := n], x)| + Laid(n, nodes[at], x) == |Holders(nodes, x)| + Laid(nodes[at], n, x)
  {
    HoldersAfter(nodes, at, n, x);
    if x in nodes[at].pending {
      assert at in Holders(nodes, x);
    }
  }

  /** A node passes an NEA for `x` on exactly when it gives up its breadcrumb for `x`. */
  lemma PassingCostsBreadcrumb(n: Joiner, p: Packet, hop: Hop, begun: bool, x: Ip)
    requires GoodNode(n, n.ip) && Hear(n, p, hop, begun).Done?
    ensures var o := Hear(n, p, hop, begun);
      x in n.pending && x !in o.node.pending <==> p == Nea(x) && o.sent != []
  {
    if p.Nea? {
      DelistedSet(n.pending, p.outsider);
      assert x in SetOf(Delisted(n.pending, p.outsider)) <==> x in SetOf(n.pending) && x != p.outsider;
    }
  }

  lemma StepConserves(net: Net, e: Event, x: Ip)
    requires Inv(net) && Enabled(net, e)
    ensures var t := After(net, e, x);
      t.passed + |Holders(t.nodes, x)| + net.laid == net.passed + |Holders(net.nodes, x)| + t.laid
  {
    match e
    case Ask(outsider, _) =>
      if outsider in net.nodes {
        HoldersCount(net.nodes, outsider, net.nodes[outsider].(ne := true), x);
      }
    case Receive(at, c, hop, begun) =>
      assert GoodNode(net.nodes[at], at);
      PassingCostsBreadcrumb(net.nodes[at], c.packet, hop, begun, x);
      HoldersCount(net.nodes, at, Hear(net.nodes[at], c.packet, hop, begun).node, x);
    case Data(at, sender) =>
      HoldersCount(net.nodes, at, HearData(net.nodes[at], sender), x);
    case Settle(at, _, _) =>
      HoldersCount(net.nodes, at, NodeAfter(net, e), x);
  }

  /**
   * Over every run, however often and wherever packets are heard: NEAs for `x` passed on plus
   * breadcrumbs left make up the breadcrumbs there were plus those laid since.
   */
  lemma {:induction false} BreadcrumbsConserved(net: Net, events: seq<Event>, x: Ip)
    requires Inv(net) && Runs(net, events, x)
    ensures var t := End(net, events, x);
      t.passed + |Holders(t.nodes, x)| + net.laid == net.passed + |Holders(net.nodes, x)| + t.laid
    decreases |events|
  {
    if events != [] {
      StepConserves(net, events[0], x);
      StepKeeps(net, events[0], x);
      BreadcrumbsConserved(After(net, events[0], x), events[1..], x);
    }
  }

  /** So, without new NERs and data, an NEA is passed on at most once for each node that holds a breadcrumb. */
  lemma NeaDiesOut(net: Net, events: seq<Event>, x: Ip)
    requires Inv(net) && Runs(net, events, x) && End(net, events, x).laid == net.laid
    ensures End(net, events, x).passed - net.passed <= |Holders(net.nodes, x)|
  {
    BreadcrumbsConserved(net, events, x);
  }

  // ---------------------------------------------------------------- there and back

  /** Distinct nodes in a row, from a proxy of the outsider `x`, which has sent its NER to the second, to the master. */
  ghost predicate Trail(net: Net, ips: seq<Ip>, x: Ip) {
    && OnPath(net, ips, x) && x in net.nodes[ips[0]].outside
    && Copy(ips[0], Ner(ips[1], x)) in net.air
  }

  ghost predicate OnPath(net: Net, ips: seq<Ip>, x: Ip) {
    && |ips| >= 2 && TbFormat.Distinct(ips) && x !in ips
    && forall i | 0 <= i < |ips| :: IsAt(net, ips[i], i == |ips| - 1)
  }

  ghost predicate IsAt(net: Net, ip: Ip, master: bool) {
    ip in net.nodes && net.nodes[ip].ip == ip && net.nodes[ip].isMaster == master
  }

  /** Nodes hear the NEA for `x` only from the next one in the row, before or behind. */
  ghost predicate InRow(ips: seq<Ip>, x: Ip, e: Event) {
    e.Receive? && e.copy.packet == Nea(x) && e.at in ips ==>
      exists i | 0 <= i < |ips| - 1 :: NextTo(ips, i, e.at, e.copy.sender)
  }

  predicate NextTo(ips: seq<Ip>, i: nat, a: Ip, b: Ip)
    requires i + 1 < |ips|
  {
    (a == ips[i] && b == ips[i + 1]) || (a == ips[i + 1] && b == ips[i])
  }

  /** A run in which the NEA for `x` travels in the row. */
  ghost predicate RunsInRow(net: Net, ips: seq<Ip>, x: Ip, events: seq<Event>) {
    Runs(net, events, x) && forall k | 0 <= k < |events| :: InRow(ips, x, events[k])
  }

  ghost predicate SendsNea(net: Net, e: Event, ip: Ip, x: Ip)
    requires Enabled(net, e)
  {
    e.Receive? && e.at == ip && Nea(x) in Hear(net.nodes[ip], e.copy.packet, e.hop, e.begun).sent
  }

  /** In some step of the run node `ip` sends an NEA for `x`. */
  ghost predicate SendsIn(net: Net, events: seq<Event>, ip: Ip, x: Ip)
    requires Runs(net, events, x)
    decreases |events|
  {
    events != [] && (SendsNea(net, events[0], ip, x) || SendsIn(After(net, events[0], x), events[1..], ip, x))
  }

  /** A run in the row in which the proxy's neighbour sends the NEA. */
  ghost predicate Returns(net: Net, ips: seq<Ip>, x: Ip, events: seq<Event>)
    requires |ips| >= 2
  {
    RunsInRow(net, ips, x, events) && SendsIn(net, events, ips[1], x)
  }

  /** Nobody strictly between the positions 0 and `k` has been a proxy for `x`. */
  ghost predicate ClearBelow(net: Net, ips: seq<Ip>, x: Ip, k: nat)
    requires k <= |ips|
  {
    forall i | 0 < i < k :: ClearAt(net, ips[i], x)
  }

  /** Nobody between proxy and master has been a proxy for `x`. */
  ghost predicate NoOldProxy(net: Net, ips: seq<Ip>, x: Ip)
    requires |ips| >= 2
  {
    ClearBelow(net, ips, x, |ips| - 1)
  }

  ghost predicate ClearAt(net: Net, ip: Ip, x: Ip) {
    ip in net.nodes && x !in net.nodes[ip].outside
  }

  /** The nodes between the proxy and position `k` hold a breadcrumb. */
  ghost predicate Marked(net: Net, ips: seq<Ip>, x: Ip, k: nat)
    requires k <= |ips|
  {
    forall j | 0 < j < k :: MarkedAt(net, ips[j], x)
  }

  ghost predicate MarkedAt(net: Net, ip: Ip, x: Ip) {
    ip in net.nodes && x in net.nodes[ip].pending
  }

  /** The row with breadcrumbs between the proxy and position `k`. */
  ghost predicate OpenRow(net: Net, ips: seq<Ip>, x: Ip, k: nat) {
    OnPath(net, ips, x) && k <= |ips| && Marked(net, ips, x, k)
  }

  /** Nothing but breadcrumbs and retransmissions has changed, and no copy has gone. */
  ghost predicate SameProxies(net: Net, t: Net) {
    && t.nodes.Keys == net.nodes.Keys && net.air <= t.air
    && forall ip | ip in net.nodes :: SameRole(net.nodes[ip], t.nodes[ip])
  }

  predicate SameRole(n: Joiner, m: Joiner) {
    m.ip == n.ip && m.isMaster == n.isMaster && m.outside == n.outside
  }

  /** And that at one node only. */
  ghost predicate OnlyAt(net: Net, t: Net, at: Ip) {
    && SameProxies(net, t) && at in net.nodes
    && forall ip | ip in net.nodes && ip != at :: t.nodes[ip] == net.nodes[ip]
  }

  lemma RowStays(net: Net, t: Net, ips: seq<Ip>, x: Ip, k: nat)
    requires OnPath(net, ips, x) && SameProxies(net, t) && k <= |ips|
    ensures OnPath(t, ips, x) && (ClearBelow(net, ips, x, k) ==> ClearBelow(t, ips, x, k))
  {
    forall i | 0 <= i < |ips|
      ensures IsAt(t, ips[i], i == |ips| - 1)
    {
      assert IsAt(net, ips[i], i == |ips| - 1);
      assert SameRole(net.nodes[ips[i]], t.nodes[ips[i]]);
    }
    if ClearBelow(net, ips, x, k) {
      forall i | 0 < i < k
        ensures ClearAt(t, ips[i], x)
      {
        assert ClearAt(net, ips[i], x) && SameRole(net.nodes[ips[i]], t.nodes[ips[i]]);
      }
    }
  }

  lemma MarksStay(net: Net, t: Net, at: Ip, ips: seq<Ip>, x: Ip, k: nat)
    requires k <= |ips| && Marked(net, ips, x, k) && OnlyAt(net, t, at) && forall j | 0 < j < k :: ips[j] != at
    ensures Marked(t, ips, x, k)
  {
    forall j | 0 < j < k
      ensures MarkedAt(t, ips[j], x)
    {
      assert MarkedAt(net, ips[j], x);
    }
  }

  /** The event at which position `i` hears the NER. */
  function Up(ips: seq<Ip>, x: Ip, i: nat): Event
    requires 0 < i < |ips|
  {
    Receive(ips[i], Copy(ips[i - 1], Ner(ips[i], x)), if i + 1 < |ips| then Via(ips[i + 1]) else NoHop, true)
  }

  /** What position `i` then sends. */
  function UpPacket(ips: seq<Ip>, x: Ip, i: nat): Packet {
    if i + 1 < |ips| then Ner(ips[i + 1], x) else Nea(x)
  }

  /** The node at position `i` lays its breadcrumb and passes the NER on; the master answers. */
  lemma UpStep(net: Net, ips: seq<Ip>, x: Ip, i: nat)
    requires OnPath(net, ips, x) && 0 < i < |ips| && Copy(ips[i - 1], Ner(ips[i], x)) in net.air
    ensures Enabled(net, Up(ips, x, i)) && InRow(ips, x, Up(ips, x, i))
    ensures i == |ips| - 1 ==> SendsNea(net, Up(ips, x, i), ips[i], x)
    ensures var t := After(net, Up(ips, x, i), x);
      && OnlyAt(net, t, ips[i]) && MarkedAt(t, ips[i], x) && t.passed == net.passed
      && Copy(ips[i], UpPacket(ips, x, i)) in t.air
  {
    assert IsAt(net, ips[i], i == |ips| - 1);
    var e := Up(ips, x, i);
    var o := Hear(net.nodes[ips[i]], Ner(ips[i], x), e.hop, true);
    assert o.sent == [UpPacket(ips, x, i)];
    assert o.sent[0] in o.sent;
  }

  lemma Prepended(net: Net, e: Event, rest: seq<Event>, ips: seq<Ip>, x: Ip)
    requires Enabled(net, e) && NotOwnData(e) && InRow(ips, x, e) && RunsInRow(After(net, e, x), ips, x, rest)
    ensures RunsInRow(net, ips, x, [e] + rest) && End(net, [e] + rest, x) == End(After(net, e, x), rest, x)
    ensures forall ip ::
      SendsIn(net, [e] + rest, ip, x) <==> SendsNea(net, e, ip, x) || SendsIn(After(net, e, x), rest, ip, x)
  {
    assert ([e] + rest)[0] == e && ([e] + rest)[1..] == rest;
  }

  /** Every event is a step of the NER up the row, or a hearing of the NEA. */
  ghost predicate Guided(ips: seq<Ip>, x: Ip, events: seq<Event>) {
    forall k | 0 <= k < |events| :: GuidedStep(ips, x, events[k])
  }

  ghost predicate GuidedStep(ips: seq<Ip>, x: Ip, e: Event) {
    (e.Receive? && e.copy.packet == Nea(x)) || exists i | 0 < i < |ips| :: e == Up(ips, x, i)
  }

  lemma SameTwice(net: Net, s: Net, t: Net)
    requires SameProxies(net, s) && SameProxies(s, t)
    ensures SameProxies(net, t)
  {
    forall ip | ip in net.nodes
      ensures SameRole(net.nodes[ip], t.nodes[ip])
    {
      assert SameRole(net.nodes[ip], s.nodes[ip]) && SameRole(s.nodes[ip], t.nodes[ip]);
    }
  }

  lemma ClimbsOne(net: Net, ips: seq<Ip>, x: Ip, i: nat)
    requires OpenRow(net, ips, x, i) && 0 < i < |ips| && Copy(ips[i - 1], Ner(ips[i], x)) in net.air
    ensures Enabled(net, Up(ips, x, i)) && InRow(ips, x, Up(ips, x, i))
    ensures i == |ips| - 1 ==> SendsNea(net, Up(ips, x, i), ips[i], x)
    ensures var t := After(net, Up(ips, x, i), x);
      && OpenRow(t, ips, x, i + 1) && SameProxies(net, t) && t.passed == net.passed
      && Copy(ips[i], UpPacket(ips, x, i)) in t.air
  {
    var t := After(net, Up(ips, x, i), x);
    UpStep(net, ips, x, i);
    RowStays(net, t, ips, x, 0);
    MarksStay(net, t, ips[i], ips, x, i);
  }

  /** From position `i` the NER climbs to the master, which answers. */
  lemma {:induction false} Climbs(net: Net, ips: seq<Ip>, x: Ip, i: nat) returns (events: seq<Event>)
    requires OpenRow(net, ips, x, i) && 0 < i < |ips| && Copy(ips[i - 1], Ner(ips[i], x)) in net.air
    ensures RunsInRow(net, ips, x, events) && Guided(ips, x, events) && SendsIn(net, events, ips[|ips| - 1], x)
    ensures var t := End(net, events, x);
      && OpenRow(t, ips, x, |ips|) && SameProxies(net, t) && t.passed == net.passed
      && Copy(ips[|ips| - 1], Nea(x)) in t.air
    decreases |ips| - i
  {
    var e := Up(ips, x, i);
    ClimbsOne(net, ips, x, i);
    var t := After(net, e, x);
    var rest := [];
    if i + 1 < |ips| {
      rest := Climbs(t, ips, x, i + 1);
      SameTwice(net, t, End(t, rest, x));
    }
    Prepended(net, e, rest, ips, x);
    events := [e] + rest;
  }

  /** The event at which position `i` hears the NEA of position `from`. */
  function Across(ips: seq<Ip>, x: Ip, i: nat, from: nat): Event
    requires i < |ips| && from < |ips|
  {
    Receive(ips[i], Copy(ips[from], Nea(x)), NoHop, false)
  }

  /** A node that holds a breadcrumb and has not been a proxy passes on the NEA of the one before or behind. */
  lemma AcrossStep(net: Net, ips: seq<Ip>, x: Ip, i: nat, from: nat)
    requires OnPath(net, ips, x) && 0 < i < |ips| - 1 && (from == i + 1 || from == i - 1)
    requires Copy(ips[from], Nea(x)) in net.air && MarkedAt(net, ips[i], x) && ClearAt(net, ips[i], x)
    ensures Enabled(net, Across(ips, x, i, from)) && InRow(ips, x, Across(ips, x, i, from))
    ensures SendsNea(net, Across(ips, x, i, from), ips[i], x)
    ensures var t := After(net, Across(ips, x, i, from), x);
      OnlyAt(net, t, ips[i]) && t.passed == net.passed + 1 && Copy(ips[i], Nea(x)) in t.air
  {
    assert IsAt(net, ips[i], false);
    var o := Hear(net.nodes[ips[i]], Nea(x), NoHop, false);
    assert o.sent == [Nea(x)] && o.sent[0] in o.sent;
    assert NextTo(ips, if from == i + 1 then i else from, ips[i], ips[from]);
  }

  /** The proxy hears the NEA and stops its NER. */
  lemma ProxyStops(net: Net, ips: seq<Ip>, x: Ip)
    requires OnPath(net, ips, x) && x in net.nodes[ips[0]].outside && Copy(ips[1], Nea(x)) in net.air
    ensures Enabled(net, Across(ips, x, 0, 1)) && InRow(ips, x, Across(ips, x, 0, 1))
    ensures var t := After(net, Across(ips, x, 0, 1), x);
      OnlyAt(net, t, ips[0]) && t.passed == net.passed && t.nodes[ips[0]].ner == None
  {
    assert IsAt(net, ips[0], false);
    assert NextTo(ips, 0, ips[0], ips[1]);
  }

  lemma DescendsOne(net: Net, ips: seq<Ip>, x: Ip, i: nat)
    requires OpenRow(net, ips, x, i + 1) && ClearBelow(net, ips, x, i + 1) && 0 < i < |ips| - 1
    requires Copy(ips[i + 1], Nea(x)) in net.air && x in net.nodes[ips[0]].outside
    ensures Enabled(net, Across(ips, x, i, i + 1)) && InRow(ips, x, Across(ips, x, i, i + 1))
    ensures SendsNea(net, Across(ips, x, i, i + 1), ips[i], x)
    ensures var t := After(net, Across(ips, x, i, i + 1), x);
      && OpenRow(t, ips, x, i) && ClearBelow(t, ips, x, i) && t.passed == net.passed + 1
      && Copy(ips[i], Nea(x)) in t.air && x in t.nodes[ips[0]].outside
  {
    assert MarkedAt(net, ips[i], x) && ClearAt(net, ips[i], x);
    AcrossStep(net, ips, x, i, i + 1);
    var t := After(net, Across(ips, x, i, i + 1), x);
    RowStays(net, t, ips, x, i);
    assert Marked(net, ips, x, i);
    MarksStay(net, t, ips[i], ips, x, i);
    assert IsAt(net, ips[0], false) && SameRole(net.nodes[ips[0]], t.nodes[ips[0]]);
  }

  /** From position `i` the NEA descends to the proxy, passed on once by each node in between. */
  lemma {:induction false} Descends(net: Net, ips: seq<Ip>, x: Ip, i: nat) returns (events: seq<Event>)
    requires OpenRow(net, ips, x, i) && ClearBelow(net, ips, x, i) && 0 < i < |ips|
    requires Copy(ips[i], Nea(x)) in net.air && x in net.nodes[ips[0]].outside
    ensures RunsInRow(net, ips, x, events) && Guided(ips, x, events) && (i > 1 ==> SendsIn(net, events, ips[1], x))
    ensures End(net, events, x).passed == net.passed + i - 1
    ensures ips[0] in End(net, events, x).nodes && End(net, events, x).nodes[ips[0]].ner == None
    decreases i
  {
    var e := Across(ips, x, i - 1, i);
    var rest := [];
    if i == 1 {
      ProxyStops(net, ips, x);
    } else {
      DescendsOne(net, ips, x, i - 1);
      rest := Descends(After(net, e, x), ips, x, i - 1);
    }
    Prepended(net, e, rest, ips, x);
    events := [e] + rest;
  }

  lemma {:induction false} Appended(net: Net, first: seq<Event>, second: seq<Event>, ips: seq<Ip>, x: Ip)
    requires RunsInRow(net, ips, x, first) && RunsInRow(End(net, first, x), ips, x, second)
    ensures RunsInRow(net, ips, x, first + second)
    ensures End(net, first + second, x) == End(End(net, first, x), second, x)
    ensures forall ip ::
      SendsIn(net, first + second, ip, x) <==> SendsIn(net, first, ip, x) || SendsIn(End(net, first, x), second, ip, x)
    decreases |first|
  {
    if first == [] {
      assert first + second == second;
    } else {
      var t := After(net, first[0], x);
      assert forall k | 0 <= k < |first[1..]| :: first[1..][k] == first[k + 1];
      Appended(t, first[1..], second, ips, x);
      Prepended(net, first[0], first[1..] + second, ips, x);
      assert [first[0]] + (first[1..] + second) == first + second;
    }
  }

  /**
   * If nobody in between has been a proxy for `x`, there is a run that takes the NER to the master
   * and the NEA back: each node in between passes it on once, and the proxy stops its NER.
   */
  lemma NeaComesBack(net: Net, ips: seq<Ip>, x: Ip) returns (events: seq<Event>)
    requires Trail(net, ips, x) && NoOldProxy(net, ips, x)
    ensures Returns(net, ips, x, events) && Guided(ips, x, events)
    ensures End(net, events, x).passed == net.passed + |ips| - 2
    ensures ips[0] in End(net, events, x).nodes && End(net, events, x).nodes[ips[0]].ner == None
  {
    var climb := Climbs(net, ips, x, 1);
    var t := End(net, climb, x);
    assert IsAt(net, ips[0], false) && SameRole(net.nodes[ips[0]], t.nodes[ips[0]]);
    RowStays(net, t, ips, x, |ips| - 1);
    var descend := Descends(t, ips, x, |ips| - 1);
    Appended(net, climb, descend, ips, x);
    events := climb + descend;
  }

  // ---------------------------------------------------------------- an old proxy in between

  /** A copy from position `j` could reach the proxy's neighbour past an old proxy at position `k`. */
  predicate Matters(k: nat, j: nat) {
    j <= k && (k > 2 || (k == 2 && j != 1))
  }

  /** Position `k` has been a proxy for `x`, and no NEA for `x` that could still get past it is in the air. */
  ghost predicate Blocked(net: Net, ips: seq<Ip>, x: Ip, k: nat) {
    && OnPath(net, ips, x) && 0 < k < |ips| - 1
    && x in net.nodes[ips[0]].outside && !ClearAt(net, ips[k], x)
    && forall j | 0 <= j < |ips| && Matters(k, j) :: Copy(ips[j], Nea(x)) !in net.air
  }

  /** A slave sends an NEA for `x` only on hearing one, and only if it has not been a proxy for `x`. */
  lemma SlaveOnlyPassesOn(n: Joiner, p: Packet, hop: Hop, begun: bool, x: Ip)
    requires !n.isMaster && Hear(n, p, hop, begun).Done? && Nea(x) in Hear(n, p, hop, begun).sent
    ensures p == Nea(x) && x !in n.outside
  {
  }

  /** The NEA that a position up to the old proxy hears comes from a neighbour whose copies cannot get past it. */
  lemma HeardFrom(net: Net, ips: seq<Ip>, x: Ip, k: nat, e: Event, j: nat) returns (from: nat)
    requires Blocked(net, ips, x, k) && j <= k && InRow(ips, x, e)
    requires e.Receive? && Enabled(net, e) && e.at == ips[j] && e.copy.packet == Nea(x)
    ensures from < |ips| && (from == j + 1 || from == j - 1) && !Matters(k, from)
  {
    var i :| 0 <= i < |ips| - 1 && NextTo(ips, i, e.at, e.copy.sender);
    from := if e.at == ips[i] then i + 1 else i;
    assert e.copy == Copy(ips[from], Nea(x));
  }

  lemma BelowStaysSilent(net: Net, ips: seq<Ip>, x: Ip, k: nat, e: Event, j: nat)
    requires Blocked(net, ips, x, k) && j <= k && InRow(ips, x, e) && Enabled(net, e)
    ensures !SendsNea(net, e, ips[j], x)
  {
    assert IsAt(net, ips[j], false) && IsAt(net, ips[k], false);
    if SendsNea(net, e, ips[j], x) {
      SlaveOnlyPassesOn(net.nodes[e.at], e.copy.packet, e.hop, e.begun, x);
      var from := HeardFrom(net, ips, x, k, e, j);
    }
  }

  /** The nodes stay where they are, and remember their outsiders. */
  lemma PathStays(net: Net, e: Event, ips: seq<Ip>, x: Ip)
    requires OnPath(net, ips, x) && Enabled(net, e)
    ensures OnPath(After(net, e, x), ips, x)
    ensures forall ip | ip in net.nodes && !ClearAt(net, ip, x) :: !ClearAt(After(net, e, x), ip, x)
  {
    var t := After(net, e, x);
    forall i | 0 <= i < |ips|
      ensures IsAt(t, ips[i], i == |ips| - 1)
    {
      assert IsAt(net, ips[i], i == |ips| - 1);
    }
  }

  lemma StaysBlocked(net: Net, e: Event, ips: seq<Ip>, x: Ip, k: nat)
    requires Blocked(net, ips, x, k) && Enabled(net, e) && InRow(ips, x, e)
    ensures Blocked(After(net, e, x), ips, x, k)
  {
    PathStays(net, e, ips, x);
    assert IsAt(net, ips[k], false) && IsAt(net, ips[0], false);
    assert !ClearAt(net, ips[0], x);
    forall j | 0 <= j < |ips| && Matters(k, j)
      ensures Copy(ips[j], Nea(x)) !in After(net, e, x).air
    {
      BelowStaysSilent(net, ips, x, k, e, j);
    }
  }

  /** Behind an old proxy nobody sends the NEA in any run. */
  lemma {:induction false} BlockedForever(net: Net, events: seq<Event>, ips: seq<Ip>, x: Ip, k: nat, j: nat)
    requires Blocked(net, ips, x, k) && j <= k && RunsInRow(net, ips, x, events)
    ensures Blocked(End(net, events, x), ips, x, k) && !SendsIn(net, events, ips[j], x)
    decreases |events|
  {
    if events != [] {
      assert InRow(ips, x, events[0]);
      BelowStaysSilent(net, ips, x, k, events[0], j);
      StaysBlocked(net, events[0], ips, x, k);
      BlockedForever(After(net, events[0], x), events[1..], ips, x, k, j);
    }
  }

  /** The first position, if any, that has been a proxy for `x`. */
  lemma FirstOldProxy(net: Net, ips: seq<Ip>, x: Ip) returns (k: nat)
    requires |ips| >= 2
    ensures 0 < k <= |ips| - 1 && ClearBelow(net, ips, x, k)
    ensures k < |ips| - 1 ==> !ClearAt(net, ips[k], x)
  {
    k := 1;
    while k < |ips| - 1 && ClearAt(net, ips[k], x)
      invariant 0 < k <= |ips| - 1 && ClearBelow(net, ips, x, k)
    {
      k := k + 1;
    }
  }

  /** Position `i` passes an old NEA of its neighbour on, and from there it descends. */
  lemma OldNeaDescends(net: Net, ips: seq<Ip>, x: Ip, i: nat) returns (events: seq<Event>)
    requires 1 <= i <= 2 && i < |ips| - 1 && OpenRow(net, ips, x, |ips|) && ClearBelow(net, ips, x, i + 1)
    requires Copy(ips[i - 1], Nea(x)) in net.air && x in net.nodes[ips[0]].outside
    ensures Returns(net, ips, x, events) && Guided(ips, x, events)
  {
    var e := Across(ips, x, i, i - 1);
    assert MarkedAt(net, ips[i], x) && ClearAt(net, ips[i], x);
    AcrossStep(net, ips, x, i, i - 1);
    var t := After(net, e, x);
    var rest := [];
    if i == 2 {
      RowStays(net, t, ips, x, 2);
      assert Marked(net, ips, x, 2);
      MarksStay(net, t, ips[2], ips, x, 2);
      assert IsAt(net, ips[0], false) && SameRole(net.nodes[ips[0]], t.nodes[ips[0]]);
      rest := Descends(t, ips, x, 2);
    }
    Prepended(net, e, rest, ips, x);
    events := [e] + rest;
  }

  /** Past the old proxy at position `k`, an NEA of position `j` that is in the air already can still come back. */
  lemma OldNeaComesBack(net: Net, ips: seq<Ip>, x: Ip, k: nat, j: nat) returns (events: seq<Event>)
    requires Trail(net, ips, x) && 0 < k < |ips| - 1 && ClearBelow(net, ips, x, k)
    requires Matters(k, j) && Copy(ips[j], Nea(x)) in net.air
    ensures Returns(net, ips, x, events) && Guided(ips, x, events)
  {
    var climb := Climbs(net, ips, x, 1);
    var t := End(net, climb, x);
    assert IsAt(net, ips[0], false) && SameRole(net.nodes[ips[0]], t.nodes[ips[0]]);
    RowStays(net, t, ips, x, k);
    var rest;
    if j >= 2 {
      assert OpenRow(t, ips, x, j) && ClearBelow(t, ips, x, j);
      rest := Descends(t, ips, x, j);
    } else {
      assert ClearBelow(t, ips, x, j + 2);
      rest := OldNeaDescends(t, ips, x, j + 1);
    }
    Appended(net, climb, rest, ips, x);
    events := climb + rest;
  }

  /** No old proxy keeps the NEA from coming back. */
  ghost predicate Unblocked(net: Net, ips: seq<Ip>, x: Ip) {
    forall k | 0 < k < |ips| - 1 :: !Blocked(net, ips, x, k)
  }

  lemma UnblockedComesBack(net: Net, ips: seq<Ip>, x: Ip) returns (events: seq<Event>)
    requires Trail(net, ips, x) && Unblocked(net, ips, x)
    ensures Returns(net, ips, x, events) && Guided(ips, x, events)
  {
    var k := FirstOldProxy(net, ips, x);
    if k == |ips| - 1 {
      events := NeaComesBack(net, ips, x);
    } else {
      assert !Blocked(net, ips, x, k);
      var j :| 0 <= j < |ips| && Matters(k, j) && Copy(ips[j], Nea(x)) in net.air;
      events := OldNeaComesBack(net, ips, x, k, j);
    }
  }

  /**
   * Exactly when the NEA can come back in a row of nodes, whatever has been sent before: if and only
   * if no node in between was once a proxy for the outsider and has no NEA of its own or from behind
   * it in the air. OutsideSlaves is never cleaned up, and such a node keeps the NEA to itself.
   */
  lemma NeaComesBackExactly(net: Net, ips: seq<Ip>, x: Ip)
    requires Trail(net, ips, x)
    ensures (exists events :: Returns(net, ips, x, events)) <==> Unblocked(net, ips, x)
  {
    if Unblocked(net, ips, x) {
      var events := UnblockedComesBack(net, ips, x);
    } else {
      var k :| 0 < k < |ips| - 1 && Blocked(net, ips, x, k);
      forall events | RunsInRow(net, ips, x, events)
        ensures !Returns(net, ips, x, events)
      {
        BlockedForever(net, events, ips, x, k, 1);
      }
    }
  }

  /**
   * So, while no slave of the row has sent an NEA for the outsider, it can come back if and only if
   * nobody in between was once its proxy; what the master has sent before does not matter.
   */
  lemma FirstNeaComesBackExactly(net: Net, ips: seq<Ip>, x: Ip)
    requires Trail(net, ips, x) && forall i | 0 <= i < |ips| - 1 :: Copy(ips[i], Nea(x)) !in net.air
    ensures (exists events :: Returns(net, ips, x, events)) <==> NoOldProxy(net, ips, x)
  {
    NeaComesBackExactly(net, ips, x);
    forall k | 0 < k < |ips| - 1
      ensures Blocked(net, ips, x, k) <==> !ClearAt(net, ips[k], x)
    {
    }
  }

  // ---------------------------------------------------------------- an outsider that asks again

  ghost predicate AllGrow(net: Net, t: Net) {
    t.nodes.Keys == net.nodes.Keys && forall ip | ip in net.nodes :: Grows(net.nodes[ip], t.nodes[ip])
  }

  lemma RowGrows(net: Net, t: Net, ips: seq<Ip>, x: Ip)
    requires OnPath(net, ips, x) && AllGrow(net, t)
    ensures OnPath(t, ips, x)
    ensures forall i | 0 <= i < |ips| && !ClearAt(net, ips[i], x) :: !ClearAt(t, ips[i], x)
  {
    forall i | 0 <= i < |ips|
      ensures IsAt(t, ips[i], i == |ips| - 1) && (!ClearAt(net, ips[i], x) ==> !ClearAt(t, ips[i], x))
    {
      assert IsAt(net, ips[i], i == |ips| - 1) && Grows(net.nodes[ips[i]], t.nodes[ips[i]]);
    }
  }

  /** The outsider `o` asks proxy `p`, which sends its NER to `next`. */
  function Asks(o: Ip, p: Ip, next: Ip): seq<Event> {
    [Ask(o, p), Receive(p, Copy(o, Ne(o, p)), Via(next), false)]
  }

  ghost predicate CanAsk(net: Net, o: Ip) {
    o in net.nodes ==> net.nodes[o].status == Outside
  }

  lemma AsksProxy(net: Net, o: Ip, p: Ip, next: Ip, ips: seq<Ip>, x: Ip)
    requires IsAt(net, p, false) && p != o && CanAsk(net, o)
    ensures RunsInRow(net, ips, x, Asks(o, p, next))
    ensures var t := End(net, Asks(o, p, next), x);
      && AllGrow(net, t) && t.answered == net.answered && (forall ip | CanAsk(net, ip) :: CanAsk(t, ip))
      && o in t.nodes[p].outside && t.nodes[p].ner == Some(Ner(next, o))
      && net.air <= t.air && Copy(p, Ner(next, o)) in t.air
  {
    var ask, e := Asks(o, p, next)[0], Asks(o, p, next)[1];
    var s := After(net, ask, x);
    var r := Hear(s.nodes[p], e.copy.packet, e.hop, e.begun);
    assert r.sent[1] == Ner(next, o) && r.sent[1] in r.sent;
    Prepended(s, e, [], ips, x);
    Prepended(net, ask, [e], ips, x);
    assert [ask] + [e] == Asks(o, p, next);
  }

  /** The master `m` answers the NER of `b`. */
  function Answer(b: Ip, m: Ip, o: Ip): Event {
    Receive(m, Copy(b, Ner(m, o)), NoHop, true)
  }

  lemma AnswerStep(net: Net, b: Ip, m: Ip, o: Ip, ips: seq<Ip>, x: Ip)
    requires IsAt(net, m, true) && m != o && Copy(b, Ner(m, o)) in net.air
    ensures RunsInRow(net, ips, x, [Answer(b, m, o)])
    ensures var t := End(net, [Answer(b, m, o)], x);
      && AllGrow(net, t) && t.answered == net.answered + {o} && (forall ip | CanAsk(net, ip) :: CanAsk(t, ip))
      && net.air <= t.air && Copy(m, Nea(o)) in t.air
  {
    var e := Answer(b, m, o);
    var r := Hear(net.nodes[m], e.copy.packet, e.hop, e.begun);
    assert r.sent == [Nea(o)] && r.sent[0] in r.sent;
    Prepended(net, e, [], ips, x);
    assert [e] + [] == [e];
  }

  /** `o` asks `p`, and the master answers. */
  function Joins(o: Ip, p: Ip, m: Ip): seq<Event> {
    Asks(o, p, m) + [Answer(p, m, o)]
  }

  lemma GrowTwice(net: Net, s: Net, t: Net)
    requires AllGrow(net, s) && AllGrow(s, t)
    ensures AllGrow(net, t)
  {
    forall ip | ip in net.nodes
      ensures Grows(net.nodes[ip], t.nodes[ip])
    {
      assert Grows(net.nodes[ip], s.nodes[ip]) && Grows(s.nodes[ip], t.nodes[ip]);
    }
  }

  lemma JoinStep(net: Net, o: Ip, p: Ip, m: Ip, ips: seq<Ip>, x: Ip)
    requires IsAt(net, p, false) && IsAt(net, m, true) && p != o && m != o && CanAsk(net, o)
    ensures RunsInRow(net, ips, x, Joins(o, p, m))
    ensures var t := End(net, Joins(o, p, m), x);
      && AllGrow(net, t) && t.answered == net.answered + {o} && (forall ip | CanAsk(net, ip) :: CanAsk(t, ip))
      && !ClearAt(t, p, o) && Copy(m, Nea(o)) in t.air
  {
    AsksProxy(net, o, p, m, ips, x);
    var s := End(net, Asks(o, p, m), x);
    assert Grows(net.nodes[m], s.nodes[m]);
    AnswerStep(s, p, m, o, ips, x);
    var t := End(s, [Answer(p, m, o)], x);
    assert Grows(s.nodes[p], t.nodes[p]);
    Appended(net, Asks(o, p, m), [Answer(p, m, o)], ips, x);
    GrowTwice(net, s, t);
  }

  /** `x` asks `b`, and the master answers; the NEA gets lost, and `x` asks `a`, whose next hop is `b`. */
  function AsksAgain(a: Ip, b: Ip, m: Ip, x: Ip): seq<Event> {
    Joins(x, b, m) + Asks(x, a, b)
  }

  /**
   * Joining a second time through `b` fails for every three nodes that have heard nothing before:
   * the master has answered, and `b`, once a proxy, keeps every NEA for the outsider to itself.
   */
  lemma SecondJoinFails(net: Net, a: Ip, b: Ip, m: Ip, x: Ip)
    requires Initial(net) && TbFormat.Distinct([a, b, m]) && x !in [a, b, m] && CanAsk(net, x)
    requires IsAt(net, a, false) && IsAt(net, b, false) && IsAt(net, m, true)
    ensures Runs(net, AsksAgain(a, b, m, x), x)
    ensures var t := End(net, AsksAgain(a, b, m, x), x);
      && Trail(t, [a, b, m], x) && x in t.answered && !exists events :: Returns(t, [a, b, m], x, events)
  {
    var ips := [a, b, m];
    assert ips[0] == a && ips[1] == b && ips[2] == m;
    JoinStep(net, x, b, m, ips, x);
    var s := End(net, Joins(x, b, m), x);
    RowGrows(net, s, ips, x);
    assert IsAt(s, ips[0], false);
    AsksProxy(s, x, a, b, ips, x);
    var t := End(s, Asks(x, a, b), x);
    RowGrows(s, t, ips, x);
    Appended(net, Joins(x, b, m), Asks(x, a, b), ips, x);
    assert Blocked(t, ips, x, 1);
    NeaComesBackExactly(t, ips, x);
  }

  lemma NeaStopsNer(net: Net, p: Ip, m: Ip, x: Ip, y: Ip)
    requires !ClearAt(net, p, y) && p in net.nodes && NerFor(net.nodes[p], x) && Copy(m, Nea(y)) in net.air
    ensures var late := Receive(p, Copy(m, Nea(y)), NoHop, false);
      Enabled(net, late) && !NerFor(After(net, late, x).nodes[p], x)
  {
  }

  /**
   * The one NER buffer: for every proxy, master and two outsiders there is a run from the start,
   * in which `y` and then `x` ask, after which the proxy holds the NER for `x`, unanswered, and the
   * NEA for `y`, coming late, removes it.
   */
  lemma LateNeaDropsNer(net: Net, p: Ip, m: Ip, x: Ip, y: Ip)
    requires Initial(net) && p != m && x != y && x !in [p, m] && y !in [p, m] && CanAsk(net, x) && CanAsk(net, y)
    requires IsAt(net, p, false) && IsAt(net, m, true)
    ensures Runs(net, Joins(y, p, m) + Asks(x, p, m), x)
    ensures var t, late := End(net, Joins(y, p, m) + Asks(x, p, m), x), Receive(p, Copy(m, Nea(y)), NoHop, false);
      && p in t.nodes && NerFor(t.nodes[p], x) && x !in t.answered
      && Enabled(t, late) && !NerFor(After(t, late, x).nodes[p], x)
  {
    var ips := [p, m];
    assert ips[0] == p && ips[1] == m;
    JoinStep(net, y, p, m, ips, x);
    var s := End(net, Joins(y, p, m), x);
    assert Grows(net.nodes[p], s.nodes[p]);
    AsksProxy(s, x, p, m, ips, x);
    var t := End(s, Asks(x, p, m), x);
    assert Grows(s.nodes[p], t.nodes[p]);
    Appended(net, Joins(y, p, m), Asks(x, p, m), ips, x);
    NeaStopsNer(t, p, m, x, y);
  }
}
