/** From NE to NEP: when an outsider starts waiting, over every run, and when its NE is answered. */
module Invitation {
  import opened Bytes
  import opened Node
  import opened IpList
  import opened Routes
  import opened Join

  // ---------------------------------------------------------------- starting to wait

  /** Node `v` hears an NEP of another node that names it. */
  predicate Invites(e: Event, v: Ip) {
    e.Receive? && e.at == v && e.copy.packet.Nep? && e.copy.packet.outsider == v && e.copy.packet.proxy != v
  }

  /** Something else changes the status of `v`. */
  predicate Settles(e: Event, v: Ip) {
    e.Settle? && e.at == v
  }

  ghost predicate IsNode(net: Net, v: Ip) {
    v in net.nodes && net.nodes[v].ip == v
  }

  /** A node starts waiting, its NE stopped, exactly in the step in which it hears an NEP of another that names it. */
  lemma StartsWaitingExactly(net: Net, e: Event, x: Ip, v: Ip)
    requires Enabled(net, e) && IsNode(net, v)
    ensures var t := After(net, e, x);
      && IsNode(t, v)
      && (Invites(e, v) ==> t.nodes[v].status == Waiting && !t.nodes[v].ne)
      && (!Invites(e, v) && t.nodes[v].status == Waiting ==> net.nodes[v].status == Waiting && !Settles(e, v))
      && (!Invites(e, v) && !Settles(e, v) ==> t.nodes[v].status == net.nodes[v].status)
      && (net.nodes[v].status != Waiting ==> (t.nodes[v].status == Waiting <==> Invites(e, v)))
  {
  }

  /** An event of the run invites `v`, and no later one changes its status otherwise. */
  predicate LastInvited(events: seq<Event>, v: Ip) {
    exists i | 0 <= i < |events| :: Invites(events[i], v) && forall j | i < j < |events| :: !Settles(events[j], v)
  }

  lemma InvitedLater(events: seq<Event>, v: Ip)
    requires events != []
    ensures LastInvited(events, v)
      <==> || LastInvited(events[1..], v)
           || (Invites(events[0], v) && forall j | 0 < j < |events| :: !Settles(events[j], v))
  {
    var rest := events[1..];
    assert forall j | 0 < j < |events| :: events[j] == rest[j - 1];
    if LastInvited(events, v) {
      var i :| 0 <= i < |events| && Invites(events[i], v) && forall j | i < j < |events| :: !Settles(events[j], v);
      if i > 0 {
        assert Invites(rest[i - 1], v);
        assert forall j | i - 1 < j < |rest| :: rest[j] == events[j + 1];
      }
    }
    if LastInvited(rest, v) {
      var i :| 0 <= i < |rest| && Invites(rest[i], v) && forall j | i < j < |rest| :: !Settles(rest[j], v);
      assert Invites(events[i + 1], v);
      assert forall j | i + 1 < j < |events| :: events[j] == rest[j - 1];
    }
  }

  lemma {:induction false} WaitingFrom(net: Net, events: seq<Event>, x: Ip, v: Ip)
    requires Runs(net, events, x) && IsNode(net, v)
    ensures IsNode(End(net, events, x), v)
    ensures End(net, events, x).nodes[v].status == Waiting <==>
      || LastInvited(events, v)
      || (net.nodes[v].status == Waiting && forall j | 0 <= j < |events| :: !Settles(events[j], v))
    decreases |events|
  {
    if events != [] {
      var e, rest, t := events[0], events[1..], After(net, events[0], x);
      StartsWaitingExactly(net, e, x, v);
      InvitedLater(events, v);
      WaitingFrom(t, rest, x, v);
      assert forall j | 0 < j < |events| :: events[j] == rest[j - 1];
      assert (forall j | 0 <= j < |events| :: !Settles(events[j], v))
        <==> !Settles(e, v) && forall j | 0 <= j < |rest| :: !Settles(rest[j], v) by {
        assert forall j | 0 <= j < |rest| :: rest[j] == events[j + 1];
      }
    }
  }

  /**
   * Over every run of the network a node is waiting at the end, with its NE stopped, if and only if
   * an NEP of another node has named it and nothing else has changed its status since.
   */
  lemma WaitingExactly(net: Net, events: seq<Event>, x: Ip, v: Ip)
    requires Initial(net) && Runs(net, events, x) && v in net.nodes
    ensures var end := End(net, events, x);
      && v in end.nodes && (end.nodes[v].status == Waiting <==> LastInvited(events, v))
      && (LastInvited(events, v) ==> !end.nodes[v].ne)
  {
    WaitingFrom(net, events, x, v);
    NobodyIsForgotten(net, events, x, v, v, v);
  }

  // ---------------------------------------------------------------- who is a proxy

  /** Slave `v` hears the NE of `o` that names it. */
  ghost predicate TakesIn(net: Net, e: Event, v: Ip, o: Ip)
    requires Enabled(net, e)
  {
    e.Receive? && e.at == v && e.copy.packet == Ne(o, v) && o != v && !net.nodes[v].isMaster
  }

  /** In some step of the run it does. */
  ghost predicate TookIn(net: Net, events: seq<Event>, x: Ip, v: Ip, o: Ip)
    requires Runs(net, events, x)
    decreases |events|
  {
    events != [] && (TakesIn(net, events[0], v, o) || TookIn(After(net, events[0], x), events[1..], x, v, o))
  }

  lemma ProxyStep(net: Net, e: Event, x: Ip, v: Ip, o: Ip)
    requires Inv(net) && Enabled(net, e) && v in net.nodes
    ensures var t := After(net, e, x);
      v in t.nodes && (o in t.nodes[v].outside <==> o in net.nodes[v].outside || TakesIn(net, e, v, o))
  {
    assert GoodNode(net.nodes[v], v);
    if e.Receive? && e.at == v {
      ListsExactly(net.nodes[v], e.copy.packet, e.hop, e.begun, o);
    }
  }

  lemma {:induction false} ProxyFrom(net: Net, events: seq<Event>, x: Ip, v: Ip, o: Ip)
    requires Inv(net) && Runs(net, events, x) && v in net.nodes
    ensures var end := End(net, events, x);
      v in end.nodes && (o in end.nodes[v].outside <==> o in net.nodes[v].outside || TookIn(net, events, x, v, o))
    decreases |events|
  {
    if events != [] {
      ProxyStep(net, events[0], x, v, o);
      StepKeeps(net, events[0], x);
      ProxyFrom(After(net, events[0], x), events[1..], x, v, o);
    }
  }

  /**
   * Over every run a node is an old proxy of an outsider, which is what blocks its NEA for good, if and
   * only if it has, as a slave, heard an NE of the outsider that names it.
   */
  lemma ProxyExactly(net: Net, events: seq<Event>, x: Ip, v: Ip, o: Ip)
    requires Initial(net) && Runs(net, events, x) && v in net.nodes
    ensures var end := End(net, events, x);
      v in end.nodes && (o in end.nodes[v].outside <==> TookIn(net, events, x, v, o))
  {
    ProxyFrom(net, events, x, v, o);
  }

  // ---------------------------------------------------------------- an NE and its answer

  /** The outsider asks, the proxy hears that, and the outsider hears its NEP. */
  function Handshake(o: Ip, p: Ip, hop: Hop, begun: bool): seq<Event> {
    [Ask(o, p), Receive(p, Copy(o, Ne(o, p)), hop, begun), Receive(o, Copy(p, Nep(p, o)), NoHop, false)]
  }

  /** The proxy can take the outsider in: a master if it may begin a TB, a slave if it has a next hop. */
  predicate CanTakeIn(n: Joiner, hop: Hop, begun: bool) {
    if n.isMaster then begun else hop.Via?
  }

  lemma OneMore(net: Net, e: Event, rest: seq<Event>, x: Ip)
    requires NotOwnData(e)
    ensures Runs(net, [e] + rest, x) <==> Enabled(net, e) && Runs(After(net, e, x), rest, x)
    ensures Runs(net, [e] + rest, x) ==> End(net, [e] + rest, x) == End(After(net, e, x), rest, x)
  {
    assert ([e] + rest)[0] == e && ([e] + rest)[1..] == rest;
  }

  lemma ThreeRuns(net: Net, e: Event, f: Event, g: Event, x: Ip)
    requires NotOwnData(e) && NotOwnData(f) && NotOwnData(g)
    ensures Runs(net, [e, f, g], x) <==>
      && Enabled(net, e) && Enabled(After(net, e, x), f) && Enabled(After(After(net, e, x), f, x), g)
    ensures Runs(net, [e, f, g], x) ==>
      End(net, [e, f, g], x) == After(After(After(net, e, x), f, x), g, x)
  {
    assert [e, f, g] == [e] + ([f] + ([g] + []));
    OneMore(net, e, [f] + ([g] + []), x);
    if Enabled(net, e) {
      var s := After(net, e, x);
      OneMore(s, f, [g] + [], x);
      if Enabled(s, f) {
        OneMore(After(s, f, x), g, [], x);
      }
    }
  }

  lemma ProxyAnswers(net: Net, o: Ip, p: Ip, hop: Hop, begun: bool, x: Ip)
    requires IsNode(net, p) && o != p && Copy(o, Ne(o, p)) in net.air && Copy(p, Nep(p, o)) !in net.air
    ensures var e := Receive(p, Copy(o, Ne(o, p)), hop, begun);
      (Enabled(net, e) && Copy(p, Nep(p, o)) in After(net, e, x).air) <==> CanTakeIn(net.nodes[p], hop, begun)
  {
    var e := Receive(p, Copy(o, Ne(o, p)), hop, begun);
    var r := Hear(net.nodes[p], Ne(o, p), hop, begun);
    if CanTakeIn(net.nodes[p], hop, begun) {
      assert r.sent[0] == Nep(p, o) && r.sent[0] in r.sent;
    } else if r.Done? {
      assert r.sent == [];
    }
  }

  /**
   * Every NE to a node that can take the outsider in is answered in a run at whose end the outsider
   * is that node's slave and waits, with its NE stopped; and only to such a node, as long as the node
   * has not invited the outsider before.
   */
  lemma AnsweredExactly(net: Net, o: Ip, p: Ip, hop: Hop, begun: bool, x: Ip)
    requires IsNode(net, p) && IsNode(net, o) && o != p && net.nodes[o].status == Outside
    requires Copy(p, Nep(p, o)) !in net.air
    ensures Runs(net, Handshake(o, p, hop, begun), x) <==> CanTakeIn(net.nodes[p], hop, begun)
    ensures Runs(net, Handshake(o, p, hop, begun), x) ==>
      var end := End(net, Handshake(o, p, hop, begun), x);
      && o in end.nodes && end.nodes[o].status == Waiting && !end.nodes[o].ne
      && p in end.nodes && o in end.nodes[p].subs
  {
    var e, f, g := Handshake(o, p, hop, begun)[0], Handshake(o, p, hop, begun)[1], Handshake(o, p, hop, begun)[2];
    ThreeRuns(net, e, f, g, x);
    var s := After(net, e, x);
    assert s.nodes[p] == net.nodes[p];
    ProxyAnswers(s, o, p, hop, begun, x);
    if CanTakeIn(net.nodes[p], hop, begun) {
      var t := After(s, f, x);
      assert Enabled(t, g);
      ListsOutsider(s, o, p, hop, begun, x);
    }
  }

  lemma ListsOutsider(net: Net, o: Ip, p: Ip, hop: Hop, begun: bool, x: Ip)
    requires IsNode(net, p) && IsNode(net, o) && o != p && Enabled(net, Receive(p, Copy(o, Ne(o, p)), hop, begun))
    ensures var t := After(net, Receive(p, Copy(o, Ne(o, p)), hop, begun), x);
      IsNode(t, p) && o in t.nodes[p].subs && t.nodes[o] == net.nodes[o]
  {
    assert o in Listed(net.nodes[p].subs, o) by {
      assert o !in net.nodes[p].subs ==> Listed(net.nodes[p].subs, o)[0] == o;
    }
  }
}
