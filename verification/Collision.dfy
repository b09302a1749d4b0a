/** A run in which two nodes collide: one of them has heard a late TB and lost its slot. */
module Collision {
  import opened Bytes
  import opened TbFormat
  import opened Dispatcher
  import opened Node
  import opened Network

  /** After the run, two nodes have transmitted in overlapping time under the same timetable. */
  ghost predicate Collides(s: Net, events: seq<Event>, t: Tx, u: Tx) {
    && Initial(s) && Possible(s, events)
    && t in After(s, events).log && u in After(s, events).log
    && t.ip != u.ip && t.tt.sync == u.tt.sync && !Apart(t.start, u.start)
  }

  // ---------------------------------------------------------------- putting runs together

  lemma {:induction false} Joined(s: Net, first: seq<Event>, second: seq<Event>)
    requires Possible(s, first) && Possible(After(s, first), second)
    ensures Possible(s, first + second) && After(s, first + second) == After(After(s, first), second)
    decreases |first|
  {
    if first == [] {
      assert first + second == second;
    } else {
      Joined(Next(s, first[0]), first[1..], second);
      assert (first + second)[0] == first[0] && (first + second)[1..] == first[1..] + second;
    }
  }

  lemma Single(s: Net, e: Event)
    requires Enabled(s, e)
    ensures Possible(s, [e]) && After(s, [e]) == Next(s, e)
  {
    var t := Next(s, e);
    assert [e][1..] == [];
    assert Possible(t, []) && After(t, []) == t;
  }

  lemma Extended(s: Net, events: seq<Event>, e: Event)
    requires Possible(s, events) && Enabled(After(s, events), e)
    ensures Possible(s, events + [e]) && After(s, events + [e]) == Next(After(s, events), e)
  {
    Single(After(s, events), e);
    Joined(s, events, [e]);
  }

  // ---------------------------------------------------------------- the master makes a round and sends it

  /** The master gets `subs`, generates `b` and sends it once. */
  function Announce(node: NodeState, now: nat, subs: seq<Ip>, b: seq<byte>): seq<Event> {
    [Elsewhere(node.ip, node.(subs := subs)), Generate(node.ip, now, b), Resend(node.ip)]
  }

  /** What matters of a net for the rest of the run: who is there, what is in the air, what has happened. */
  ghost predicate Grown(s: Net, t: Net, m: Ip) {
    && m in s.nodes && m in t.nodes && t.nodes[m].ip == s.nodes[m].ip && t.nodes[m].isMaster == s.nodes[m].isMaster
    && t.nodes.Keys == s.nodes.Keys && (forall v | v in s.nodes && v != m :: t.nodes[v] == s.nodes[v])
    && s.air <= t.air && t.log == s.log
  }

  lemma Announced(s: Net, m: Ip, now: nat, subs: seq<Ip>, b: seq<byte>)
    requires m in s.nodes && s.nodes[m].ip == m && s.nodes[m].isMaster
    requires 0 < now < LAST_ROUND && (forall r | r in s.rounds :: r.now < now) && |subs| < 32767
    requires Generated(b, m, now, subs)
    ensures var events := Announce(s.nodes[m], now, subs, b);
      && Possible(s, events)
      && (var t := After(s, events);
          Grown(s, t, m) && b in t.air && t.rounds == s.rounds + {Round(m, now, subs, b)})
  {
    var node := s.nodes[m];
    var e0, e1, e2 := Elsewhere(m, node.(subs := subs)), Generate(m, now, b), Resend(m);
    ReadsBack(b, m, now, subs);
    Single(s, e0);
    var s1 := Next(s, e0);
    Extended(s, [e0], e1);
    var s2 := Next(s1, e1);
    assert [e0] + [e1] == [e0, e1];
    Extended(s, [e0, e1], e2);
    assert [e0, e1] + [e2] == Announce(node, now, subs, b);
  }

  // ---------------------------------------------------------------- the slaves hear and install

  lemma OnlyNode(s: Net, e: Event, v: Ip)
    requires (e == Check(v, if e.Check? then e.act else 0) || (e.Hear? && e.node == v)) && Enabled(s, e)
    ensures var t := Next(s, e);
      && t.nodes.Keys == s.nodes.Keys && (forall w | w in s.nodes && w != v :: t.nodes[w] == s.nodes[w])
      && s.air <= t.air && t.log == s.log && t.rounds == s.rounds
      && t.nodes[v] == if e.Check? then Install(s.nodes[v], e.act) else ReceiveTb(s.nodes[v], e.copy).state
  {
  }

  /** The node hears the TBs in order, then installs. */
  lemma HearsAndInstalls(s: Net, v: Ip, first: seq<byte>, second: seq<byte>, act: nat)
    requires v in s.nodes && s.nodes[v].ip == v
    requires first in s.air && second in s.air && Readable(first) && Readable(second)
    ensures var events := [Hear(v, first), Hear(v, second), Check(v, act)];
      && Possible(s, events)
      && (var t := After(s, events);
          && t.nodes.Keys == s.nodes.Keys && (forall w | w in s.nodes && w != v :: t.nodes[w] == s.nodes[w])
          && s.air <= t.air && t.log == s.log && t.rounds == s.rounds
          && t.nodes[v] == Install(ReceiveTb(ReceiveTb(s.nodes[v], first).state, second).state, act))
  {
    var e0, e1, e2 := Hear(v, first), Hear(v, second), Check(v, act);
    Single(s, e0);
    OnlyNode(s, e0, v);
    var s1 := Next(s, e0);
    Extended(s, [e0], e1);
    OnlyNode(s1, e1, v);
    var s2 := Next(s1, e1);
    assert [e0] + [e1] == [e0, e1];
    Extended(s, [e0, e1], e2);
    OnlyNode(s2, e2, v);
    assert [e0, e1] + [e2] == [e0, e1, e2];
  }

  /** Hearing one TB twice is no different from hearing it once, for the timetables. */
  lemma InstallsOwnSlot(s: NodeState, b: seq<byte>, r: Round, act: nat)
    requires GoodRound(r) && b == r.bytes && Sender(b) != s.ip
    requires !s.isMaster && s.ip in r.List() && act > r.now + 1_000_000
    ensures Own(Install(ReceiveTb(ReceiveTb(s, b).state, b).state, act).timeTable, s.ip, r)
  {
    assert Descends(b, r);
    ReadsLikeOriginal(b, r, First(r.List(), s.ip));
    HearingEffect(s, b);
    var heard := ReceiveTb(s, b).state;
    assert heard.ip == s.ip && !heard.isMaster;
    assert ReceiveTb(heard, b).state.newTimeTable == Offer(b, First(Ips(b), s.ip));
  }

  lemma Sent(s: Net, v: Ip, act: nat)
    requires v in s.nodes && act < CLOCK_END && Sends(s.nodes[v].timeTable, act)
    ensures Possible(s, [Send(v, act)])
    ensures After(s, [Send(v, act)]) == s.(log := s.log + {Tx(v, act, s.nodes[v].timeTable)})
  {
    Single(s, Send(v, act));
  }

  // ---------------------------------------------------------------- the run

  function Beginning(m: Ip, v: Ip, w: Ip): Net {
    Net(map[m := Fresh(m, true), v := Fresh(v, false), w := Fresh(w, false)], {}, map[], {}, {})
  }

  const EARLIER := 1_000_000_000
  const LATER := 2_000_000_000

  /** The master announces a timetable for `w` alone, and then one for `v` and `w`. */
  lemma BothAnnounced(m: Ip, v: Ip, w: Ip, b: seq<byte>, c: seq<byte>) returns (events: seq<Event>)
    requires m != v && m != w && v != w
    requires Generated(b, m, EARLIER, [w]) && Generated(c, m, LATER, [v, w])
    ensures var s := Beginning(m, v, w);
      && Possible(s, events)
      && (var t := After(s, events);
          && t.nodes.Keys == {m, v, w} && t.nodes[v] == Fresh(v, false) && t.nodes[w] == Fresh(w, false)
          && b in t.air && c in t.air && t.log == {})
  {
    var s := Beginning(m, v, w);
    var first := Announce(s.nodes[m], EARLIER, [w], b);
    Announced(s, m, EARLIER, [w], b);
    var s1 := After(s, first);
    var second := Announce(s1.nodes[m], LATER, [v, w], c);
    Announced(s1, m, LATER, [v, w], c);
    Joined(s, first, second);
    events := first + second;
  }

  /** `v` hears the later TB and then the earlier one; `w` hears the later one. Both install. */
  lemma BothInstalled(s: Net, m: Ip, v: Ip, w: Ip, r: Round, b: seq<byte>) returns (events: seq<Event>)
    requires m != v && m != w && v != w && s.nodes.Keys == {m, v, w}
    requires s.nodes[v] == Fresh(v, false) && s.nodes[w] == Fresh(w, false)
    requires r == Round(m, LATER, [v, w], r.bytes) && GoodRound(r) && Sender(r.bytes) == m && r.bytes in s.air
    requires Readable(b) && Sender(b) == m && Ips(b) == [m, w] && b in s.air
    ensures Possible(s, events)
    ensures var t := After(s, events);
      && t.nodes.Keys == s.nodes.Keys && t.log == s.log
      && Of(t.nodes[v].timeTable, r, NO_SLOT) && Own(t.nodes[w].timeTable, w, r)
  {
    var act := LATER + 1_000_001;
    var first := [Hear(v, r.bytes), Hear(v, b), Check(v, act)];
    HearsAndInstalls(s, v, r.bytes, b, act);
    StaleTable(Fresh(v, false), r.bytes, b, r, act);
    var s1 := After(s, first);
    var second := [Hear(w, r.bytes), Hear(w, r.bytes), Check(w, act)];
    HearsAndInstalls(s1, w, r.bytes, r.bytes, act);
    InstallsOwnSlot(Fresh(w, false), r.bytes, r, act);
    Joined(s, first, second);
    events := first + second;
  }

  /** Both use the last slot of the round, and transmit at its first instant. */
  lemma BothSend(s: Net, v: Ip, w: Ip, r: Round) returns (events: seq<Event>, t: Tx, u: Tx)
    requires v != w && v in s.nodes && w in s.nodes
    requires GoodRound(r) && r.subs == [v, w] && r.now == LATER && r.master != w
    requires Of(s.nodes[v].timeTable, r, NO_SLOT) && Own(s.nodes[w].timeTable, w, r)
    ensures Possible(s, events) && t in After(s, events).log && u in After(s, events).log
    ensures t.ip == v && u.ip == w && t.tt.sync == u.tt.sync && !Apart(t.start, u.start)
  {
    var tt, uu := s.nodes[v].timeTable, s.nodes[w].timeTable;
    assert r.List()[2] == w && First(r.List(), w) == 2 by {
      FirstIs(r.List(), w, 2);
    }
    NeverOverlapExactly(tt, uu, v, w, r);
    var a, c :| a in Times(tt) && c in Times(uu) && !Apart(a, c);
    t, u := Tx(v, a, tt), Tx(w, c, uu);
    Sent(s, v, a);
    var s1 := After(s, [Send(v, a)]);
    Sent(s1, w, c);
    Joined(s, [Send(v, a)], [Send(w, c)]);
    events := [Send(v, a)] + [Send(w, c)];
  }

  lemma InstalledAndSent(s: Net, m: Ip, v: Ip, w: Ip, r: Round, b: seq<byte>)
    returns (events: seq<Event>, t: Tx, u: Tx)
    requires m != v && m != w && v != w && s.nodes.Keys == {m, v, w}
    requires s.nodes[v] == Fresh(v, false) && s.nodes[w] == Fresh(w, false)
    requires r == Round(m, LATER, [v, w], r.bytes) && GoodRound(r) && Sender(r.bytes) == m && r.bytes in s.air
    requires Readable(b) && Sender(b) == m && Ips(b) == [m, w] && b in s.air
    ensures Possible(s, events) && t in After(s, events).log && u in After(s, events).log
    ensures t.ip == v && u.ip == w && t.tt.sync == u.tt.sync && !Apart(t.start, u.start)
  {
    var install := BothInstalled(s, m, v, w, r, b);
    var s1 := After(s, install);
    var send;
    send, t, u := BothSend(s1, v, w, r);
    Joined(s, install, send);
    events := install + send;
  }

  lemma ReadableRound(m: Ip, now: nat, subs: seq<Ip>, b: seq<byte>)
    requires Generated(b, m, now, subs) && 0 < now < LAST_ROUND && |subs| < 32767
    ensures GoodRound(Round(m, now, subs, b)) && Readable(b) && Sender(b) == m && Ips(b) == [m] + subs
  {
    NewRound(b, m, now, subs);
  }

  lemma FromAnnouncement(m: Ip, v: Ip, w: Ip, r: Round, b: seq<byte>, announce: seq<Event>)
    returns (events: seq<Event>, t: Tx, u: Tx)
    requires m != v && m != w && v != w
    requires Possible(Beginning(m, v, w), announce)
    requires var s := After(Beginning(m, v, w), announce);
      && s.nodes.Keys == {m, v, w} && s.nodes[v] == Fresh(v, false) && s.nodes[w] == Fresh(w, false)
      && r.bytes in s.air && b in s.air
    requires r == Round(m, LATER, [v, w], r.bytes) && GoodRound(r) && Sender(r.bytes) == m
    requires Readable(b) && Sender(b) == m && Ips(b) == [m, w]
    ensures Collides(Beginning(m, v, w), events, t, u) && t.ip == v && u.ip == w
  {
    var s := Beginning(m, v, w);
    var rest;
    rest, t, u := InstalledAndSent(After(s, announce), m, v, w, r, b);
    Joined(s, announce, rest);
    events := announce + rest;
  }

  /**
   * For every master and every two slaves there is a run from fresh nodes in which the slaves
   * collide: one joins, hears the TB that lists it, and then a late copy of the one before.
   */
  lemma LateTbMakesNodesCollide(m: Ip, v: Ip, w: Ip)
    requires m != v && m != w && v != w
    ensures exists s, events, t, u :: Collides(s, events, t, u) && t.ip == v && u.ip == w
  {
    TbBytesGenerated(m, EARLIER, [w]);
    TbBytesGenerated(m, LATER, [v, w]);
    var b, c := TbBytes(m, EARLIER, [w]), TbBytes(m, LATER, [v, w]);
    var announce := BothAnnounced(m, v, w, b, c);
    ReadableRound(m, EARLIER, [w], b);
    ReadableRound(m, LATER, [v, w], c);
    var events, t, u := FromAnnouncement(m, v, w, Round(m, LATER, [v, w], c), b, announce);
  }
}
