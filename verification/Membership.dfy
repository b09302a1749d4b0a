/** Who is inside the network: over every run, the slaves that the last TB they noticed lists. */
module Membership {
  import opened Bytes
  import opened TbFormat
  import opened Node
  import opened Network

  /** Node `v` hears a TB that another node has sent. */
  predicate Notices(v: Ip, e: Event) {
    e.Hear? && e.node == v && Readable(e.copy) && Sender(e.copy) != v
  }

  /** The last TB of another node that `v` has heard in the run. */
  function LastNoticed(v: Ip, events: seq<Event>): Option<seq<byte>> {
    if events == [] then None
    else
      var later := LastNoticed(v, events[1..]);
      if later.Some? then later else if Notices(v, events[0]) then Some(events[0].copy) else None
  }

  /** In this run nothing but TBs changes the status of `v`. */
  ghost predicate OnlyTbsMove(s: Net, events: seq<Event>, v: Ip)
    requires Possible(s, events)
    decreases |events|
  {
    events != [] ==>
      && (events[0].Elsewhere? && events[0].node == v ==> events[0].after.status == s.nodes[v].status)
      && OnlyTbsMove(Next(s, events[0]), events[1..], v)
  }

  ghost predicate IsSlave(s: Net, v: Ip) {
    v in s.nodes && s.nodes[v].ip == v && !s.nodes[v].isMaster
  }

  /** Inside if the TB lists the node, Outside if not. */
  predicate Decided(status: Status, v: Ip, b: seq<byte>) {
    Readable(b) && status == if v in Ips(b) then Inside else Outside
  }

  lemma StatusStep(s: Net, e: Event, v: Ip)
    requires Enabled(s, e) && IsSlave(s, v)
    requires e.Elsewhere? && e.node == v ==> e.after.status == s.nodes[v].status
    ensures IsSlave(Next(s, e), v)
    ensures var after := Next(s, e).nodes[v].status;
      if Notices(v, e) then Decided(after, v, e.copy) else after == s.nodes[v].status
  {
  }

  /** The status of a slave after a run is what the last TB of another node says, whatever else has happened. */
  lemma {:induction false} LastTbDecides(s: Net, events: seq<Event>, v: Ip)
    requires Possible(s, events) && IsSlave(s, v) && OnlyTbsMove(s, events, v)
    ensures var end := After(s, events);
      && IsSlave(end, v)
      && match LastNoticed(v, events)
         case None => end.nodes[v].status == s.nodes[v].status
         case Some(b) => Decided(end.nodes[v].status, v, b)
    decreases |events|
  {
    if events != [] {
      StatusStep(s, events[0], v);
      LastTbDecides(Next(s, events[0]), events[1..], v);
    }
  }

  lemma {:induction false} NoticedDescends(s: Net, events: seq<Event>, v: Ip)
    requires Inv(s) && Possible(s, events) && LastNoticed(v, events).Some?
    ensures Descended(LastNoticed(v, events).value, After(s, events).rounds)
    decreases |events|
  {
    var t := Next(s, events[0]);
    StepKeeps(s, events[0]);
    if LastNoticed(v, events[1..]).Some? {
      NoticedDescends(t, events[1..], v);
    } else {
      RunKeeps(s, events);
      CopySurvives(events[0].copy, s.rounds, After(s, events).rounds);
    }
  }

  /** Round `r` is the one that `v` has noticed last, and it lists `v`. */
  ghost predicate LastListedBy(v: Ip, events: seq<Event>, r: Round) {
    LastNoticed(v, events).Some? && AgreesWith(LastNoticed(v, events).value, r) && v in r.List()
  }

  /**
   * From the master's list to the status: in every run, through any number of relays, a slave that
   * starts outside is inside if and only if the round whose TB it has noticed last lists it, and
   * outside otherwise.
   */
  lemma InsideExactly(s: Net, events: seq<Event>, v: Ip)
    requires Initial(s) && Possible(s, events) && IsSlave(s, v) && OnlyTbsMove(s, events, v)
    requires s.nodes[v].status == Outside
    ensures var end := After(s, events);
      && v in end.nodes && (end.nodes[v].status == Inside || end.nodes[v].status == Outside)
      && (end.nodes[v].status == Inside <==> exists r | r in end.rounds :: LastListedBy(v, events, r))
  {
    InitiallyGood(s);
    RunKeeps(s, events);
    LastTbDecides(s, events, v);
    if LastNoticed(v, events).Some? {
      NoticedDescends(s, events, v);
      CopyAgrees(LastNoticed(v, events).value, After(s, events).rounds);
    }
  }
}
