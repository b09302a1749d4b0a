/** Runs of any state machine whose step is a partial function. */
module Runs {
  import opened Bytes

  /** The state after the events; None if one of them cannot happen. */
  ghost function RunFrom<S, E>(step: (S, E) -> Option<S>, s: S, events: seq<E>): Option<S>
    decreases |events|
  {
    if events == [] then Some(s)
    else
      match step(s, events[0])
      case None => None
      case Some(t) => RunFrom(step, t, events[1..])
  }

  lemma {:induction false} Appended<S, E>(step: (S, E) -> Option<S>, s: S, first: seq<E>, second: seq<E>)
    requires RunFrom(step, s, first).Some?
    ensures RunFrom(step, s, first + second) == RunFrom(step, RunFrom(step, s, first).value, second)
    decreases |first|
  {
    if first == [] {
      assert first + second == second;
    } else {
      Appended(step, step(s, first[0]).value, first[1..], second);
      assert (first + second)[0] == first[0] && (first + second)[1..] == first[1..] + second;
    }
  }

  lemma OneStep<S, E>(step: (S, E) -> Option<S>, s: S, e: E)
    ensures RunFrom(step, s, [e]) == step(s, e)
  {
    assert [e][1..] == [];
  }

  lemma TwoSteps<S, E>(step: (S, E) -> Option<S>, s: S, e: E, f: E)
    requires step(s, e).Some?
    ensures RunFrom(step, s, [e, f]) == step(step(s, e).value, f)
  {
    assert [e, f][1..] == [f];
    OneStep(step, step(s, e).value, f);
  }

  lemma {:induction false} PrefixRuns<S, E>(step: (S, E) -> Option<S>, s: S, events: seq<E>, k: nat)
    requires RunFrom(step, s, events).Some? && k <= |events|
    ensures RunFrom(step, s, events[..k]).Some?
    decreases k
  {
    if k > 0 {
      var t := step(s, events[0]).value;
      PrefixRuns(step, t, events[1..], k - 1);
      assert events[..k][0] == events[0] && events[..k][1..] == events[1..][..k - 1];
    }
  }

  /** The state before event `k`. */
  ghost function At<S, E>(step: (S, E) -> Option<S>, s: S, events: seq<E>, k: nat): S
    requires RunFrom(step, s, events).Some? && k <= |events|
  {
    PrefixRuns(step, s, events, k);
    RunFrom(step, s, events[..k]).value
  }

  /** A run and its last event. */
  lemma LastStep<S, E>(step: (S, E) -> Option<S>, s: S, events: seq<E>)
    requires RunFrom(step, s, events).Some? && events != []
    ensures var n := |events| - 1;
      && RunFrom(step, s, events[..n]).Some? && At(step, s, events, n) == RunFrom(step, s, events[..n]).value
      && step(At(step, s, events, n), events[n]) == RunFrom(step, s, events)
  {
    var n := |events| - 1;
    PrefixRuns(step, s, events, n);
    Appended(step, s, events[..n], [events[n]]);
    OneStep(step, At(step, s, events, n), events[n]);
    assert events[..n] + [events[n]] == events;
  }

  /** Which events of the run are of the kind `what`, in the state in which they come. */
  ghost function Marks<S, E>(step: (S, E) -> Option<S>, s: S, events: seq<E>, what: (S, E) -> bool): (m: seq<bool>)
    requires RunFrom(step, s, events).Some?
    ensures |m| == |events|
    decreases |events|
  {
    if events == [] then []
    else
      var n := |events| - 1;
      PrefixRuns(step, s, events, n);
      Marks(step, s, events[..n], what) + [what(At(step, s, events, n), events[n])]
  }

  lemma MarksLast<S, E>(step: (S, E) -> Option<S>, s: S, events: seq<E>, what: (S, E) -> bool)
    requires RunFrom(step, s, events).Some? && events != []
    ensures var n := |events| - 1;
      && RunFrom(step, s, events[..n]).Some?
      && (true in Marks(step, s, events, what)
          <==> true in Marks(step, s, events[..n], what) || what(At(step, s, events, n), events[n]))
  {
    PrefixRuns(step, s, events, |events| - 1);
  }

  /** Something is started at some place, and not ended at a later one. */
  predicate StartedSince(starts: seq<bool>, ends: seq<bool>)
    requires |starts| == |ends|
  {
    exists i | 0 <= i < |starts| :: starts[i] && forall j | i < j < |ends| :: !ends[j]
  }

  lemma StartedSinceLast(starts: seq<bool>, ends: seq<bool>, start: bool, end: bool)
    requires |starts| == |ends|
    ensures StartedSince(starts + [start], ends + [end]) <==> start || (StartedSince(starts, ends) && !end)
  {
    var a, b, n := starts + [start], ends + [end], |starts|;
    assert |a| == |b| == n + 1 && (start ==> a[n]);
    if StartedSince(starts, ends) && !end {
      var i :| 0 <= i < n && starts[i] && forall j | i < j < n :: !ends[j];
      assert a[i] && forall j | i < j < |b| :: !b[j];
    }
    if StartedSince(a, b) && !start {
      var i :| 0 <= i < |a| && a[i] && forall j | i < j < |b| :: !b[j];
      assert i < n && !b[n] && starts[i] && forall j | i < j < n :: ends[j] == b[j];
    }
  }

  /** Some event of the run starts something, and no later one ends it. */
  ghost predicate Since<S, E>(step: (S, E) -> Option<S>, s: S, events: seq<E>,
                              starts: (S, E) -> bool, ends: (S, E) -> bool)
    requires RunFrom(step, s, events).Some?
  {
    StartedSince(Marks(step, s, events, starts), Marks(step, s, events, ends))
  }

  /** The last event starts it, or it had been started before and the last event does not end it. */
  lemma SinceLast<S, E>(step: (S, E) -> Option<S>, s: S, events: seq<E>,
                        starts: (S, E) -> bool, ends: (S, E) -> bool)
    requires RunFrom(step, s, events).Some? && events != []
    ensures var n := |events| - 1; var t := At(step, s, events, n);
      && RunFrom(step, s, events[..n]).Some?
      && (Since(step, s, events, starts, ends)
          <==> starts(t, events[n]) || (Since(step, s, events[..n], starts, ends) && !ends(t, events[n])))
  {
    var n := |events| - 1;
    PrefixRuns(step, s, events, n);
    StartedSinceLast(Marks(step, s, events[..n], starts), Marks(step, s, events[..n], ends),
                     starts(At(step, s, events, n), events[n]), ends(At(step, s, events, n), events[n]));
  }
}
