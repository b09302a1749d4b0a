/** The distance that a node derives from a neighbour's distance and the loss on the link to it. */
module Distance {
  /** `unsigned short`. */
  type Short = d: int | 0 <= d <= 65535

  const UNREACHABLE: Short := 65535
  const WORST_QUALITY := 1.0
  const HIGHEST_LOSS_MAGNITUDE := 10000.0

  /** From distance `d`, a link with scaled loss `x` takes its share of what is left up to UNREACHABLE. */
  function Span(d: real, x: real): real {
    d + x * (65535.0 - d)
  }

  lemma Scaled(x: real, rest: real)
    requires 0.0 <= x <= 1.0 && rest >= 0.0
    ensures 0.0 <= x * rest <= rest
    ensures rest > 0.0 && x < 1.0 ==> x * rest < rest
    ensures x == 1.0 || rest == 0.0 ==> x * rest == rest
  {
  }

  lemma SpanBounds(d: real, x: real)
    requires d <= 65535.0 && 0.0 <= x <= 1.0
    ensures d <= Span(d, x) <= 65535.0
    ensures d < 65535.0 && x < 1.0 ==> Span(d, x) < 65535.0
    ensures x == 1.0 || d == 65535.0 ==> Span(d, x) == 65535.0
  {
    var rest := 65535.0 - d;
    Scaled(x, rest);
    assert Span(d, x) == d + x * rest;
  }

  lemma SpanDifference(d: real, e: real, x: real)
    ensures Span(e, x) - Span(d, x) == (e - d) - x * (e - d)
  {
  }

  /** A link never widens the gap between two distances. */
  lemma SpanGap(d: real, e: real, x: real)
    requires d <= e && 0.0 <= x <= 1.0
    ensures 0.0 <= Span(e, x) - Span(d, x) <= e - d
  {
    var gap, loss := e - d, x * (e - d);
    SpanDifference(d, e, x);
    Scaled(x, gap);
    assert Span(e, x) - Span(d, x) == gap - loss;
  }

  lemma SpanLoss(d: real, x: real, y: real)
    requires d <= 65535.0 && x <= y
    ensures Span(d, x) <= Span(d, y)
  {
    assert Span(d, y) - Span(d, x) == (y - x) * (65535.0 - d);
  }

  // ---------------------------------------------------------------- one hop

  /** `getDistance`: what does not fit an `unsigned short` wraps around. */
  function GetDistance(local: real, remote: real, distance: Short): Short {
    if local == WORST_QUALITY || remote == WORST_QUALITY || distance == UNREACHABLE then UNREACHABLE
    else Span(distance as real, remote * HIGHEST_LOSS_MAGNITUDE).Floor % 65536
  }

  /** One hop with scaled loss `x`, truncated. */
  function Hop(distance: Short, x: real): int {
    Span(distance as real, x).Floor
  }

  /** A hop never leads below the neighbour's distance, nor beyond UNREACHABLE. */
  lemma HopBounds(distance: Short, x: real)
    requires 0.0 <= x <= 1.0
    ensures distance <= Hop(distance, x) <= UNREACHABLE
    ensures distance < UNREACHABLE && x < 1.0 ==> Hop(distance, x) < UNREACHABLE
    ensures x == 1.0 || distance == UNREACHABLE ==> Hop(distance, x) == UNREACHABLE
  {
    SpanBounds(distance as real, x);
  }

  /** A link that takes less than one unit of what is left from distance `d` on. */
  predicate Clean(d: Short, x: real) {
    x * (65535.0 - d as real) < 1.0
  }

  /** It adds at least one exactly if the loss takes a whole unit of what is left. */
  lemma HopGrows(distance: Short, x: real)
    requires 0.0 <= x <= 1.0
    ensures distance < Hop(distance, x) <==> !Clean(distance, x)
  {
    SpanBounds(distance as real, x);
  }

  /** A hop is monotone in the distance and in the loss. */
  lemma HopMonotone(d: Short, e: Short, x: real, y: real)
    requires d <= e && 0.0 <= x <= y <= 1.0
    ensures Hop(d, x) <= Hop(e, y)
  {
    SpanGap(d as real, e as real, x);
    SpanLoss(e as real, x, y);
  }

  /** `getDistance` is a hop, as long as the loss is acceptable. */
  lemma GetDistanceIsHop(local: real, remote: real, distance: Short)
    requires local != WORST_QUALITY && 0.0 <= remote * HIGHEST_LOSS_MAGNITUDE <= 1.0
    ensures GetDistance(local, remote, distance) == Hop(distance, remote * HIGHEST_LOSS_MAGNITUDE)
  {
    HopBounds(distance, remote * HIGHEST_LOSS_MAGNITUDE);
  }

  // ---------------------------------------------------------------- losses out of range

  /** The result fits in an `unsigned short` exactly if the loss adds less than `L - D + 1`. */
  lemma InRangeExactly(remote: real, distance: Short)
    requires remote >= 0.0
    ensures Hop(distance, remote * HIGHEST_LOSS_MAGNITUDE) < 65536
       <==> (remote * HIGHEST_LOSS_MAGNITUDE - 1.0) * (65535.0 - distance as real) < 1.0
  {
    var x, rest := remote * HIGHEST_LOSS_MAGNITUDE, 65535.0 - distance as real;
    assert (x - 1.0) * rest == x * rest - rest;
  }

  /** A loss of 2E-4 wraps around: over this link, a neighbour at distance 40000 seems 25534 away. */
  lemma LossyLinkLooksShort()
    ensures GetDistance(0.0, 0.0002, 40000) == 25534
  {
    assert Span(40000.0, 2.0) == 91070.0;
  }

  // ---------------------------------------------------------------- paths

  /** The distance over a path with the given scaled losses, starting at the master, without truncation. */
  function Exact(losses: seq<real>): real {
    if losses == [] then 0.0
    else
      Span(Exact(losses[..|losses| - 1]), losses[|losses| - 1])
  }

  /** The probability that nothing is lost on the way. */
  function Delivered(losses: seq<real>): real {
    if losses == [] then 1.0 else Delivered(losses[..|losses| - 1]) * (1.0 - losses[|losses| - 1])
  }

  predicate Losses(losses: seq<real>) {
    forall i | 0 <= i < |losses| :: 0.0 <= losses[i] <= 1.0
  }

  /** What the nodes along the path advertise, each truncating. */
  function Advertised(losses: seq<real>): Short
    requires Losses(losses)
  {
    if losses == [] then 0
    else
      var d := Advertised(losses[..|losses| - 1]);
      HopBounds(d, losses[|losses| - 1]);
      Hop(d, losses[|losses| - 1])
  }

  /** One hop further along the path, that is what `getDistance` makes of the neighbour's distance. */
  lemma NextAdvertised(losses: seq<real>, local: real, remote: real)
    requires Losses(losses) && local != WORST_QUALITY && 0.0 <= remote * HIGHEST_LOSS_MAGNITUDE <= 1.0
    ensures Losses(losses + [remote * HIGHEST_LOSS_MAGNITUDE])
    ensures GetDistance(local, remote, Advertised(losses)) == Advertised(losses + [remote * HIGHEST_LOSS_MAGNITUDE])
  {
    var longer := losses + [remote * HIGHEST_LOSS_MAGNITUDE];
    assert longer[..|longer| - 1] == losses;
    GetDistanceIsHop(local, remote, Advertised(losses));
  }

  /** The exact distance is L times the probability that something is lost. */
  lemma {:induction false} DistanceIsLoss(losses: seq<real>)
    ensures 65535.0 - Exact(losses) == 65535.0 * Delivered(losses)
  {
    if losses != [] {
      var before, x := losses[..|losses| - 1], losses[|losses| - 1];
      DistanceIsLoss(before);
      OneMoreLoss(Exact(before), x, Delivered(before));
    }
  }

  lemma OneMoreLoss(d: real, x: real, p: real)
    requires 65535.0 - d == 65535.0 * p
    ensures 65535.0 - Span(d, x) == 65535.0 * (p * (1.0 - x))
  {
    assert 65535.0 - Span(d, x) == (65535.0 - d) * (1.0 - x);
  }

  lemma FloorWithin(raw: real, next: real, gap: real, k: nat)
    requires 0.0 <= next - raw <= gap <= k as real
    ensures next - (k + 1) as real < raw.Floor as real <= next
  {
  }

  lemma HopError(d: Short, exact: real, x: real, k: nat)
    requires 0.0 <= x <= 1.0 && exact - k as real <= d as real <= exact
    ensures Span(exact, x) - (k + 1) as real < Hop(d, x) as real <= Span(exact, x)
  {
    SpanGap(d as real, exact, x);
    FloorWithin(Span(d as real, x), Span(exact, x), exact - d as real, k);
  }

  /** After `k` hops, truncation has cost less than `k`. */
  lemma {:induction false} TruncationError(losses: seq<real>)
    requires Losses(losses)
    ensures Exact(losses) - |losses| as real <= Advertised(losses) as real <= Exact(losses)
    ensures losses != [] ==> Exact(losses) - |losses| as real < Advertised(losses) as real
  {
    if losses != [] {
      var before, x := losses[..|losses| - 1], losses[|losses| - 1];
      TruncationError(before);
      HopError(Advertised(before), Exact(before), x, |before|);
    }
  }

  /** The two together: what the last node advertises, in terms of the losses alone. */
  lemma AdvertisedIsLoss(losses: seq<real>)
    requires Losses(losses) && losses != []
    ensures var loss := 65535.0 * (1.0 - Delivered(losses));
      loss - |losses| as real < Advertised(losses) as real <= loss
  {
    DistanceIsLoss(losses);
    TruncationError(losses);
  }

  // ---------------------------------------------------------------- routing loops

  /** Nodes in a ring, each routing through the next: what it advertises is a hop from what the next advertises. */
  ghost predicate Ring(d: seq<Short>, x: seq<real>) {
    && |d| == |x| > 0 && Losses(x)
    && forall i | 0 <= i < |d| :: IsHop(d[i], Next(d, i), x[i])
  }

  function Next(d: seq<Short>, i: nat): Short
    requires i < |d|
  {
    if i + 1 < |d| then d[i + 1] else d[0]
  }

  predicate IsHop(d: Short, next: Short, x: real) {
    d == Hop(next, x)
  }

  lemma {:induction false} RingDescends(d: seq<Short>, x: seq<real>, i: nat)
    requires Ring(d, x) && i < |d|
    ensures d[0] >= d[i] >= Next(d, |d| - 1)
    decreases i
  {
    if i == 0 {
      RingEnds(d, x, 0);
    } else {
      RingDescends(d, x, i - 1);
      assert IsHop(d[i - 1], Next(d, i - 1), x[i - 1]);
      HopBounds(d[i], x[i - 1]);
      RingEnds(d, x, i);
    }
  }

  lemma {:induction false} RingEnds(d: seq<Short>, x: seq<real>, i: nat)
    requires Ring(d, x) && i < |d|
    ensures d[i] >= Next(d, |d| - 1)
    decreases |d| - i
  {
    assert IsHop(d[i], Next(d, i), x[i]);
    HopBounds(Next(d, i), x[i]);
    if i + 1 < |d| {
      RingEnds(d, x, i + 1);
    }
  }

  lemma RingIsLevel(d: seq<Short>, x: seq<real>, i: nat)
    requires Ring(d, x) && i < |d|
    ensures d[i] == d[0]
  {
    RingDescends(d, x, i);
    assert Next(d, |d| - 1) == d[0];
  }

  lemma StandingStill(d: Short, x: real)
    requires 0.0 <= x <= 1.0 && IsHop(d, d, x)
    ensures Clean(d, x)
  {
    HopGrows(d, x);
  }

  /**
   * A routing loop needs links that are nearly perfect: around it all distances are equal, and no
   * link loses even one unit of what is left.
   */
  lemma LoopsNeedCleanLinks(d: seq<Short>, x: seq<real>, i: nat)
    requires Ring(d, x) && i < |d|
    ensures d[i] == d[0] && Clean(d[0], x[i])
  {
    RingIsLevel(d, x, i);
    if i + 1 < |d| {
      RingIsLevel(d, x, i + 1);
    }
    assert IsHop(d[i], Next(d, i), x[i]);
    StandingStill(d[0], x[i]);
  }

  /** And that is all they need. */
  lemma LoopsExactly(d: seq<Short>, x: seq<real>)
    requires |d| == |x| > 0 && Losses(x)
    ensures Ring(d, x) <==> forall i | 0 <= i < |d| :: d[i] == d[0] && Clean(d[0], x[i])
  {
    if Ring(d, x) {
      forall i | 0 <= i < |d|
        ensures d[i] == d[0] && Clean(d[0], x[i])
      {
        LoopsNeedCleanLinks(d, x, i);
      }
    }
    if forall i | 0 <= i < |d| :: d[i] == d[0] && Clean(d[0], x[i]) {
      forall i | 0 <= i < |d|
        ensures IsHop(d[i], Next(d, i), x[i])
      {
        HopGrows(d[0], x[i]);
        HopBounds(d[0], x[i]);
      }
    }
  }
}
