/** The routing table as a sequence: one entry for each neighbour, nearest first. */
module Routing {
  import opened Bytes
  import opened Distance
  import opened Sequences

  const ROLLING_RESTART := 256
  const ROLLING_MAX := 2560
  const ROUTE_LOSS_DELAY := 30_000_000_000  // six times the longest PB delay, in nanoseconds

  type Size = n: int | n > 0 witness 1

  datatype Entry = Entry(ip: Ip, distance: Short, local: real, remote: real, lastHeard: nat, bytes: nat)

  /** The arguments of `routInsertOrUpdateEntry`; `bytes` is the size of the packet that was heard. */
  datatype Report = Report(ip: Ip, distance: Short, local: real, remote: real, heard: nat, bytes: Size)

  function Dist(e: Entry): Short {
    GetDistance(e.local, e.remote, e.distance)
  }

  // ---------------------------------------------------------------- rolling averages

  function Average(oldPbe: real, oldBytes: nat, pbe: real, bytes: Size): real {
    (oldPbe * oldBytes as real + pbe * bytes as real) / (oldBytes + bytes) as real
  }

  function Rolled(oldBytes: nat, bytes: Size): nat {
    if oldBytes + bytes > ROLLING_MAX then ROLLING_RESTART else oldBytes + bytes
  }

  lemma Cancel(x: real, y: real, n: real)
    requires n > 0.0 && x * n <= y * n
    ensures x <= y
  {
  }

  lemma RatioOrder(x: real, lo: real, hi: real, n: real)
    requires n > 0.0 && lo * n <= x <= hi * n
    ensures lo <= x / n <= hi
  {
    var q := x / n;
    assert q * n == x;
    Cancel(lo, q, n);
    Cancel(q, hi, n);
  }

  /** An average lies between what is averaged. */
  lemma AverageBetween(oldPbe: real, oldBytes: nat, pbe: real, bytes: Size, lo: real, hi: real)
    requires lo <= oldPbe <= hi && lo <= pbe <= hi
    ensures lo <= Average(oldPbe, oldBytes, pbe, bytes) <= hi
  {
    var a, b := oldBytes as real, bytes as real;
    WeightedSum(oldPbe, pbe, a, b, lo, hi);
    RatioOrder(oldPbe * a + pbe * b, lo, hi, a + b);
  }

  lemma Weighted(x: real, y: real, n: real)
    requires n >= 0.0 && x <= y
    ensures x * n <= y * n
  {
  }

  lemma Distribute(x: real, a: real, b: real)
    ensures x * (a + b) == x * a + x * b
  {
  }

  lemma WeightedSum(p: real, q: real, a: real, b: real, lo: real, hi: real)
    requires a >= 0.0 && b >= 0.0 && lo <= p <= hi && lo <= q <= hi
    ensures lo * (a + b) <= p * a + q * b <= hi * (a + b)
  {
    Weighted(lo, p, a);
    Weighted(p, hi, a);
    Weighted(lo, q, b);
    Weighted(q, hi, b);
    Distribute(lo, a, b);
    Distribute(hi, a, b);
    var low, high, sum := lo * a + lo * b, hi * a + hi * b, p * a + q * b;
    assert low <= sum <= high;
  }

  // ---------------------------------------------------------------- finding, placing, removing

  function Find(t: seq<Entry>, ip: Ip): (k: nat)
    ensures k <= |t| && (k < |t| ==> t[k].ip == ip)
    ensures forall i | 0 <= i < k :: t[i].ip != ip
  {
    if t == [] || t[0].ip == ip then 0 else 1 + Find(t[1..], ip)
  }

  lemma FindIs(t: seq<Entry>, ip: Ip, k: nat)
    requires k <= |t| && (k < |t| ==> t[k].ip == ip) && forall i | 0 <= i < k :: t[i].ip != ip
    ensures Find(t, ip) == k
  {
  }

  /** The first entry that is farther away than `d`. */
  function Farther(t: seq<Entry>, d: Short): (k: nat)
    ensures k <= |t| && (k < |t| ==> d < Dist(t[k]))
    ensures forall i | 0 <= i < k :: Dist(t[i]) <= d
  {
    if t == [] || d < Dist(t[0]) then 0 else 1 + Farther(t[1..], d)
  }

  lemma FartherIs(t: seq<Entry>, d: Short, k: nat)
    requires k <= |t| && (k < |t| ==> d < Dist(t[k])) && forall i | 0 <= i < k :: Dist(t[i]) <= d
    ensures Farther(t, d) == k
  {
  }

  /** Where a new entry goes. A single entry is handled apart, and gives way to one at the same distance. */
  function Place(t: seq<Entry>, d: Short): (k: nat)
    ensures k <= |t|
  {
    if |t| == 1 then (if Dist(t[0]) < d then 1 else 0) else Farther(t, d)
  }

  function Placed(t: seq<Entry>, e: Entry): seq<Entry> {
    Inserted(t, Place(t, Dist(e)), e)
  }

  /** `routRemoveEntry`. */
  function Removed(t: seq<Entry>, ip: Ip): seq<Entry> {
    if Find(t, ip) < |t| then Without(t, Find(t, ip)) else t
  }

  function Fresh(r: Report): Entry {
    Entry(r.ip, r.distance, r.local, r.remote, r.heard, 0)
  }

  /** What a report makes of the entry that its sender has already. */
  function Merged(e: Entry, r: Report): Entry {
    Entry(e.ip, r.distance, Average(e.local, e.bytes, r.local, r.bytes), r.remote, r.heard, Rolled(e.bytes, r.bytes))
  }

  /** `routInsertOrUpdateEntry`. */
  function Updated(t: seq<Entry>, r: Report): seq<Entry> {
    var k := Find(t, r.ip);
    if k == |t| then Placed(t, Fresh(r)) else Placed(Without(t, k), Merged(t[k], r))
  }

  /** `routUpdateLastHeard`. */
  function Heard(t: seq<Entry>, ip: Ip, act: nat): seq<Entry> {
    var k := Find(t, ip);
    if k == |t| then t else t[k := t[k].(lastHeard := act)]
  }

  /** `routUpdateRollingLocalPBE`: changes the entry where it is. */
  function RolledEntry(e: Entry, local: real, bytes: Size): Entry {
    e.(local := Average(e.local, e.bytes, local, bytes), bytes := Rolled(e.bytes, bytes))
  }

  function RolledIn(t: seq<Entry>, ip: Ip, local: real, bytes: Size): seq<Entry> {
    var k := Find(t, ip);
    if k == |t| then t else t[k := RolledEntry(t[k], local, bytes)]
  }

  // ---------------------------------------------------------------- sorted by distance

  predicate NotFarther(t: seq<Entry>, i: nat, j: nat)
    requires i < |t| && j < |t|
  {
    Dist(t[i]) <= Dist(t[j])
  }

  ghost predicate Sorted(t: seq<Entry>) {
    forall i, j | 0 <= i < j < |t| :: NotFarther(t, i, j)
  }

  lemma PutKeepsOrder(t: seq<Entry>, k: nat, e: Entry)
    requires Sorted(t) && k <= |t|
    requires forall i | 0 <= i < k :: Dist(t[i]) <= Dist(e)
    requires k < |t| ==> Dist(e) <= Dist(t[k])
    ensures Sorted(Inserted(t, k, e))
  {
    var s := Inserted(t, k, e);
    forall i, j | 0 <= i < j < |s|
      ensures NotFarther(s, i, j)
    {
      if i == k {
        assert k == j - 1 || NotFarther(t, k, j - 1);
      } else if j == k {
        assert s[i] == t[i];
      } else {
        assert NotFarther(t, if i < k then i else i - 1, if j < k then j else j - 1);
      }
    }
  }

  lemma PlacedSorted(t: seq<Entry>, e: Entry)
    requires Sorted(t)
    ensures Sorted(Placed(t, e))
  {
    PutKeepsOrder(t, Place(t, Dist(e)), e);
  }

  lemma WithoutSorted(t: seq<Entry>, k: nat)
    requires Sorted(t) && k < |t|
    ensures Sorted(Without(t, k))
  {
    var s := Without(t, k);
    forall i, j | 0 <= i < j < |s|
      ensures NotFarther(s, i, j)
    {
      assert NotFarther(t, if i < k then i else i + 1, if j < k then j else j + 1);
    }
  }

  /** Updating keeps the table sorted, through all the cases. */
  lemma UpdatedSorted(t: seq<Entry>, r: Report)
    requires Sorted(t)
    ensures Sorted(Updated(t, r))
  {
    var k := Find(t, r.ip);
    if k == |t| {
      PlacedSorted(t, Fresh(r));
    } else {
      WithoutSorted(t, k);
      PlacedSorted(Without(t, k), Merged(t[k], r));
    }
  }

  /**
   * Among entries at the same distance the new one comes last, unless there was only one entry:
   * then it comes first.
   */
  lemma TiesGoBehindUnlessSingle(t: seq<Entry>, e: Entry, i: nat)
    requires Sorted(t) && i < |t| && Dist(t[i]) == Dist(e)
    ensures i < Place(t, Dist(e)) <==> |t| != 1
  {
    if |t| != 1 && Farther(t, Dist(e)) <= i {
      assert Farther(t, Dist(e)) == i || NotFarther(t, Farther(t, Dist(e)), i);
    }
  }

  lemma SameDistancesSorted(t: seq<Entry>, k: nat, e: Entry)
    requires Sorted(t) && k < |t| && Dist(e) == Dist(t[k])
    ensures Sorted(t[k := e])
  {
    var s := t[k := e];
    forall i, j | 0 <= i < j < |t|
      ensures NotFarther(s, i, j)
    {
      assert NotFarther(t, i, j);
    }
  }

  lemma HeardSorted(t: seq<Entry>, ip: Ip, act: nat)
    requires Sorted(t)
    ensures Sorted(Heard(t, ip, act))
  {
    var k := Find(t, ip);
    if k < |t| {
      SameDistancesSorted(t, k, t[k].(lastHeard := act));
    }
  }

  // ---------------------------------------------------------------- rolling averages and the order

  /** The rolled entry at `k` may stay where it is. */
  predicate MayStay(t: seq<Entry>, k: nat, e: Entry)
    requires k < |t|
  {
    || Dist(e) == Dist(t[k])
    || (Dist(t[k]) == UNREACHABLE && (k == 0 || Dist(t[k - 1]) <= Dist(e)))
    || (Dist(e) == UNREACHABLE && (k + 1 == |t| || Dist(t[k + 1]) == UNREACHABLE))
  }

  lemma ReplacedSorted(t: seq<Entry>, k: nat, e: Entry)
    requires Sorted(t) && k < |t|
    ensures Sorted(t[k := e]) <==>
      (k == 0 || Dist(t[k - 1]) <= Dist(e)) && (k + 1 == |t| || Dist(e) <= Dist(t[k + 1]))
  {
    var s := t[k := e];
    if (k == 0 || Dist(t[k - 1]) <= Dist(e)) && (k + 1 == |t| || Dist(e) <= Dist(t[k + 1])) {
      forall i, j | 0 <= i < j < |t|
        ensures NotFarther(s, i, j)
      {
        assert NotFarther(t, i, j);
        assert j == k && i < k - 1 ==> NotFarther(t, i, k - 1);
        assert i == k && j > k + 1 ==> NotFarther(t, k + 1, j);
      }
    }
    if Sorted(s) {
      assert k > 0 ==> NotFarther(s, k - 1, k);
      assert k + 1 < |t| ==> NotFarther(s, k, k + 1);
    }
  }

  /** Rolling in a local PBE changes the distance only between UNREACHABLE and one other value. */
  lemma RollingDistance(e: Entry, local: real, bytes: Size)
    ensures var f := RolledEntry(e, local, bytes);
      Dist(f) == Dist(e) || Dist(e) == UNREACHABLE || Dist(f) == UNREACHABLE
    ensures (e.local == WORST_QUALITY <==> RolledEntry(e, local, bytes).local == WORST_QUALITY) ==>
      Dist(RolledEntry(e, local, bytes)) == Dist(e)
  {
  }

  /**
   * `routUpdateRollingLocalPBE` does not move the entry: the table stays sorted exactly if the
   * distance does not change, or the neighbours in the table happen to allow the change.
   */
  lemma RollingKeepsOrderExactly(t: seq<Entry>, ip: Ip, local: real, bytes: Size)
    requires Sorted(t) && Find(t, ip) < |t|
    ensures var k := Find(t, ip);
      Sorted(RolledIn(t, ip, local, bytes)) <==> MayStay(t, k, RolledEntry(t[k], local, bytes))
  {
    var k := Find(t, ip);
    var e := RolledEntry(t[k], local, bytes);
    RollingDistance(t[k], local, bytes);
    ReplacedSorted(t, k, e);
    assert k > 0 ==> NotFarther(t, k - 1, k);
    assert k + 1 < |t| ==> NotFarther(t, k, k + 1);
  }

  // ---------------------------------------------------------------- a map from neighbours to entries

  ghost predicate DistinctIps(t: seq<Entry>) {
    forall i, j | 0 <= i < j < |t| :: t[i].ip != t[j].ip
  }

  function Lookup(t: seq<Entry>, ip: Ip): Option<Entry> {
    if Find(t, ip) < |t| then Some(t[Find(t, ip)]) else None
  }

  ghost predicate Represents(t: seq<Entry>, m: map<Ip, Entry>) {
    DistinctIps(t) && forall ip: Ip :: Lookup(t, ip) == if ip in m then Some(m[ip]) else None
  }

  /** `s` is `t` with `e` put in at `k`, entry by entry. */
  ghost predicate Wider(t: seq<Entry>, s: seq<Entry>, k: nat, e: Entry) {
    && k <= |t| && |s| == |t| + 1 && s[k] == e
    && (forall i | 0 <= i < k :: s[i] == t[i])
    && (forall i | k < i < |s| :: s[i] == t[i - 1])
  }

  lemma PutIsWider(t: seq<Entry>, k: nat, e: Entry)
    requires k <= |t|
    ensures Wider(t, Inserted(t, k, e), k, e)
  {
  }

  lemma LookupWider(t: seq<Entry>, s: seq<Entry>, k: nat, e: Entry, ip: Ip)
    requires Wider(t, s, k, e) && Find(t, e.ip) == |t|
    ensures Lookup(s, ip) == if ip == e.ip then Some(e) else Lookup(t, ip)
  {
    var at := Find(t, ip);
    FindIs(s, ip, if ip == e.ip then k else if at < k then at else at + 1);
  }

  lemma LookupPut(t: seq<Entry>, k: nat, e: Entry, ip: Ip)
    requires k <= |t| && Find(t, e.ip) == |t|
    ensures Lookup(Inserted(t, k, e), ip) == if ip == e.ip then Some(e) else Lookup(t, ip)
  {
    PutIsWider(t, k, e);
    LookupWider(t, Inserted(t, k, e), k, e, ip);
  }

  lemma WiderDistinct(t: seq<Entry>, s: seq<Entry>, k: nat, e: Entry)
    requires Wider(t, s, k, e) && DistinctIps(t) && Find(t, e.ip) == |t|
    ensures DistinctIps(s)
  {
    forall i, j | 0 <= i < j < |s|
      ensures s[i].ip != s[j].ip
    {
      var x, y := if i < k then i else i - 1, if j < k then j else j - 1;
      assert i != k ==> s[i] == t[x];
      assert j != k ==> s[j] == t[y];
    }
  }

  lemma PutDistinct(t: seq<Entry>, k: nat, e: Entry)
    requires DistinctIps(t) && k <= |t| && Find(t, e.ip) == |t|
    ensures DistinctIps(Inserted(t, k, e))
  {
    PutIsWider(t, k, e);
    WiderDistinct(t, Inserted(t, k, e), k, e);
  }

  lemma LookupWithout(t: seq<Entry>, k: nat, ip: Ip)
    requires DistinctIps(t) && k < |t|
    ensures Lookup(Without(t, k), ip) == if ip == t[k].ip then None else Lookup(t, ip)
  {
    var s, at := Without(t, k), Find(t, ip);
    if ip == t[k].ip {
      FindIs(s, ip, |s|);
    } else {
      FindIs(s, ip, if at < k then at else at - 1);
    }
  }

  lemma WithoutDistinct(t: seq<Entry>, k: nat)
    requires DistinctIps(t) && k < |t|
    ensures DistinctIps(Without(t, k)) && Find(Without(t, k), t[k].ip) == |t| - 1
  {
    FindIs(Without(t, k), t[k].ip, |t| - 1);
  }

  lemma LookupReplaced(t: seq<Entry>, k: nat, e: Entry, ip: Ip)
    requires DistinctIps(t) && k < |t| && e.ip == t[k].ip
    ensures Lookup(t[k := e], ip) == if ip == e.ip then Some(e) else Lookup(t, ip)
  {
    FindIs(t[k := e], ip, Find(t, ip));
    if ip == e.ip {
      FindIs(t, ip, k);
    }
  }

  function MergedMap(m: map<Ip, Entry>, r: Report): Entry {
    if r.ip in m then Merged(m[r.ip], r) else Fresh(r)
  }

  lemma UpdateDistinct(t: seq<Entry>, r: Report)
    requires DistinctIps(t)
    ensures DistinctIps(Updated(t, r))
  {
    var k := Find(t, r.ip);
    if k == |t| {
      PutDistinct(t, Place(t, Dist(Fresh(r))), Fresh(r));
    } else {
      WithoutDistinct(t, k);
      PutDistinct(Without(t, k), Place(Without(t, k), Dist(Merged(t[k], r))), Merged(t[k], r));
    }
  }

  lemma UpdateLookup(t: seq<Entry>, r: Report, ip: Ip)
    requires DistinctIps(t)
    ensures var e := if Lookup(t, r.ip).Some? then Merged(Lookup(t, r.ip).value, r) else Fresh(r);
      Lookup(Updated(t, r), ip) == if ip == r.ip then Some(e) else Lookup(t, ip)
  {
    var k := Find(t, r.ip);
    if k == |t| {
      LookupPut(t, Place(t, Dist(Fresh(r))), Fresh(r), ip);
    } else {
      WithoutDistinct(t, k);
      LookupWithout(t, k, ip);
      LookupPut(Without(t, k), Place(Without(t, k), Dist(Merged(t[k], r))), Merged(t[k], r), ip);
    }
  }

  /** An update overwrites one neighbour with the merged entry, and leaves all others alone. */
  lemma UpdateRefines(t: seq<Entry>, m: map<Ip, Entry>, r: Report)
    requires Represents(t, m)
    ensures Represents(Updated(t, r), m[r.ip := MergedMap(m, r)])
  {
    assert Lookup(t, r.ip) == if r.ip in m then Some(m[r.ip]) else None;
    UpdateDistinct(t, r);
    forall ip: Ip
      ensures Lookup(Updated(t, r), ip) == if ip == r.ip then Some(MergedMap(m, r)) else Lookup(t, ip)
    {
      UpdateLookup(t, r, ip);
    }
  }

  lemma RemoveRefines(t: seq<Entry>, m: map<Ip, Entry>, ip: Ip)
    requires Represents(t, m)
    ensures Represents(Removed(t, ip), m - {ip})
  {
    var k := Find(t, ip);
    if k < |t| {
      WithoutDistinct(t, k);
    }
    forall other: Ip
      ensures Lookup(Removed(t, ip), other) == if other == ip then None else Lookup(t, other)
    {
      if k < |t| {
        LookupWithout(t, k, other);
      }
    }
  }

  lemma ReplaceRefines(t: seq<Entry>, m: map<Ip, Entry>, k: nat, e: Entry)
    requires Represents(t, m) && k < |t| && e.ip == t[k].ip
    ensures Represents(t[k := e], m[e.ip := e])
  {
    forall other: Ip
      ensures Lookup(t[k := e], other) == if other == e.ip then Some(e) else Lookup(t, other)
    {
      LookupReplaced(t, k, e, other);
    }
    assert DistinctIps(t[k := e]);
  }
}
