/** What a routing entry holds, in terms of the packets heard: the weighted mean of the PBEs, and what was said last. */
module History {
  import opened Bytes
  import opened Distance
  import opened Routing
  import opened Routes
  import opened RoutingRuns

  // ---------------------------------------------------------------- what a packet says

  /** What a packet adds to the average: its PBE times its size, and its size. */
  datatype Sample = Sample(load: real, size: Size)

  /** A packet of the neighbour `ip` that says how well it is heard. */
  predicate IsSample(self: Ip, ip: Ip, p: Packet) {
    match p
    case Pb(sender, _, _, inside, _) => sender == ip != self && inside
    case Pr(sender, originator, _, _, _, _) => sender == ip && originator == self
    case Pc(sender, reached, _, _, _) => sender == ip && reached == self
    case Sd(sender, _, _, _, _) => sender == ip
    case Choose(_) => false
  }

  /** The size of a packet in bytes. */
  function SizeOf(p: Packet): Size
    requires !p.Choose?
  {
    match p case Pb(_, _, _, _, _) => 7 case Pr(_, _, _, _, _, _) => 13 case Pc(_, _, _, _, _) => 11
            case Sd(_, _, _, size, _) => size
  }

  function SampleOf(p: Packet): Sample
    requires !p.Choose?
  {
    Sample(p.pbe * SizeOf(p) as real, SizeOf(p))
  }

  function Samples(self: Ip, ip: Ip, ps: seq<Packet>): seq<Sample> {
    if ps == [] then []
    else (if IsSample(self, ip, ps[0]) then [SampleOf(ps[0])] else []) + Samples(self, ip, ps[1..])
  }

  function DistanceAfter(self: Ip, ip: Ip, p: Packet, d: Short): Short {
    if (p.Pb? || p.Pr?) && IsSample(self, ip, p) then p.distance else d
  }

  /** The distance that `ip` has said last; `d` before it says one. */
  function DistanceSaid(self: Ip, ip: Ip, ps: seq<Packet>, d: Short): Short {
    if ps == [] then d else DistanceSaid(self, ip, ps[1..], DistanceAfter(self, ip, ps[0], d))
  }

  function RemoteAfter(self: Ip, ip: Ip, p: Packet, r: real): real {
    if (p.Pr? || p.Pc?) && IsSample(self, ip, p) then p.remote else r
  }

  /** How well `ip` has last said that it hears this node. */
  function RemoteSaid(self: Ip, ip: Ip, ps: seq<Packet>, r: real): real {
    if ps == [] then r else RemoteSaid(self, ip, ps[1..], RemoteAfter(self, ip, ps[0], r))
  }

  function TimeAfter(self: Ip, ip: Ip, p: Packet, time: nat): nat {
    if IsHeard(self, ip, p) then p.act else time
  }

  /** When `ip` was heard last; any PB counts. */
  function TimeHeard(self: Ip, ip: Ip, ps: seq<Packet>, time: nat): nat {
    if ps == [] then time else TimeHeard(self, ip, ps[1..], TimeAfter(self, ip, ps[0], time))
  }

  predicate IsHeard(self: Ip, ip: Ip, p: Packet) {
    IsSample(self, ip, p) || (p.Pb? && p.sender == ip != self)
  }

  // ---------------------------------------------------------------- weights

  function Total(samples: seq<Sample>): nat {
    if samples == [] then 0 else samples[0].size + Total(samples[1..])
  }

  function Weighted(samples: seq<Sample>): real {
    if samples == [] then 0.0 else samples[0].load + Weighted(samples[1..])
  }

  /** `x` is the mean of a history of `bytes` bytes at PBE `before` and of `total` bytes more that weigh `load`. */
  ghost predicate IsMean(x: real, before: real, bytes: nat, total: nat, load: real) {
    if bytes + total == 0 then x == before else x * (bytes + total) as real == before * bytes as real + load
  }

  /** The counter does not run over before the last sample. */
  predicate RunsOverLast(bytes: nat, samples: seq<Sample>) {
    samples != [] ==> bytes + Total(samples) - samples[|samples| - 1].size <= 2560
  }

  lemma AverageIsMean(before: real, bytes: nat, pbe: real, size: Size)
    ensures Average(before, bytes, pbe, size) * (bytes + size) as real == before * bytes as real + pbe * size as real
  {
    var sum, n := before * bytes as real + pbe * size as real, (bytes + size) as real;
    assert (sum / n) * n == sum;
  }

  // ---------------------------------------------------------------- one packet

  /** The sample is averaged in, and counted. */
  ghost predicate Averaged(e: Entry, f: Entry, sample: Sample) {
    && f.local * (e.bytes + sample.size) as real == e.local * e.bytes as real + sample.load
    && f.bytes == if e.bytes + sample.size > 2560 then 256 else e.bytes + sample.size
  }

  /** The entry of `ip` after packet `p`. */
  function EntryAfter(self: Ip, ip: Ip, p: Packet, e: Entry): Entry {
    if IsSample(self, ip, p) then
      Entry(e.ip, DistanceAfter(self, ip, p, e.distance), Average(e.local, e.bytes, p.pbe, SizeOf(p)),
            RemoteAfter(self, ip, p, e.remote), p.act, Rolled(e.bytes, SizeOf(p)))
    else e.(lastHeard := TimeAfter(self, ip, p, e.lastHeard))
  }

  lemma PbEntry(s: State, self: Ip, p: Packet, ip: Ip)
    requires p.Pb? && ip in s.known
    ensures ip in After(s, self, p).known && After(s, self, p).known[ip] == EntryAfter(self, ip, p, s.known[ip])
  {
  }

  lemma SdEntry(s: State, self: Ip, p: Packet, ip: Ip)
    requires p.Sd? && ip in s.known
    ensures ip in After(s, self, p).known && After(s, self, p).known[ip] == EntryAfter(self, ip, p, s.known[ip])
  {
  }

  lemma AnswerEntry(s: State, self: Ip, p: Packet, ip: Ip)
    requires (p.Pr? || p.Pc?) && Receive(s.table, self, p).Some? && ip in s.known
    ensures ip in After(s, self, p).known && After(s, self, p).known[ip] == EntryAfter(self, ip, p, s.known[ip])
  {
  }

  lemma KnownEntry(s: State, self: Ip, p: Packet, ip: Ip)
    requires Receive(s.table, self, p).Some? && ip in s.known && ip in After(s, self, p).known
    ensures After(s, self, p).known[ip] == EntryAfter(self, ip, p, s.known[ip])
  {
    match p
    case Pb(_, _, _, _, _) => PbEntry(s, self, p, ip);
    case Sd(_, _, _, _, _) => SdEntry(s, self, p, ip);
    case Pr(_, _, _, _, _, _) => AnswerEntry(s, self, p, ip);
    case Pc(_, _, _, _, _) => AnswerEntry(s, self, p, ip);
    case Choose(_) =>
  }

  lemma AverageStep(e: Entry, f: Entry, pbe: real, size: Size)
    requires f.local == Average(e.local, e.bytes, pbe, size) && f.bytes == Rolled(e.bytes, size)
    ensures Averaged(e, f, Sample(pbe * size as real, size))
  {
    AverageIsMean(e.local, e.bytes, pbe, size);
  }

  lemma SampleAveraged(self: Ip, ip: Ip, p: Packet, e: Entry)
    requires IsSample(self, ip, p)
    ensures Averaged(e, EntryAfter(self, ip, p, e), SampleOf(p))
  {
    AverageStep(e, EntryAfter(self, ip, p, e), p.pbe, SizeOf(p));
  }

  /** What a packet does to the byte counter and the local PBE of `ip`. */
  lemma SampleStep(s: State, self: Ip, p: Packet, ip: Ip)
    requires Receive(s.table, self, p).Some? && ip in s.known && ip in After(s, self, p).known
    ensures var e, f := s.known[ip], After(s, self, p).known[ip];
      if IsSample(self, ip, p) then Averaged(e, f, SampleOf(p)) else f.local == e.local && f.bytes == e.bytes
  {
    KnownEntry(s, self, p, ip);
    if IsSample(self, ip, p) {
      SampleAveraged(self, ip, p, s.known[ip]);
    }
  }

  /** And to the rest of its entry. */
  lemma EntryStep(s: State, self: Ip, p: Packet, ip: Ip)
    requires Receive(s.table, self, p).Some? && ip in s.known && ip in After(s, self, p).known
    ensures var e, f := s.known[ip], After(s, self, p).known[ip];
      && f.distance == DistanceAfter(self, ip, p, e.distance)
      && f.remote == RemoteAfter(self, ip, p, e.remote)
      && f.lastHeard == TimeAfter(self, ip, p, e.lastHeard)
  {
    KnownEntry(s, self, p, ip);
  }

  /** What a neighbour that was not known begins with; a PC from one crashes the node. */
  lemma Introduced(s: State, self: Ip, p: Packet)
    requires Receive(s.table, self, p).Some? && Represents(s.table, s.known) && !p.Choose?
    requires p.sender !in s.known && p.sender in After(s, self, p).known
    ensures IsSample(self, p.sender, p) && !p.Pc?
    ensures After(s, self, p).known[p.sender]
      == Entry(p.sender, if p.Sd? then 65535 else p.distance, p.pbe, if p.Pr? then p.remote else 1.0,
               if p.Sd? then p.received else p.act, 0)
  {
    Finds(s.table, s.known, p.sender);
  }

  // ---------------------------------------------------------------- whole runs

  /** The neighbour is known throughout the run. */
  ghost predicate Keeps(s: State, self: Ip, ps: seq<Packet>, ip: Ip)
    requires Runs(s, self, ps)
    decreases |ps|
  {
    ip in s.known && (ps != [] ==> Keeps(After(s, self, ps[0]), self, ps[1..], ip))
  }

  /** Distance, remote PBE and time of an entry are what its neighbour said last. */
  lemma {:induction false} EntryIsWhatWasSaid(s: State, self: Ip, ps: seq<Packet>, ip: Ip)
    requires Runs(s, self, ps) && Keeps(s, self, ps, ip)
    ensures ip in End(s, self, ps).known
    ensures var e, f := s.known[ip], End(s, self, ps).known[ip];
      && f.distance == DistanceSaid(self, ip, ps, e.distance)
      && f.remote == RemoteSaid(self, ip, ps, e.remote)
      && f.lastHeard == TimeHeard(self, ip, ps, e.lastHeard)
    decreases |ps|
  {
    if ps != [] {
      EntryStep(s, self, ps[0], ip);
      EntryIsWhatWasSaid(After(s, self, ps[0]), self, ps[1..], ip);
    }
  }

  lemma SumsOf(first: Sample, rest: seq<Sample>)
    ensures Total([first] + rest) == first.size + Total(rest)
    ensures Weighted([first] + rest) == first.load + Weighted(rest)
  {
    assert ([first] + rest)[1..] == rest;
  }

  lemma FirstRunsOver(bytes: nat, first: Sample, rest: seq<Sample>)
    requires RunsOverLast(bytes, [first] + rest)
    ensures Total([first] + rest) == first.size + Total(rest)
    ensures rest != [] ==> bytes + first.size <= 2560 && RunsOverLast(bytes + first.size, rest)
  {
    var all := [first] + rest;
    assert all[1..] == rest;
    if rest != [] {
      assert all[|all| - 1] == rest[|rest| - 1];
      LastWithin(rest);
    }
  }

  lemma {:induction false} LastWithin(samples: seq<Sample>)
    requires samples != []
    ensures Total(samples) >= samples[|samples| - 1].size
  {
    if |samples| > 1 {
      LastWithin(samples[1..]);
    }
  }

  lemma {:induction false} NoSamples(s: State, self: Ip, ps: seq<Packet>, ip: Ip)
    requires Runs(s, self, ps) && Keeps(s, self, ps, ip) && Samples(self, ip, ps) == []
    ensures ip in End(s, self, ps).known
    ensures End(s, self, ps).known[ip].local == s.known[ip].local
    ensures End(s, self, ps).known[ip].bytes == s.known[ip].bytes
    decreases |ps|
  {
    if ps != [] {
      SampleStep(s, self, ps[0], ip);
      assert !IsSample(self, ip, ps[0]) && Samples(self, ip, ps[1..]) == [];
      NoSamples(After(s, self, ps[0]), self, ps[1..], ip);
    }
  }

  lemma MeansCompose(e: Entry, f: Entry, x: real, first: Sample, rest: seq<Sample>)
    requires Averaged(e, f, first) && f.bytes == e.bytes + first.size
    requires IsMean(x, f.local, f.bytes, Total(rest), Weighted(rest))
    ensures IsMean(x, e.local, e.bytes, Total([first] + rest), Weighted([first] + rest))
  {
    SumsOf(first, rest);
    assert f.bytes + Total(rest) == e.bytes + Total([first] + rest);
  }

  lemma MeanOfOne(e: Entry, f: Entry, first: Sample)
    requires Averaged(e, f, first)
    ensures IsMean(f.local, e.local, e.bytes, Total([first]), Weighted([first]))
  {
    SumsOf(first, []);
    assert [first] + [] == [first];
  }

  /** The entry `f` after the samples, in terms of the entry `e` before. */
  ghost predicate MeanOf(e: Entry, f: Entry, samples: seq<Sample>) {
    var n := e.bytes + Total(samples);
    && IsMean(f.local, e.local, e.bytes, Total(samples), Weighted(samples))
    && f.bytes == if samples == [] then e.bytes else if n > 2560 then 256 else n
  }

  lemma MeanLater(e: Entry, f: Entry, g: Entry, first: Sample, rest: seq<Sample>)
    requires RunsOverLast(e.bytes, [first] + rest) && Averaged(e, f, first)
    requires if rest == [] then g.local == f.local && g.bytes == f.bytes else MeanOf(f, g, rest)
    ensures MeanOf(e, g, [first] + rest)
  {
    SumsOf(first, rest);
    FirstRunsOver(e.bytes, first, rest);
    if rest == [] {
      MeanOfOne(e, f, first);
      assert [first] + rest == [first];
    } else {
      MeansCompose(e, f, g.local, first, rest);
    }
  }

  /**
   * The local PBE is the mean of all that was heard, weighed by size: over every run in which the
   * byte counter does not run over before the last sample, the local PBE times all bytes is what the
   * history weighs and what each sample weighs. The counter is the sum of the sizes; if it runs over
   * ROLLING_MAX, the history weighs ROLLING_RESTART bytes from then on.
   */
  lemma {:induction false} LocalIsMean(s: State, self: Ip, ps: seq<Packet>, ip: Ip)
    requires Runs(s, self, ps) && Keeps(s, self, ps, ip)
    requires RunsOverLast(s.known[ip].bytes, Samples(self, ip, ps))
    ensures ip in End(s, self, ps).known
    ensures MeanOf(s.known[ip], End(s, self, ps).known[ip], Samples(self, ip, ps))
    decreases |ps|
  {
    if ps != [] {
      var t, rest := After(s, self, ps[0]), Samples(self, ip, ps[1..]);
      SampleStep(s, self, ps[0], ip);
      if IsSample(self, ip, ps[0]) {
        var first := SampleOf(ps[0]);
        assert Samples(self, ip, ps) == [first] + rest;
        FirstRunsOver(s.known[ip].bytes, first, rest);
        if rest == [] {
          NoSamples(t, self, ps[1..], ip);
        } else {
          LocalIsMean(t, self, ps[1..], ip);
        }
        MeanLater(s.known[ip], t.known[ip], End(s, self, ps).known[ip], first, rest);
      } else {
        assert Samples(self, ip, ps) == rest;
        LocalIsMean(t, self, ps[1..], ip);
        SameBefore(s.known[ip], t.known[ip], End(s, self, ps).known[ip], rest);
      }
    }
  }

  lemma SameBefore(e: Entry, f: Entry, g: Entry, samples: seq<Sample>)
    requires f.local == e.local && f.bytes == e.bytes && MeanOf(f, g, samples)
    ensures MeanOf(e, g, samples)
  {
  }

  // ---------------------------------------------------------------- in any order

  lemma {:induction false} TakenOut(samples: seq<Sample>, j: nat)
    requires j < |samples|
    ensures Total(samples) == samples[j].size + Total(samples[..j] + samples[j + 1..])
    ensures Weighted(samples) == samples[j].load + Weighted(samples[..j] + samples[j + 1..])
    decreases j
  {
    var rest := samples[..j] + samples[j + 1..];
    if j == 0 {
      assert rest == samples[1..];
    } else {
      TakenOut(samples[1..], j - 1);
      assert rest[0] == samples[0] && rest[1..] == samples[1..][..j - 1] + samples[1..][j..];
    }
  }

  lemma LeftOver(samples: seq<Sample>, j: nat)
    requires j < |samples|
    ensures multiset(samples[..j] + samples[j + 1..]) == multiset(samples) - multiset{samples[j]}
  {
    assert samples == samples[..j] + [samples[j]] + samples[j + 1..];
  }

  lemma Matching(a: seq<Sample>, b: seq<Sample>) returns (j: nat)
    requires multiset(a) == multiset(b) && a != []
    ensures j < |b| && b[j] == a[0] && multiset(a[1..]) == multiset(b[..j] + b[j + 1..])
  {
    assert a[0] in multiset(b);
    j :| 0 <= j < |b| && b[j] == a[0];
    LeftOver(b, j);
    assert a == [a[0]] + a[1..];
  }

  lemma {:induction false} SumsInAnyOrder(a: seq<Sample>, b: seq<Sample>)
    requires multiset(a) == multiset(b)
    ensures Total(a) == Total(b) && Weighted(a) == Weighted(b)
    decreases |a|
  {
    assert |multiset(a)| == |a| && |multiset(b)| == |b|;
    if a != [] {
      var j := Matching(a, b);
      SumsInAnyOrder(a[1..], b[..j] + b[j + 1..]);
      TakenOut(b, j);
    }
  }

  lemma MeanIsUnique(x: real, y: real, before: real, bytes: nat, total: nat, load: real)
    requires IsMean(x, before, bytes, total, load) && IsMean(y, before, bytes, total, load)
    ensures x == y
  {
    if bytes + total != 0 {
      Divided(x, y, (bytes + total) as real, before * bytes as real + load);
    }
  }

  lemma Divided(x: real, y: real, n: real, k: real)
    requires x * n == k && y * n == k && n > 0.0
    ensures x == y
  {
  }

  /** The order in which the samples come does not matter. */
  lemma OrderDoesNotMatter(s: State, self: Ip, ps: seq<Packet>, qs: seq<Packet>, ip: Ip)
    requires Runs(s, self, ps) && Keeps(s, self, ps, ip) && Runs(s, self, qs) && Keeps(s, self, qs, ip)
    requires multiset(Samples(self, ip, ps)) == multiset(Samples(self, ip, qs))
    requires RunsOverLast(s.known[ip].bytes, Samples(self, ip, ps))
    requires RunsOverLast(s.known[ip].bytes, Samples(self, ip, qs))
    ensures ip in End(s, self, ps).known && ip in End(s, self, qs).known
    ensures End(s, self, ps).known[ip].local == End(s, self, qs).known[ip].local
    ensures End(s, self, ps).known[ip].bytes == End(s, self, qs).known[ip].bytes
  {
    var a, b := Samples(self, ip, ps), Samples(self, ip, qs);
    LocalIsMean(s, self, ps, ip);
    LocalIsMean(s, self, qs, ip);
    SumsInAnyOrder(a, b);
    assert |multiset(a)| == |multiset(b)|;
    MeanIsUnique(End(s, self, ps).known[ip].local, End(s, self, qs).known[ip].local,
                 s.known[ip].local, s.known[ip].bytes, Total(a), Weighted(a));
  }

  // ---------------------------------------------------------------- the worst quality

  lemma Share(a: real, n: real) returns (p: real)
    requires 0.0 <= a <= 1.0 && n >= 0.0
    ensures p == a * n && 0.0 <= p <= n && (p == n <==> a == 1.0 || n == 0.0)
  {
    p := a * n;
  }

  lemma Quotient(x: real, n: real, k: real)
    requires x * n == k && n > 0.0 && 0.0 <= k <= n
    ensures 0.0 <= x <= 1.0 && (x == 1.0 <==> k == n)
  {
  }

  /** A mean of values up to 1 is 1 only if all that weighs anything is. */
  lemma MeanIsOne(x: real, a: real, n: real, b: real, m: real)
    requires n >= 0.0 && m > 0.0 && 0.0 <= a <= 1.0 && 0.0 <= b <= 1.0 && x * (n + m) == a * n + b * m
    ensures x == 1.0 <==> b == 1.0 && (n == 0.0 || a == 1.0)
    ensures 0.0 <= x <= 1.0
  {
    var p := Share(a, n);
    var q := Share(b, m);
    Quotient(x, n + m, p + q);
  }

  lemma WorstAverage(e: Entry, f: Entry, pbe: real, size: Size)
    requires f.local == Average(e.local, e.bytes, pbe, size) && f.bytes == Rolled(e.bytes, size)
    requires 0.0 <= pbe <= 1.0 && 0.0 <= e.local <= 1.0
    ensures f.local == 1.0 <==> pbe == 1.0 && (e.bytes == 0 || e.local == 1.0)
    ensures 0.0 <= f.local <= 1.0 && f.bytes > 0
  {
    AverageIsMean(e.local, e.bytes, pbe, size);
    assert (e.bytes + size) as real == e.bytes as real + size as real;
    MeanIsOne(f.local, e.local, e.bytes as real, pbe, size as real);
  }

  /**
   * One packet makes a neighbour's local PBE the worst exactly if it is heard at the worst PBE itself
   * and nothing better weighs against it.
   */
  lemma WorstExactly(s: State, self: Ip, p: Packet, ip: Ip)
    requires Receive(s.table, self, p).Some? && ip in s.known && ip in After(s, self, p).known
    requires IsSample(self, ip, p) && 0.0 <= p.pbe <= 1.0 && 0.0 <= s.known[ip].local <= 1.0
    ensures var e, f := s.known[ip], After(s, self, p).known[ip];
      && (f.local == 1.0 <==> p.pbe == 1.0 && (e.bytes == 0 || e.local == 1.0))
      && 0.0 <= f.local <= 1.0 && f.bytes > 0
  {
    KnownEntry(s, self, p, ip);
    WorstAverage(s.known[ip], After(s, self, p).known[ip], p.pbe, SizeOf(p));
  }

  /** PBEs are between 0 and 1. */
  ghost predicate Fair(ps: seq<Packet>) {
    forall i | 0 <= i < |ps| :: FairPacket(ps[i])
  }

  predicate FairPacket(p: Packet) {
    !p.Choose? ==> 0.0 <= p.pbe <= 1.0 && (p.Pr? || p.Pc? ==> 0.0 <= p.remote <= 1.0)
  }

  /** So once something better has been heard of a neighbour, no loss makes it the worst again, over any run. */
  lemma {:induction false} NeverWorstAgain(s: State, self: Ip, ps: seq<Packet>, ip: Ip)
    requires Runs(s, self, ps) && Keeps(s, self, ps, ip) && Fair(ps)
    requires s.known[ip].bytes > 0 && 0.0 <= s.known[ip].local < 1.0
    ensures ip in End(s, self, ps).known && 0.0 <= End(s, self, ps).known[ip].local < 1.0
    decreases |ps|
  {
    if ps != [] {
      assert FairPacket(ps[0]);
      if IsSample(self, ip, ps[0]) {
        WorstExactly(s, self, ps[0], ip);
      } else {
        SampleStep(s, self, ps[0], ip);
      }
      NeverWorstAgain(After(s, self, ps[0]), self, ps[1..], ip);
    }
  }

  // ---------------------------------------------------------------- how old a next hop may be

  /** The entry's time is that of a packet of its neighbour among `past`. */
  ghost predicate Backed(m: map<Ip, Entry>, past: seq<Packet>) {
    forall ip | ip in m :: BackedEntry(m[ip], ip, past)
  }

  ghost predicate BackedEntry(e: Entry, ip: Ip, past: seq<Packet>) {
    0.0 <= e.remote <= 1.0 && exists i | 0 <= i < |past| :: IsTimeOf(past[i], ip, e.lastHeard)
  }

  /** A packet of `ip`, heard at `time`. */
  predicate IsTimeOf(p: Packet, ip: Ip, time: nat) {
    !p.Choose? && p.sender == ip && (p.act == time || (p.Sd? && p.received == time))
  }

  lemma StillBacked(e: Entry, f: Entry, ip: Ip, past: seq<Packet>, p: Packet)
    requires BackedEntry(e, ip, past) && 0.0 <= f.remote <= 1.0
    requires f.lastHeard == e.lastHeard || IsTimeOf(p, ip, f.lastHeard)
    ensures BackedEntry(f, ip, past + [p])
  {
    var all := past + [p];
    var i :| 0 <= i < |past| && IsTimeOf(past[i], ip, e.lastHeard);
    assert all[i] == past[i] && all[|past|] == p;
  }

  lemma NewlyBacked(f: Entry, ip: Ip, past: seq<Packet>, p: Packet)
    requires 0.0 <= f.remote <= 1.0 && IsTimeOf(p, ip, f.lastHeard)
    ensures BackedEntry(f, ip, past + [p])
  {
    var all := past + [p];
    assert all[|past|] == p;
  }

  lemma OnlySenderIntroduced(s: State, self: Ip, p: Packet, ip: Ip)
    requires Receive(s.table, self, p).Some? && ip !in s.known && ip in After(s, self, p).known
    ensures !p.Choose? && p.sender == ip
  {
  }

  lemma StepBacked(s: State, self: Ip, past: seq<Packet>, p: Packet)
    requires Represents(s.table, s.known) && Backed(s.known, past)
    requires Receive(s.table, self, p).Some? && FairPacket(p)
    ensures Backed(After(s, self, p).known, past + [p])
  {
    var t := After(s, self, p);
    forall ip | ip in t.known
      ensures BackedEntry(t.known[ip], ip, past + [p])
    {
      if ip in s.known {
        EntryStep(s, self, p, ip);
        assert BackedEntry(s.known[ip], ip, past);
        StillBacked(s.known[ip], t.known[ip], ip, past, p);
      } else {
        OnlySenderIntroduced(s, self, p, ip);
        Introduced(s, self, p);
        NewlyBacked(t.known[ip], ip, past, p);
      }
    }
  }

  lemma {:induction false} RunBacked(s: State, self: Ip, past: seq<Packet>, ps: seq<Packet>)
    requires Represents(s.table, s.known) && Backed(s.known, past) && Runs(s, self, ps) && Fair(ps)
    ensures Backed(End(s, self, ps).known, past + ps)
    decreases |ps|
  {
    if ps == [] {
      assert past + ps == past;
    } else {
      assert FairPacket(ps[0]);
      StepBacked(s, self, past, ps[0]);
      PacketRefines(s.table, s.known, self, ps[0]);
      RunBacked(After(s, self, ps[0]), self, past + [ps[0]], ps[1..]);
      assert past + [ps[0]] + ps[1..] == past + ps;
    }
  }

  /** A neighbour that has answered is dropped exactly when it has not been heard for more than thirty seconds. */
  lemma DroppedAfter(e: Entry, act: nat)
    requires 0.0 <= e.remote < 1.0
    ensures Stale(e, act) <==> act > e.lastHeard + 30_000_000_000
  {
  }

  /** In every run a node routes only through a neighbour from which it has a packet at most thirty seconds old. */
  lemma NextHopHeardLately(self: Ip, ps: seq<Packet>, act: nat, ip: Ip)
    requires Runs(START, self, ps) && Fair(ps) && BestHop(End(START, self, ps).table, act) == Via(ip)
    ensures exists i, time: nat ::
      0 <= i < |ps| && IsTimeOf(ps[i], ip, time) && act <= time + 30_000_000_000
  {
    var end := End(START, self, ps);
    RunBacked(START, self, [], ps);
    assert [] + ps == ps;
    TableRefinesMap(self, ps);
    var k := StaleHeads(end.table, act);
    FindIs(end.table, ip, k);
    Finds(end.table, end.known, ip);
    assert BackedEntry(end.known[ip], ip, ps);
    DroppedAfter(end.table[k], act);
  }
}
