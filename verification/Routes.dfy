/** Choosing the next hop, and what the routing table goes through as packets arrive. */
module Routes {
  import opened Bytes
  import opened Distance
  import opened Routing

  // ---------------------------------------------------------------- the best hop

  /** `nextHopTimeout`: one waiting period, or two if the remote PBE is 1. */
  function Timeout(e: Entry): int {
    (e.remote + 1.0).Floor * ROUTE_LOSS_DELAY
  }

  predicate Stale(e: Entry, act: nat) {
    e.lastHeard + Timeout(e) < act
  }

  /** How many entries `getBestHop` removes from the head of the table. */
  function StaleHeads(t: seq<Entry>, act: nat): (k: nat)
    ensures k <= |t| && (k < |t| ==> !Stale(t[k], act))
    ensures forall i | 0 <= i < k :: Stale(t[i], act)
  {
    if t == [] || !Stale(t[0], act) then 0 else 1 + StaleHeads(t[1..], act)
  }

  function Pruned(t: seq<Entry>, act: nat): seq<Entry> {
    t[StaleHeads(t, act)..]
  }

  /** `NoHop` is a null pointer; so is `Restart`, but the node shuts down first. */
  datatype Hop = Via(ip: Ip) | NoHop | Restart

  function BestHop(t: seq<Entry>, act: nat): Hop {
    var p := Pruned(t, act);
    if p == [] then (if t == [] then NoHop else Restart)
    else if Dist(p[0]) == UNREACHABLE then NoHop
    else Via(p[0].ip)
  }

  /** A fresh neighbour that leads to the master. */
  predicate Usable(e: Entry, act: nat) {
    !Stale(e, act) && Dist(e) != UNREACHABLE
  }

  /** The next hop is a usable neighbour, and no usable neighbour is nearer. */
  lemma BestHopIsNearest(t: seq<Entry>, act: nat, ip: Ip)
    requires Sorted(t) && BestHop(t, act) == Via(ip)
    ensures exists e | e in t ::
      e.ip == ip && Usable(e, act) && forall f | f in t && Usable(f, act) :: Dist(e) <= Dist(f)
  {
    var k := StaleHeads(t, act);
    var e := t[k];
    forall f | f in t && Usable(f, act)
      ensures Dist(e) <= Dist(f)
    {
      var i :| 0 <= i < |t| && t[i] == f;
      assert i == k || NotFarther(t, k, i);
    }
    assert e in t && Usable(e, act);
  }

  /** There is a next hop exactly if some neighbour is usable. */
  lemma HopIffUsable(t: seq<Entry>, act: nat)
    requires Sorted(t)
    ensures BestHop(t, act).Via? <==> exists e | e in t :: Usable(e, act)
  {
    var k := StaleHeads(t, act);
    if e :| e in t && Usable(e, act) {
      var i :| 0 <= i < |t| && t[i] == e;
      assert i == k || NotFarther(t, k, i);
    }
    if BestHop(t, act).Via? {
      assert t[k] in t && Usable(t[k], act);
    }
  }

  /** Entry `i` is the first that is not stale. */
  ghost predicate FirstFresh(t: seq<Entry>, i: nat, act: nat) {
    i < |t| && !Stale(t[i], act) && forall j | 0 <= j < i :: Stale(t[j], act)
  }

  /** On any table, sorted or not, there is a next hop exactly if the first neighbour that is not stale is reachable. */
  lemma HopIffFirstFreshUsable(t: seq<Entry>, act: nat)
    ensures BestHop(t, act).Via? <==> exists i: nat :: FirstFresh(t, i, act) && Usable(t[i], act)
  {
    var k := StaleHeads(t, act);
    assert k < |t| ==> FirstFresh(t, k, act);
    forall i: nat | FirstFresh(t, i, act)
      ensures i == k
    {
      assert !(i < k) && !(k < i);
    }
  }

  /** The node restarts exactly if it had neighbours and has not heard any of them for too long. */
  lemma RestartIffAllStale(t: seq<Entry>, act: nat)
    ensures BestHop(t, act) == Restart <==> t != [] && forall e | e in t :: Stale(e, act)
  {
    var k := StaleHeads(t, act);
    if k < |t| {
      assert t[k] in t && !Stale(t[k], act);
    }
  }

  lemma RemoveHead(t: seq<Entry>)
    requires t != []
    ensures Removed(t, t[0].ip) == t[1..]
  {
    FindIs(t, t[0].ip, 0);
  }

  lemma PrunedSorted(t: seq<Entry>, act: nat)
    requires Sorted(t)
    ensures Sorted(Pruned(t, act))
  {
    var k, p := StaleHeads(t, act), Pruned(t, act);
    forall i, j | 0 <= i < j < |p|
      ensures NotFarther(p, i, j)
    {
      assert NotFarther(t, k + i, k + j);
    }
  }

  function Ips(t: seq<Entry>): set<Ip> {
    set e | e in t :: e.ip
  }

  /** Only stale entries are deleted. */
  lemma PruneRefines(t: seq<Entry>, m: map<Ip, Entry>, act: nat)
    requires Represents(t, m)
    ensures Represents(Pruned(t, act), m - Ips(t[..StaleHeads(t, act)]))
    ensures forall e | e in t && e !in Pruned(t, act) :: Stale(e, act)
  {
    var k, p := StaleHeads(t, act), Pruned(t, act);
    forall ip: Ip
      ensures Lookup(p, ip) == if ip in Ips(t[..k]) then None else Lookup(t, ip)
    {
      var at := Find(t, ip);
      if at < k {
        assert t[..k][at] in t[..k] && t[at].ip in Ips(t[..k]);
        FindIs(p, ip, |p|);
      } else {
        FindIs(p, ip, at - k);
      }
    }
    forall i | 0 <= i < |t|
      ensures t[i] in p || Stale(t[i], act)
    {
      if i >= k {
        assert p[i - k] == t[i];
      }
    }
  }

  // ---------------------------------------------------------------- the own distance

  /** `routGetEntryByPos`: the first entry is at 1, and whatever lies outside finds the last one or, at 0, nothing. */
  function EntryAt(t: seq<Entry>, pos: int): Option<Entry> {
    if t == [] || pos == 0 then None
    else if 1 <= pos <= |t| then Some(t[pos - 1])
    else Some(t[|t| - 1])
  }

  /** The walk along the list: the last entry passed when the position, or the end, is reached. */
  function Walk(t: seq<Entry>, pos: int, passed: Option<Entry>): Option<Entry> {
    if t == [] || pos == 0 then passed else Walk(t[1..], pos - 1, Some(t[0]))
  }

  lemma {:induction false} WalkBehind(t: seq<Entry>, pos: int, e: Entry)
    ensures Walk(t, pos, Some(e)) == EntryAt([e] + t, pos + 1) || pos == -1
    ensures pos == -1 ==> Walk(t, pos, Some(e)) == Some(([e] + t)[|t|])
    decreases |t|
  {
    if t != [] && pos != 0 {
      WalkBehind(t[1..], pos - 1, t[0]);
      assert [t[0]] + t[1..] == t;
    }
  }

  /** That is the entry at the position; it is the last one for every position that the walk does not meet. */
  lemma EntryAtIsWalk(t: seq<Entry>, pos: int)
    ensures EntryAt(t, pos) == Walk(t, pos, None)
  {
    if t != [] && pos != 0 {
      WalkBehind(t[1..], pos - 1, t[0]);
      assert [t[0]] + t[1..] == t;
    }
  }

  /** `myDistance`. */
  function MyDistance(isMaster: bool, t: seq<Entry>): Short {
    if isMaster then 0 else
    match EntryAt(t, 1)
    case None => UNREACHABLE
    case Some(e) => Dist(e)
  }

  /** A slave advertises the least of its neighbours' distances. */
  lemma MyDistanceIsLeast(t: seq<Entry>)
    requires Sorted(t)
    ensures forall e | e in t :: MyDistance(false, t) <= Dist(e)
    ensures if t == [] then MyDistance(false, t) == UNREACHABLE
      else exists e | e in t :: Dist(e) == MyDistance(false, t)
  {
    forall e | e in t
      ensures MyDistance(false, t) <= Dist(e)
    {
      var i :| 0 <= i < |t| && t[i] == e;
      assert i == 0 || NotFarther(t, 0, i);
    }
    if t != [] {
      assert t[0] in t;
    }
  }

  /** With acceptable loss towards it, the node that it routes through had advertised no greater distance. */
  lemma NeverBelowNextHop(t: seq<Entry>)
    requires t != [] && 0.0 <= t[0].remote * HIGHEST_LOSS_MAGNITUDE <= 1.0
    ensures t[0].distance <= MyDistance(false, t)
  {
    if t[0].local != WORST_QUALITY {
      GetDistanceIsHop(t[0].local, t[0].remote, t[0].distance);
      HopBounds(t[0].distance, t[0].remote * HIGHEST_LOSS_MAGNITUDE);
    }
  }
}
