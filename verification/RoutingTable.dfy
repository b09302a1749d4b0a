/** The routing table as the linked list that the code keeps. */
module RoutingTable {
  import opened Bytes
  import opened Chain
  import opened Distance
  import opened Routing
  import opened Routes
  import opened Sequences

  class Table {
    var begin: Cell?<Entry>
    var size: int
    ghost var cells: seq<Cell<Entry>>
    ghost var entries: seq<Entry>

    ghost predicate Valid()
      reads this, cells
    {
      Holds(begin, cells, entries) && size == |entries|
    }

    constructor ()
      ensures Valid() && entries == [] && fresh(cells)
    {
      begin, size, cells, entries := null, 0, [], [];
    }

    /** `routSearchByIp`. */
    method SearchByIp(ip: Ip) returns (found: Cell?<Entry>, prev: Cell?<Entry>, ghost k: nat)
      requires Valid()
      ensures k == Find(entries, ip)
      ensures found == if Find(entries, ip) < |cells| then cells[Find(entries, ip)] else null
      ensures prev == if Find(entries, ip) == 0 then null else cells[Find(entries, ip) - 1]
    {
      found, prev, k := begin, null, 0;
      while found != null && found.item.ip != ip
        invariant 0 <= k <= |cells| && found == (if k < |cells| then cells[k] else null)
        invariant prev == if k == 0 then null else cells[k - 1]
        invariant forall i | 0 <= i < k :: entries[i].ip != ip
        decreases |cells| - k
      {
        assert Linked(cells, k);
        prev, found := found, found.next;
        k := k + 1;
      }
      FindIs(entries, ip, k);
    }

    // ---------------------------------------------------------------- removing

    method UnlinkAt(cell: Cell<Entry>, prev: Cell?<Entry>, ghost k: nat)
      requires Valid() && k < |cells| && cell == cells[k]
      requires prev == if k == 0 then null else cells[k - 1]
      modifies this, prev
      ensures Valid() && entries == Without(old(entries), k) && cells == Without(old(cells), k)
    {
      var head := Unlink(begin, cell, prev, cells, entries, k);
      begin, size := head, size - 1;
      cells, entries := Without(cells, k), Without(entries, k);
    }

    /** `routRemoveEntry` says true only for an entry that it removed from the head. */
    method RemoveEntry(ip: Ip) returns (atHead: bool)
      requires Valid()
      modifies this, cells
      ensures Valid() && entries == Removed(old(entries), ip)
      ensures atHead <==> old(entries) != [] && old(entries)[0].ip == ip
      ensures var k := Find(old(entries), ip); cells == if k < |old(cells)| then Without(old(cells), k) else old(cells)
    {
      var found, prev;
      ghost var k;
      found, prev, k := SearchByIp(ip);
      atHead := found != null && prev == null;
      if found != null {
        UnlinkAt(found, prev, k);
      }
    }

    // ---------------------------------------------------------------- inserting

    /** The search for a place: a single entry is compared the other way round. */
    method FindPlace(d: Short) returns (prev: Cell?<Entry>, ghost k: nat)
      requires Valid()
      ensures k == Place(entries, d)
      ensures prev == if Place(entries, d) == 0 then null else cells[Place(entries, d) - 1]
    {
      prev, k := null, 0;
      if begin == null {
        return;
      }
      assert Linked(cells, 0);
      if begin.next == null {
        if Dist(begin.item) < d {
          prev, k := begin, 1;
        }
        return;
      }
      var aux := begin;
      while aux != null
        invariant 0 <= k <= |cells| && aux == (if k < |cells| then cells[k] else null)
        invariant prev == if k == 0 then null else cells[k - 1]
        invariant forall i | 0 <= i < k :: Dist(entries[i]) <= d
        decreases |cells| - k
      {
        if d < Dist(aux.item) {
          break;
        }
        assert Linked(cells, k);
        prev, aux := aux, aux.next;
        k := k + 1;
      }
      FartherIs(entries, d, k);
    }

    method Put(aux: Cell<Entry>, prev: Cell?<Entry>, ghost k: nat)
      requires Valid() && k <= |cells| && aux.next == null && forall i | 0 <= i < |cells| :: cells[i] != aux
      requires prev == if k == 0 then null else cells[k - 1]
      modifies this, prev, aux`next
      ensures Valid() && cells == Inserted(old(cells), k, aux) && entries == Inserted(old(entries), k, aux.item)
    {
      var head := LinkIn(begin, aux, prev, cells, entries, k);
      begin, size := head, size + 1;
      cells, entries := Inserted(cells, k, aux), Inserted(entries, k, aux.item);
    }

    method PutInOrder(e: Entry) returns (aux: Cell<Entry>)
      requires Valid()
      modifies this, cells
      ensures Valid() && fresh(aux) && aux.item == e && entries == Placed(old(entries), e)
      ensures forall i | 0 <= i < |cells| :: cells[i] in old(cells) || fresh(cells[i])
    {
      aux := new Cell(e);
      var prev;
      ghost var k;
      prev, k := FindPlace(Dist(e));
      InsertedElements(cells, k, aux);
      Put(aux, prev, k);
    }

    /** `routInsertOrUpdateEntry`: an update removes the entry and inserts another in its stead. */
    method InsertOrUpdate(r: Report) returns (aux: Cell<Entry>)
      requires Valid()
      modifies this, cells
      ensures Valid() && entries == Updated(old(entries), r) && fresh(aux) && aux.item.ip == r.ip
      ensures forall i | 0 <= i < |cells| :: cells[i] in old(cells) || fresh(cells[i])
    {
      var found, prev;
      ghost var k;
      found, prev, k := SearchByIp(r.ip);
      var e := Fresh(r);
      if found != null {
        e := Merged(found.item, r);
        UnlinkAt(found, prev, k);
        WithoutElements(old(cells), k);
      }
      aux := PutInOrder(e);
    }

    // ---------------------------------------------------------------- changing entries in place

    method Overwrite(cell: Cell<Entry>, e: Entry, ghost k: nat)
      requires Valid() && k < |cells| && cell == cells[k]
      modifies this`entries, cell`item
      ensures Valid() && entries == old(entries)[k := e]
    {
      DistinctFrom(cells, k);
      cell.item := e;
      entries := entries[k := e];
      assert forall i | 0 <= i < |cells| :: old(Linked(cells, i)) ==> Linked(cells, i);
    }

    method UpdateLastHeard(ip: Ip, act: nat)
      requires Valid()
      modifies this, cells
      ensures Valid() && entries == Heard(old(entries), ip, act) && cells == old(cells)
    {
      var found, prev;
      ghost var k;
      found, prev, k := SearchByIp(ip);
      if found != null {
        Overwrite(found, found.item.(lastHeard := act), k);
      }
    }

    method UpdateRollingLocalPbe(ip: Ip, pbe: real, bytes: Size)
      requires Valid()
      modifies this, cells
      ensures Valid() && entries == RolledIn(old(entries), ip, pbe, bytes) && cells == old(cells)
    {
      var found, prev;
      ghost var k;
      found, prev, k := SearchByIp(ip);
      if found != null {
        Overwrite(found, RolledEntry(found.item, pbe, bytes), k);
      }
    }

    // ---------------------------------------------------------------- reading

    method GetEntryByPos(pos: int) returns (store: Cell?<Entry>)
      requires Valid()
      ensures EntryAt(entries, pos) == if store == null then None else Some(store.item)
    {
      var current: Cell?<Entry> := begin;
      var i := 0;
      store := null;
      while current != null && i != pos
        invariant 0 <= i <= |cells| && current == (if i < |cells| then cells[i] else null)
        invariant store == if i == 0 then null else cells[i - 1]
        invariant pos >= 0 ==> i <= pos
        decreases |cells| - i
      {
        assert Linked(cells, i);
        store, current := current, current.next;
        i := i + 1;
      }
    }

    method MyDistance(isMaster: bool) returns (d: Short)
      requires Valid()
      ensures d == Routes.MyDistance(isMaster, entries)
    {
      if isMaster {
        return 0;
      }
      var first := GetEntryByPos(1);
      d := if first == null then UNREACHABLE else Dist(first.item);
    }

    /** `getBestHop`: removes stale entries from the head until the first one is fresh. */
    method GetBestHop(act: nat) returns (hop: Hop)
      requires Valid()
      modifies this, cells
      ensures Valid() && entries == Pruned(old(entries), act) && hop == BestHop(old(entries), act)
    {
      ghost var k := 0;
      var hadConnection := false;
      while begin != null && Stale(begin.item, act)
        invariant Valid() && k <= |old(cells)| && cells == old(cells)[k..] && entries == old(entries)[k..]
        invariant forall i | 0 <= i < k :: Stale(old(entries)[i], act)
        invariant hadConnection <==> k > 0
        decreases |entries|
      {
        hadConnection := true;
        UnlinkHead();
        k := k + 1;
      }
      StaleHeadsAre(old(entries), act, k);
      if hadConnection && begin == null {
        return Restart;
      }
      if begin == null || Dist(begin.item) == UNREACHABLE {
        return NoHop;
      }
      return Via(begin.item.ip);
    }

    /** `routRemoveEntry` with the address of the head. */
    method UnlinkHead()
      requires Valid() && begin != null
      modifies this, cells
      ensures Valid() && cells == old(cells)[1..] && entries == old(entries)[1..]
    {
      var removed := RemoveEntry(begin.item.ip);
      RemoveHead(old(entries));
      assert Find(old(entries), old(begin.item.ip)) == 0;
    }
  }

  lemma StaleHeadsAre(t: seq<Entry>, act: nat, k: nat)
    requires k <= |t| && (k < |t| ==> !Stale(t[k], act)) && forall i | 0 <= i < k :: Stale(t[i], act)
    ensures StaleHeads(t, act) == k
  {
  }
}
