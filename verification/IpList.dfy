/** Lists of addresses without duplicates: SubSlaves, OutsideSlaves and OutsidePending. */
module IpList {
  import opened Bytes
  import opened Chain
  import opened Sequences
  import TbFormat

  // ---------------------------------------------------------------- the list as a sequence

  /** `insertIPList`: new addresses go to the head. */
  function Listed(s: seq<Ip>, ip: Ip): seq<Ip> {
    if ip in s then s else [ip] + s
  }

  /** `removeIPList`, if nothing comes between finding the address and removing it. */
  function Delisted(s: seq<Ip>, ip: Ip): seq<Ip> {
    if ip in s then Without(s, TbFormat.First(s, ip)) else s
  }

  function SetOf(s: seq<Ip>): set<Ip> {
    set ip | ip in s
  }

  lemma DelistedSet(s: seq<Ip>, ip: Ip)
    requires TbFormat.Distinct(s)
    ensures TbFormat.Distinct(Delisted(s, ip)) && SetOf(Delisted(s, ip)) == SetOf(s) - {ip}
  {
    var t, k := Delisted(s, ip), TbFormat.First(s, ip);
    if k >= 0 {
      assert forall i | 0 <= i < |t| :: t[i] == if i < k then s[i] else s[i + 1];
      forall other | other in s && other != ip
        ensures other in t
      {
        var i :| 0 <= i < |s| && s[i] == other;
        assert t[if i < k then i else i - 1] == other;
      }
    }
  }

  lemma ListedSet(s: seq<Ip>, ip: Ip)
    requires TbFormat.Distinct(s)
    ensures TbFormat.Distinct(Listed(s, ip)) && SetOf(Listed(s, ip)) == SetOf(s) + {ip}
  {
    assert ip !in s ==> Listed(s, ip)[0] == ip && Listed(s, ip)[1..] == s;
  }

  datatype Change = Insert(ip: Ip) | Remove(ip: Ip)

  function ListAfter(changes: seq<Change>): seq<Ip> {
    if changes == [] then [] else
      var before := ListAfter(changes[..|changes| - 1]);
      match changes[|changes| - 1]
      case Insert(ip) => Listed(before, ip)
      case Remove(ip) => Delisted(before, ip)
  }

  function SetAfter(changes: seq<Change>): set<Ip> {
    if changes == [] then {} else
      var before := SetAfter(changes[..|changes| - 1]);
      match changes[|changes| - 1]
      case Insert(ip) => before + {ip}
      case Remove(ip) => before - {ip}
  }

  /** Over every run the list is a set with positions: the right members, each of them once. */
  lemma {:induction false} ListIsSet(changes: seq<Change>)
    ensures TbFormat.Distinct(ListAfter(changes)) && SetOf(ListAfter(changes)) == SetAfter(changes)
  {
    if changes != [] {
      var before := changes[..|changes| - 1];
      ListIsSet(before);
      match changes[|changes| - 1] {
        case Insert(ip) => ListedSet(ListAfter(before), ip);
        case Remove(ip) => DelistedSet(ListAfter(before), ip);
      }
    }
  }

  /**
   * `removeIPList` drops the lock between finding the position of `ip` and removing what is there.
   * If another thread inserts `other` in between, the right address goes exactly if `other` was
   * listed already; otherwise the list has shifted by one.
   */
  lemma RemovalRace(s: seq<Ip>, ip: Ip, other: Ip)
    requires ip in s
    ensures Without(Listed(s, other), TbFormat.First(s, ip)) == Delisted(Listed(s, other), ip) <==> other in s
  {
    if other !in s {
      var t, k := Listed(s, other), TbFormat.First(s, ip);
      assert t == [other] + s && t[..k + 1] == [other] + s[..k];
      TbFormat.FirstIs(t, ip, k + 1);
      assert Without(t, k)[k] == ip;
      assert Delisted(t, ip)[k] == t[k];
      assert t[k] != ip;
    }
  }

  /** The smallest case: in a list of one, the address put in goes, and the one to be removed stays. */
  lemma RemovalTakesTheOther(ip: Ip, other: Ip)
    requires ip != other
    ensures Without(Listed([ip], other), TbFormat.First([ip], ip)) == [ip]
  {
    TbFormat.FirstIs([ip], ip, 0);
    assert Listed([ip], other) == [other, ip] && Without([other, ip], 0) == [ip];
  }

  // ---------------------------------------------------------------- the linked list

  /** What an operation with a position finds. */
  datatype Lookup = Null | At(ip: Ip) | Crash

  class AddressList {
    var first: Cell?<Ip>
    var size: int
    ghost var cells: seq<Cell<Ip>>
    ghost var ips: seq<Ip>

    ghost predicate Valid()
      reads this, cells
    {
      Holds(first, cells, ips) && size == |ips|
    }

    constructor ()
      ensures Valid() && ips == [] && fresh(cells)
    {
      first, size, cells, ips := null, 0, [], [];
    }

    /** The loop that insertion, removal and the membership test share. */
    method Find(ip: Ip) returns (found: Cell?<Ip>, prev: Cell?<Ip>, k: nat)
      requires Valid()
      ensures k <= |cells| && found == (if k < |cells| then cells[k] else null)
      ensures if found == null then ip !in ips else k == TbFormat.First(ips, ip)
      ensures prev == if k == 0 then null else cells[k - 1]
    {
      found, prev, k := first, null, 0;
      while found != null && found.item != ip
        invariant 0 <= k <= |cells| && found == (if k < |cells| then cells[k] else null)
        invariant prev == if k == 0 then null else cells[k - 1]
        invariant forall i | 0 <= i < k :: ips[i] != ip
        decreases |cells| - k
      {
        assert Linked(cells, k);
        prev, found := found, found.next;
        k := k + 1;
      }
      if found != null {
        TbFormat.FirstIs(ips, ip, k);
      }
    }

    method Contains(ip: Ip) returns (listed: bool)
      requires Valid()
      ensures listed <==> ip in ips
    {
      var found, _, _ := Find(ip);
      listed := found != null;
    }

    method Insert(ip: Ip)
      requires Valid()
      modifies this
      ensures Valid() && ips == Listed(old(ips), ip)
      ensures forall i | 0 <= i < |cells| :: cells[i] in old(cells) || fresh(cells[i])
    {
      var found, _, _ := Find(ip);
      if found == null {
        var el := new Cell(ip);
        PutFirst(el);
      }
    }

    method PutFirst(el: Cell<Ip>)
      requires Valid() && el.next == null && forall i | 0 <= i < |cells| :: cells[i] != el
      modifies this, el`next
      ensures Valid() && ips == [el.item] + old(ips) && cells == [el] + old(cells)
    {
      var head := LinkIn(first, el, null, cells, ips, 0);
      assert Inserted(cells, 0, el) == [el] + cells && Inserted(ips, 0, el.item) == [el.item] + ips;
      first, size := head, size + 1;
      cells, ips := [el] + cells, [el.item] + ips;
    }

    method Remove(ip: Ip)
      requires Valid()
      modifies this, cells
      ensures Valid() && ips == Delisted(old(ips), ip)
      ensures forall i | 0 <= i < |cells| :: cells[i] in old(cells)
    {
      var found, _, k := Find(ip);
      if found != null {
        var removed := RemoveFromList(k);
      }
    }

    method UnlinkAt(cell: Cell<Ip>, prev: Cell?<Ip>, ghost k: nat)
      requires Valid() && k < |cells| && cell == cells[k]
      requires prev == if k == 0 then null else cells[k - 1]
      modifies this, prev
      ensures Valid() && ips == Without(old(ips), k) && cells == Without(old(cells), k)
    {
      var head := Unlink(first, cell, prev, cells, ips, k);
      first, size := head, size - 1;
      cells, ips := Without(cells, k), Without(ips, k);
    }

    /** The walk over `n` cells from the first. */
    method CellAt(n: nat) returns (helper: Cell<Ip>)
      requires Valid() && n < |cells|
      ensures helper == cells[n]
    {
      helper := first;
      for i := 0 to n
        invariant helper == cells[i]
      {
        assert Linked(cells, i);
        helper := helper.next;
      }
    }

    /**
     * `removeFromList`: a negative position removes the second element, and follows a null pointer
     * if there is none.
     */
    method RemoveFromList(position: int) returns (r: Lookup)
      requires Valid()
      modifies this, cells
      ensures Valid() && (forall i | 0 <= i < |cells| :: cells[i] in old(cells))
      ensures var k := if position < 0 then 1 else position;
        if old(ips) == [] || position >= |old(ips)| then r == Null && ips == old(ips)
        else if k >= |old(ips)| then r == Crash && ips == old(ips)
        else r == At(old(ips)[k]) && ips == Without(old(ips), k)
    {
      if size == 0 || position >= size {
        return Null;
      }
      var prev: Cell?<Ip> := null;
      var toFree := first;
      ghost var k := 0;
      if position != 0 {
        k := if position < 0 then 1 else position;
        prev := CellAt(if position < 0 then 0 else position - 1);
        assert Linked(cells, k - 1);
        toFree := prev.next;
        if toFree == null {
          return Crash;
        }
      }
      r := At(toFree.item);
      WithoutElements(cells, k);
      UnlinkAt(toFree, prev, k);
    }

    /** `getIPFromList` with a position: one past the last is let through, and follows a null pointer. */
    method GetAt(position: int) returns (r: Lookup)
      requires Valid()
      ensures r == if 0 <= position < |ips| then At(ips[position]) else if position == |ips| then Crash else Null
    {
      if position < 0 || position > size {
        return Null;
      }
      var helper := first;
      for i := 0 to position
        invariant helper == if i < |cells| then cells[i] else null
      {
        assert Linked(cells, i);
        helper := helper.next;
      }
      r := if helper == null then Crash else At(helper.item);
    }
  }
}
