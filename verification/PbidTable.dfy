/** The table of IP-PBID pairs: a linked list whose empty form is one cell holding zeros. */
module PbidTable {
  import opened Bytes

  /** The two PBID bytes are read as a signed short, as the callers do. */
  datatype Pair = Pair(ip: Ip, pbid: int)

  const NO_PAIR := Pair(Ip(0, 0), 0)

  // ---------------------------------------------------------------- the list of pairs

  /** The position of the first pair for `ip`, or the length of the list. */
  function Find(s: seq<Pair>, ip: Ip): (k: nat)
    ensures k <= |s| && (k < |s| ==> s[k].ip == ip)
    ensures forall i | 0 <= i < k :: s[i].ip != ip
  {
    if s == [] || s[0].ip == ip then 0 else 1 + Find(s[1..], ip)
  }

  lemma FindIs(s: seq<Pair>, ip: Ip, k: nat)
    requires k <= |s| && (k < |s| ==> s[k].ip == ip) && forall i | 0 <= i < k :: s[i].ip != ip
    ensures Find(s, ip) == k
  {
  }

  /** `pbidInsertPair`. */
  function Inserted(s: seq<Pair>, ip: Ip, pbid: int): seq<Pair>
    requires s != []
  {
    if s[0] == NO_PAIR then s[0 := Pair(ip, pbid)]
    else if Find(s, ip) < |s| then s[Find(s, ip) := Pair(ip, pbid)]
    else s + [Pair(ip, pbid)]
  }

  /** `pbidRemovePair`: the only pair is zeroed, any other is unlinked. */
  function Removed(s: seq<Pair>, ip: Ip): seq<Pair>
    requires s != []
  {
    var k := Find(s, ip);
    if k == |s| then s
    else if |s| == 1 then [NO_PAIR]
    else s[..k] + s[k + 1..]
  }

  /** `pbidSearchIP`, as the PBID it finds. */
  function SearchIp(s: seq<Pair>, ip: Ip): Option<int>
    requires s != []
  {
    if s[0] == NO_PAIR || Find(s, ip) == |s| then None else Some(s[Find(s, ip)].pbid)
  }

  /** `pbidSearchPair`. */
  predicate SearchPair(s: seq<Pair>, ip: Ip, pbid: int)
    requires s != []
  {
    s[0] != NO_PAIR && Pair(ip, pbid) in s
  }

  // ---------------------------------------------------------------- a map from addresses to PBIDs

  /** One pair for each address; the pair of zeros stands only for the empty table. */
  ghost predicate Good(s: seq<Pair>) {
    s == [NO_PAIR] || (s != [] && NO_PAIR !in s && forall i, j | 0 <= i < j < |s| :: s[i].ip != s[j].ip)
  }

  ghost predicate Represents(s: seq<Pair>, m: map<Ip, int>) {
    Good(s) && forall ip: Ip :: SearchIp(s, ip) == if ip in m then Some(m[ip]) else None
  }

  lemma EmptyRepresents()
    ensures Represents([NO_PAIR], map[])
  {
  }

  lemma InsertStaysGood(s: seq<Pair>, ip: Ip, pbid: int)
    requires Good(s) && Pair(ip, pbid) != NO_PAIR
    ensures Good(Inserted(s, ip, pbid)) && Inserted(s, ip, pbid) != [NO_PAIR]
  {
    var t := Inserted(s, ip, pbid);
    assert t[0] != NO_PAIR;
  }

  /** Inserting overwrites: afterwards `ip` is found with the new PBID, and every other address as before. */
  lemma InsertRefines(s: seq<Pair>, m: map<Ip, int>, ip: Ip, pbid: int)
    requires Represents(s, m) && Pair(ip, pbid) != NO_PAIR
    ensures Represents(Inserted(s, ip, pbid), m[ip := pbid])
  {
    var t := Inserted(s, ip, pbid);
    InsertStaysGood(s, ip, pbid);
    forall other: Ip
      ensures SearchIp(t, other) == if other == ip then Some(pbid) else SearchIp(s, other)
    {
      if s[0] == NO_PAIR {
        FindIs(t, other, if other == ip then 0 else 1);
      } else if other == ip {
        FindIs(t, ip, Find(s, ip));
      } else if Find(s, other) < |s| {
        FindIs(t, other, Find(s, other));
      } else {
        FindIs(t, other, |t|);
      }
    }
  }

  /**
   * The pair of zeros is the one insertion that goes wrong: the table then looks empty, or will
   * look empty as soon as the pairs before that one are gone.
   */
  lemma InsertRefinesExactly(s: seq<Pair>, m: map<Ip, int>, ip: Ip, pbid: int)
    requires Represents(s, m)
    ensures Represents(Inserted(s, ip, pbid), m[ip := pbid]) <==> Pair(ip, pbid) != NO_PAIR
  {
    if Pair(ip, pbid) != NO_PAIR {
      InsertRefines(s, m, ip, pbid);
    } else {
      var t := Inserted(s, ip, pbid);
      assert NO_PAIR in t by {
        assert t[if s[0] == NO_PAIR then 0 else Find(s, ip)] == NO_PAIR;
      }
      if t == [NO_PAIR] {
        assert SearchIp(t, ip) == None;
      }
    }
  }

  /** Two pairs in the table, and both are out of sight after the pair of zeros has been inserted. */
  lemma ZeroPairHidesTheTable()
    ensures var s := Inserted(Inserted([NO_PAIR], Ip(0, 0), 5), Ip(1, 1), 7);
      && SearchIp(s, Ip(1, 1)) == Some(7)
      && forall ip: Ip :: SearchIp(Inserted(s, Ip(0, 0), 0), ip) == None
  {
    var s := Inserted([NO_PAIR], Ip(0, 0), 5);
    assert s == [Pair(Ip(0, 0), 5)];
    FindIs(s, Ip(1, 1), 1);
    var t := Inserted(s, Ip(1, 1), 7);
    assert t == [Pair(Ip(0, 0), 5), Pair(Ip(1, 1), 7)];
    FindIs(t, Ip(1, 1), 1);
    FindIs(t, Ip(0, 0), 0);
    assert Inserted(t, Ip(0, 0), 0)[0] == NO_PAIR;
  }

  /** Where an address is found after the pair at `k` is gone. */
  lemma FindWithout(s: seq<Pair>, k: nat, other: Ip)
    requires k < |s| && forall i, j | 0 <= i < j < |s| :: s[i].ip != s[j].ip
    ensures var t := s[..k] + s[k + 1..];
      Find(t, other) ==
        if other == s[k].ip then |t| else if Find(s, other) < k then Find(s, other) else Find(s, other) - 1
  {
    var t := s[..k] + s[k + 1..];
    assert forall i | 0 <= i < |t| :: t[i] == if i < k then s[i] else s[i + 1];
    var at := Find(s, other);
    FindIs(t, other, if other == s[k].ip then |t| else if at < k then at else at - 1);
  }

  lemma RemoveStaysGood(s: seq<Pair>, ip: Ip)
    requires Good(s)
    ensures Good(Removed(s, ip))
  {
    var t, k := Removed(s, ip), Find(s, ip);
    if k < |s| && |s| > 1 {
      assert forall i | 0 <= i < |t| :: t[i] == if i < k then s[i] else s[i + 1];
    }
  }

  lemma SearchAfterRemove(s: seq<Pair>, ip: Ip, other: Ip)
    requires Good(s)
    ensures SearchIp(Removed(s, ip), other) == if other == ip then None else SearchIp(s, other)
  {
    var k := Find(s, ip);
    if k < |s| && |s| > 1 {
      FindWithout(s, k, other);
      assert Removed(s, ip)[0] in s;
    }
  }

  /** Removing deletes: afterwards `ip` is not found, and every other address as before. */
  lemma RemoveRefines(s: seq<Pair>, m: map<Ip, int>, ip: Ip)
    requires Represents(s, m)
    ensures Represents(Removed(s, ip), m - {ip})
  {
    RemoveStaysGood(s, ip);
    forall other: Ip
      ensures SearchIp(Removed(s, ip), other) == if other == ip then None else SearchIp(s, other)
    {
      SearchAfterRemove(s, ip, other);
    }
  }

  /** The pair search agrees with the address search. */
  lemma PairSearchAgrees(s: seq<Pair>, m: map<Ip, int>, ip: Ip, pbid: int)
    requires Represents(s, m)
    ensures SearchPair(s, ip, pbid) <==> ip in m && m[ip] == pbid
  {
    if SearchPair(s, ip, pbid) {
      var k :| 0 <= k < |s| && s[k] == Pair(ip, pbid);
      FindIs(s, ip, k);
    }
    assert SearchIp(s, ip) == if ip in m then Some(m[ip]) else None;
  }

  datatype Operation = Insert(ip: Ip, pbid: int) | Remove(ip: Ip) | Clear

  function OnTable(s: seq<Pair>, op: Operation): (t: seq<Pair>)
    requires s != []
    ensures t != []
  {
    match op
    case Insert(ip, pbid) => Inserted(s, ip, pbid)
    case Remove(ip) => Removed(s, ip)
    case Clear => [NO_PAIR]
  }

  function OnMap(m: map<Ip, int>, op: Operation): map<Ip, int> {
    match op
    case Insert(ip, pbid) => m[ip := pbid]
    case Remove(ip) => m - {ip}
    case Clear => map[]
  }

  function TableAfter(ops: seq<Operation>): (s: seq<Pair>)
    ensures s != []
  {
    if ops == [] then [NO_PAIR] else OnTable(TableAfter(ops[..|ops| - 1]), ops[|ops| - 1])
  }

  function MapAfter(ops: seq<Operation>): map<Ip, int> {
    if ops == [] then map[] else OnMap(MapAfter(ops[..|ops| - 1]), ops[|ops| - 1])
  }

  /** Over every run of operations that never inserts the pair of zeros, the table is the map. */
  lemma {:induction false} TableRefinesMap(ops: seq<Operation>)
    requires Insert(NO_PAIR.ip, NO_PAIR.pbid) !in ops
    ensures Represents(TableAfter(ops), MapAfter(ops))
  {
    if ops != [] {
      var before, op := ops[..|ops| - 1], ops[|ops| - 1];
      TableRefinesMap(before);
      match op {
        case Insert(ip, pbid) => InsertRefines(TableAfter(before), MapAfter(before), ip, pbid);
        case Remove(ip) => RemoveRefines(TableAfter(before), MapAfter(before), ip);
        case Clear => EmptyRepresents();
      }
    } else {
      EmptyRepresents();
    }
  }

  // ---------------------------------------------------------------- the linked list

  class Cell {
    var pair: Pair
    var next: Cell?
    var isLast: bool

    constructor (pair: Pair)
      ensures this.pair == pair && next == null && isLast
    {
      this.pair, next, isLast := pair, null, true;
    }
  }

  /** `IsLastPair` holds of the cell without a next one, and only of it. */
  ghost predicate Linked(cells: seq<Cell>, i: nat)
    requires i < |cells|
    reads cells
  {
    && cells[i].next == (if i + 1 < |cells| then cells[i + 1] else null)
    && (cells[i].isLast <==> i + 1 == |cells|)
  }

  class Table {
    var first: Cell
    ghost var cells: seq<Cell>
    ghost var pairs: seq<Pair>

    ghost predicate Valid()
      reads this, cells
    {
      && cells != [] && |pairs| == |cells| && first == cells[0]
      && (forall i, j | 0 <= i < j < |cells| :: cells[i] != cells[j])
      && (forall i | 0 <= i < |cells| :: cells[i].pair == pairs[i])
      && (forall i | 0 <= i < |cells| :: Linked(cells, i))
    }

    constructor ()
      ensures Valid() && fresh(cells) && pairs == [NO_PAIR]
    {
      var cell := new Cell(NO_PAIR);
      first, cells, pairs := cell, [cell], [NO_PAIR];
    }

    method Overwrite(cell: Cell, ghost k: nat, pair: Pair)
      requires Valid() && k < |cells| && cell == cells[k]
      modifies this`pairs, cell`pair
      ensures Valid() && pairs == old(pairs)[k := pair]
    {
      cell.pair := pair;
      pairs := pairs[k := pair];
      assert forall i | 0 <= i < |cells| :: old(Linked(cells, i)) ==> Linked(cells, i);
    }

    method Append(last: Cell, pair: Pair)
      requires Valid() && last == cells[|cells| - 1]
      modifies this, last
      ensures Valid() && pairs == old(pairs) + [pair]
      ensures |cells| == |old(cells)| + 1 && cells[..|old(cells)|] == old(cells) && fresh(cells[|old(cells)|])
    {
      var entry := new Cell(pair);
      last.isLast := false;
      last.next := entry;
      cells, pairs := cells + [entry], pairs + [pair];
      forall i | 0 <= i < |cells|
        ensures Linked(cells, i)
      {
        assert i < |cells| - 2 ==> old(Linked(cells, i));
      }
    }

    method InsertPair(ip: Ip, pbid: int)
      requires Valid()
      modifies this, cells
      ensures Valid() && (forall i | 0 <= i < |cells| :: cells[i] in old(cells) || fresh(cells[i]))
      ensures pairs == Inserted(old(pairs), ip, pbid)
    {
      var cell := first;
      if cell.pair == NO_PAIR {
        Overwrite(cell, 0, Pair(ip, pbid));
        return;
      }
      ghost var k := 0;
      while true
        invariant 0 <= k < |cells| && cell == cells[k]
        invariant forall i | 0 <= i < k :: pairs[i].ip != ip
        decreases |cells| - k
      {
        if cell.pair.ip == ip {
          FindIs(pairs, ip, k);
          Overwrite(cell, k, Pair(ip, pbid));
          return;
        }
        assert Linked(cells, k);
        if cell.isLast {
          break;
        }
        cell := cell.next;
        k := k + 1;
      }
      FindIs(pairs, ip, |pairs|);
      Append(cell, Pair(ip, pbid));
    }

    /** Takes `cell` out of a list of several. */
    method Unlink(cell: Cell, prev: Cell?, ghost k: nat)
      requires Valid() && k < |cells| && cell == cells[k] && |cells| > 1
      requires prev == if k == 0 then null else cells[k - 1]
      modifies this, prev
      ensures Valid() && pairs == old(pairs)[..k] + old(pairs)[k + 1..]
      ensures cells == old(cells)[..k] + old(cells)[k + 1..]
    {
      assert Linked(cells, k);
      if prev == null {
        first := cell.next;
      } else {
        prev.next := cell.next;
        if cell.isLast {
          prev.isLast := true;
        }
      }
      cells, pairs := cells[..k] + cells[k + 1..], pairs[..k] + pairs[k + 1..];
      forall i | 0 <= i < |cells|
        ensures Linked(cells, i)
      {
        assert old(Linked(cells, if i < k then i else i + 1));
        assert old(Linked(cells, k));
      }
    }

    /** Turns the only pair into the sign of the empty table. */
    method Zero(cell: Cell)
      requires Valid() && cells == [cell]
      modifies this, cell
      ensures Valid() && pairs == [NO_PAIR] && cells == old(cells)
    {
      cell.pair, cell.isLast := NO_PAIR, true;
      first, pairs := cell, [NO_PAIR];
      assert old(Linked(cells, 0));
    }

    method RemovePair(ip: Ip)
      requires Valid()
      modifies this, cells
      ensures Valid() && (forall i | 0 <= i < |cells| :: cells[i] in old(cells))
      ensures pairs == Removed(old(pairs), ip)
    {
      var cell: Cell?, prev: Cell? := first, null;
      ghost var k := 0;
      while cell != null && cell.pair.ip != ip
        invariant 0 <= k <= |cells| && cell == (if k < |cells| then cells[k] else null)
        invariant prev == if k == 0 then null else cells[k - 1]
        invariant forall i | 0 <= i < k :: pairs[i].ip != ip
        decreases |cells| - k
      {
        assert Linked(cells, k);
        prev := cell;
        cell := cell.next;
        k := k + 1;
      }
      FindIs(pairs, ip, k);
      if cell == null {
        return;
      }
      assert Linked(cells, k);
      if prev == null && cell.next == null {
        Zero(cell);
        return;
      }
      Unlink(cell, prev, k);
    }

    method Search(ip: Ip) returns (found: Cell?)
      requires Valid()
      ensures SearchIp(pairs, ip) == if found == null then None else Some(found.pair.pbid)
      ensures found != null ==> found in cells && found.pair.ip == ip
    {
      if first.pair == NO_PAIR {
        return null;
      }
      found := first;
      ghost var k := 0;
      while found.pair.ip != ip
        invariant 0 <= k < |cells| && found == cells[k]
        invariant forall i | 0 <= i < k :: pairs[i].ip != ip
        decreases |cells| - k
      {
        assert Linked(cells, k);
        found := found.next;
        k := k + 1;
        if found == null {
          FindIs(pairs, ip, |pairs|);
          return;
        }
      }
      FindIs(pairs, ip, k);
    }

    method SearchBoth(ip: Ip, pbid: int) returns (found: Cell?)
      requires Valid()
      ensures found != null <==> SearchPair(pairs, ip, pbid)
      ensures found != null ==> found in cells && found.pair == Pair(ip, pbid)
    {
      if first.pair == NO_PAIR {
        return null;
      }
      found := first;
      ghost var k := 0;
      while found.pair.pbid != pbid || found.pair.ip != ip
        invariant 0 <= k < |cells| && found == cells[k]
        invariant forall i | 0 <= i < k :: pairs[i] != Pair(ip, pbid)
        decreases |cells| - k
      {
        assert Linked(cells, k);
        found := found.next;
        k := k + 1;
        if found == null {
          return;
        }
      }
      assert pairs[k] == Pair(ip, pbid);
    }
  }

  /** `emptyTable`: takes the old table apart from the front, then hands out a new one. */
  method EmptyTable(oldTable: Table) returns (table: Table)
    requires oldTable.Valid()
    modifies oldTable, oldTable.cells
    ensures fresh(table) && table.Valid() && table.pairs == [NO_PAIR]
  {
    var cell := oldTable.first;
    while cell.pair.ip != Ip(0, 0)
      invariant oldTable.Valid() && cell == oldTable.first
      invariant forall i | 0 <= i < |oldTable.cells| :: oldTable.cells[i] in old(oldTable.cells)
      decreases |oldTable.pairs|, if oldTable.pairs[0].ip == Ip(0, 0) then 0 else 1
    {
      FindIs(oldTable.pairs, cell.pair.ip, 0);
      oldTable.RemovePair(cell.pair.ip);
      cell := oldTable.first;
    }
    table := new Table();
  }
}
