/** Singly linked lists: cells that each point to the next, and the sequence they stand for. */
module Chain {
  import opened Sequences

  class Cell<T> {
    var item: T
    var next: Cell?<T>

    constructor (item: T)
      ensures this.item == item && next == null
    {
      this.item, next := item, null;
    }
  }

  ghost predicate Linked<T>(cells: seq<Cell<T>>, i: nat)
    requires i < |cells|
    reads cells
  {
    cells[i].next == if i + 1 < |cells| then cells[i + 1] else null
  }

  ghost predicate Differ<T>(cells: seq<Cell<T>>, i: nat, j: nat)
    requires i < |cells| && j < |cells|
  {
    cells[i] != cells[j]
  }

  ghost predicate Distinct<T>(cells: seq<Cell<T>>) {
    forall i, j | 0 <= i < j < |cells| :: Differ(cells, i, j)
  }

  /** The list that starts at `first` runs through `cells` and holds `items`. */
  ghost predicate Holds<T>(first: Cell?<T>, cells: seq<Cell<T>>, items: seq<T>)
    reads cells
  {
    && |items| == |cells| && first == (if cells == [] then null else cells[0])
    && Distinct(cells)
    && (forall i | 0 <= i < |cells| :: cells[i].item == items[i])
    && (forall i | 0 <= i < |cells| :: Linked(cells, i))
  }

  lemma DistinctFrom<T>(cells: seq<Cell<T>>, k: nat)
    requires Distinct(cells) && k < |cells|
    ensures forall i | 0 <= i < |cells| && i != k :: cells[i] != cells[k]
  {
    forall i | 0 <= i < |cells| && i != k
      ensures cells[i] != cells[k]
    {
      assert if i < k then Differ(cells, i, k) else Differ(cells, k, i);
    }
  }

  lemma DistinctAfterInsert<T>(cells: seq<Cell<T>>, k: nat, el: Cell<T>)
    requires Distinct(cells) && k <= |cells| && forall i | 0 <= i < |cells| :: cells[i] != el
    ensures Distinct(Inserted(cells, k, el))
  {
    var t := Inserted(cells, k, el);
    forall i, j | 0 <= i < j < |t|
      ensures Differ(t, i, j)
    {
      if i != k && j != k {
        assert Differ(cells, if i < k then i else i - 1, if j < k then j else j - 1);
      }
    }
  }

  lemma DistinctAfterRemoval<T>(cells: seq<Cell<T>>, k: nat)
    requires Distinct(cells) && k < |cells|
    ensures Distinct(Without(cells, k))
  {
    var t := Without(cells, k);
    forall i, j | 0 <= i < j < |t|
      ensures Differ(t, i, j)
    {
      assert Differ(cells, if i < k then i else i + 1, if j < k then j else j + 1);
    }
  }

  /** Links `el` in behind the first `k` cells; `prev` is the last of them. */
  method LinkIn<T>(first: Cell?<T>, el: Cell<T>, prev: Cell?<T>,
                   ghost cells: seq<Cell<T>>, ghost items: seq<T>, ghost k: nat)
    returns (head: Cell<T>)
    requires Holds(first, cells, items) && k <= |cells|
    requires el.next == null && forall i | 0 <= i < |cells| :: cells[i] != el
    requires prev == if k == 0 then null else cells[k - 1]
    modifies prev, el`next
    ensures Holds(head, Inserted(cells, k, el), Inserted(items, k, el.item))
  {
    DistinctAfterInsert(cells, k, el);
    if prev == null {
      el.next := first;
      head := el;
    } else {
      assert Linked(cells, k - 1);
      el.next := prev.next;
      prev.next := el;
      head := first;
    }
    forall i | 0 <= i <= |cells|
      ensures Linked(Inserted(cells, k, el), i)
    {
      if i != k {
        var was := if i < k then i else i - 1;
        assert old(Linked(cells, was));
        assert was < k - 1 ==> Differ(cells, was, k - 1);
        assert was > k - 1 >= 0 ==> Differ(cells, k - 1, was);
      }
    }
  }

  /** Takes `cell` out, which comes behind `prev`. */
  method Unlink<T>(first: Cell<T>, cell: Cell<T>, prev: Cell?<T>,
                   ghost cells: seq<Cell<T>>, ghost items: seq<T>, ghost k: nat)
    returns (head: Cell?<T>)
    requires Holds(first, cells, items) && k < |cells| && cell == cells[k]
    requires prev == if k == 0 then null else cells[k - 1]
    modifies prev
    ensures Holds(head, Without(cells, k), Without(items, k))
    ensures k == 0 ==> Holds(head, cells[1..], items[1..])
  {
    DistinctAfterRemoval(cells, k);
    assert Linked(cells, k);
    if prev == null {
      head := cell.next;
    } else {
      prev.next := cell.next;
      head := first;
    }
    forall i | 0 <= i < |cells| - 1
      ensures Linked(Without(cells, k), i)
    {
      var was := if i < k then i else i + 1;
      assert old(Linked(cells, was));
      assert was < k - 1 ==> Differ(cells, was, k - 1);
      assert was > k - 1 >= 0 ==> Differ(cells, k - 1, was);
    }
    assert k == 0 ==> Without(cells, k) == cells[1..] && Without(items, k) == items[1..];
  }
}
