/** The priority queue between the producers of packets and the one thread that sends them. */
module Queue {
  import opened Chain
  import opened Sequences

  datatype Item<T> = Item(packet: T, size: int, pr: int)

  // ---------------------------------------------------------------- the queue as a sequence

  /** Where an item of priority `pr` goes: in front of the first item of lower priority. */
  function Place<T>(q: seq<Item<T>>, pr: int): (k: nat)
    ensures k <= |q|
    ensures forall i | 0 <= i < k :: q[i].pr >= pr
    ensures k < |q| ==> q[k].pr < pr
  {
    if q == [] || q[0].pr < pr then 0 else 1 + Place(q[1..], pr)
  }

  lemma PlaceIs<T>(q: seq<Item<T>>, pr: int, k: nat)
    requires k <= |q| && (forall i | 0 <= i < k :: q[i].pr >= pr) && (k < |q| ==> q[k].pr < pr)
    ensures Place(q, pr) == k
  {
  }

  /** `addToQueue`. */
  function Added<T>(q: seq<Item<T>>, x: Item<T>): seq<Item<T>> {
    Inserted(q, Place(q, x.pr), x)
  }

  // ---------------------------------------------------------------- the linked list

  class PacketQueue<T> {
    var first: Cell?<Item<T>>
    var last: Cell?<Item<T>>
    var size: int
    ghost var cells: seq<Cell<Item<T>>>
    ghost var items: seq<Item<T>>

    /** `Last` dangles after the only element has been popped. */
    ghost predicate Valid()
      reads this, cells
    {
      Holds(first, cells, items) && size == |items| && (cells != [] ==> last == cells[|cells| - 1])
    }

    constructor ()
      ensures Valid() && items == [] && fresh(cells)
    {
      first, last, size, cells, items := null, null, 0, [], [];
    }

    /** The loop of `addToQueue`: `prev` is the last cell that the new one must stay behind. */
    method FindPlace(pr: int) returns (toSwap: Cell?<Item<T>>, prev: Cell?<Item<T>>, ghost k: nat)
      requires Valid()
      ensures k == Place(items, pr)
      ensures toSwap == if Place(items, pr) < |cells| then cells[Place(items, pr)] else null
      ensures prev == if Place(items, pr) == 0 then null else cells[Place(items, pr) - 1]
    {
      toSwap, prev, k := first, null, 0;
      while toSwap != null && toSwap.item.pr >= pr
        invariant 0 <= k <= |cells| && toSwap == (if k < |cells| then cells[k] else null)
        invariant prev == if k == 0 then null else cells[k - 1]
        invariant forall i | 0 <= i < k :: items[i].pr >= pr
        decreases |cells| - k
      {
        assert Linked(cells, k);
        prev, toSwap := toSwap, toSwap.next;
        k := k + 1;
      }
      PlaceIs(items, pr, k);
    }

    /** Puts `el` in behind the first `k` cells, between `prev` and `toSwap`. */
    method Put(el: Cell<Item<T>>, toSwap: Cell?<Item<T>>, prev: Cell?<Item<T>>, ghost k: nat)
      requires Valid() && k <= |cells| && el.next == null && forall i | 0 <= i < |cells| :: cells[i] != el
      requires toSwap == if k < |cells| then cells[k] else null
      requires prev == if k == 0 then null else cells[k - 1]
      modifies this, prev, el`next
      ensures Valid()
      ensures cells == Inserted(old(cells), k, el) && items == Inserted(old(items), k, el.item)
    {
      var head := LinkIn(first, el, prev, cells, items, k);
      LastInserted(cells, k, el);
      var tail := if toSwap == null then el else last;
      first, last, size := head, tail, size + 1;
      cells, items := Inserted(cells, k, el), Inserted(items, k, el.item);
    }

    method Add(x: Item<T>)
      requires Valid()
      modifies this, cells
      ensures Valid() && items == Added(old(items), x)
      ensures forall i | 0 <= i < |cells| :: cells[i] in old(cells) || fresh(cells[i])
    {
      var el := new Cell(x);
      var toSwap, prev;
      ghost var k;
      toSwap, prev, k := FindPlace(x.pr);
      InsertedElements(cells, k, el);
      Put(el, toSwap, prev, k);
    }

    /** The part of `popFromQueue` under the lock; it would follow a null pointer if the queue were empty. */
    method Take() returns (x: Item<T>)
      requires Valid() && items != []
      modifies this
      ensures Valid() && [x] + items == old(items) && cells == old(cells)[1..]
    {
      x := first.item;
      var head := Unlink(first, first, null, cells, items, 0);
      first, size := head, size - 1;
      cells, items := cells[1..], items[1..];
    }
  }

  // ---------------------------------------------------------------- producers and consumers

  /**
   * A run: packets are named by the order in which they were added. `poised` are the consumers
   * that have seen a size other than zero, without the lock, and have not taken a packet yet.
   */
  datatype Run = Run(items: seq<Item<nat>>, added: seq<Item<nat>>, popped: seq<Item<nat>>, poised: set<nat>)

  datatype Step =
    | Add(size: int, pr: int)
    | Check(consumer: nat)  // the test of Size
    | Take(consumer: nat)   // the part under the lock

  const START := Run([], [], [], {})

  ghost predicate Possible(r: Run, e: Step) {
    match e
    case Add(_, _) => true
    case Check(c) => c !in r.poised
    case Take(c) => c in r.poised
  }

  /** The step would follow a null pointer. */
  predicate Crashes(r: Run, e: Step) {
    e.Take? && r.items == []
  }

  function After(r: Run, e: Step): Run
    requires !Crashes(r, e)
  {
    match e
    case Add(size, pr) =>
      var x := Item(|r.added|, size, pr);
      r.(items := Added(r.items, x), added := r.added + [x])
    case Check(c) => if r.items == [] then r else r.(poised := r.poised + {c})
    case Take(c) => r.(items := r.items[1..], popped := r.popped + [r.items[0]], poised := r.poised - {c})
  }

  /** `x` must leave the queue before `y`: it has a higher priority, or the same and was added earlier. */
  predicate Before(x: Item<nat>, y: Item<nat>) {
    x.pr > y.pr || (x.pr == y.pr && x.packet < y.packet)
  }

  ghost predicate Ordered(q: seq<Item<nat>>) {
    forall i, j | 0 <= i < j < |q| :: Before(q[i], q[j])
  }

  ghost predicate Inv(r: Run) {
    && Ordered(r.items)
    && (forall i | 0 <= i < |r.items| :: r.items[i].packet < |r.added|)
    && multiset(r.added) == multiset(r.popped) + multiset(r.items)
  }

  lemma AddConserves(q: seq<Item<nat>>, x: Item<nat>)
    ensures multiset(Added(q, x)) == multiset(q) + multiset{x}
  {
    assert q == q[..Place(q, x.pr)] + q[Place(q, x.pr)..];
  }

  lemma AddKeepsOrder(q: seq<Item<nat>>, x: Item<nat>)
    requires Ordered(q) && forall i | 0 <= i < |q| :: q[i].packet < x.packet
    ensures Ordered(Added(q, x))
  {
    var k, t := Place(q, x.pr), Added(q, x);
    forall i, j | 0 <= i < j < |t|
      ensures Before(t[i], t[j])
    {
      if i == k {
        assert k == j - 1 || Before(q[k], q[j - 1]);
      } else if j == k {
        assert t[i] == q[i];
      } else {
        assert Before(q[if i < k then i else i - 1], q[if j < k then j else j - 1]);
      }
    }
  }

  lemma NamesStaySmall(q: seq<Item<nat>>, x: Item<nat>)
    requires forall i | 0 <= i < |q| :: q[i].packet < x.packet
    ensures forall i | 0 <= i < |Added(q, x)| :: Added(q, x)[i].packet < x.packet + 1
  {
  }

  lemma TakeKeeps(r: Run, c: nat)
    requires Inv(r) && r.items != []
    ensures Inv(After(r, Take(c)))
  {
    assert r.items == [r.items[0]] + r.items[1..];
  }

  lemma StepKeeps(r: Run, e: Step)
    requires Inv(r) && !Crashes(r, e)
    ensures Inv(After(r, e))
  {
    match e
    case Add(size, pr) =>
      var x := Item(|r.added|, size, pr);
      AddConserves(r.items, x);
      AddKeepsOrder(r.items, x);
      NamesStaySmall(r.items, x);
    case Check(_) =>
    case Take(c) => TakeKeeps(r, c);
  }

  /** All steps are possible and none of them crashes. */
  ghost predicate Runs(r: Run, steps: seq<Step>)
    decreases |steps|
  {
    steps != [] ==> Possible(r, steps[0]) && !Crashes(r, steps[0]) && Runs(After(r, steps[0]), steps[1..])
  }

  ghost function End(r: Run, steps: seq<Step>): Run
    requires Runs(r, steps)
    decreases |steps|
  {
    if steps == [] then r else End(After(r, steps[0]), steps[1..])
  }

  lemma {:induction false} RunKeeps(r: Run, steps: seq<Step>)
    requires Inv(r) && Runs(r, steps)
    ensures Inv(End(r, steps))
    decreases |steps|
  {
    if steps != [] {
      StepKeeps(r, steps[0]);
      RunKeeps(After(r, steps[0]), steps[1..]);
    }
  }

  /**
   * However adds and takes interleave, the packet that leaves next has a higher priority than any
   * that stays behind, or the same priority and was added earlier.
   */
  lemma HighestFirstThenOldest(steps: seq<Step>, i: nat)
    requires Runs(START, steps) && 0 < i < |End(START, steps).items|
    ensures Before(End(START, steps).items[0], End(START, steps).items[i])
  {
    RunKeeps(START, steps);
  }

  /** Nothing is lost, duplicated or made up. */
  lemma PacketsConserved(steps: seq<Step>)
    requires Runs(START, steps)
    ensures var r := End(START, steps); multiset(r.added) == multiset(r.popped) + multiset(r.items)
  {
    RunKeeps(START, steps);
  }

  /** Two packets of one priority leave in the order in which they came. */
  lemma {:induction false} OldestFirst(r: Run, steps: seq<Step>, x: Item<nat>, y: Item<nat>)
    requires Inv(r) && Runs(r, steps)
    requires x in r.items && y in r.items && Before(x, y) && y !in r.popped && x !in r.popped
    requires y in End(r, steps).popped
    ensures x in End(r, steps).popped
    decreases |steps|
  {
    if steps != [] {
      var t := After(r, steps[0]);
      StepKeeps(r, steps[0]);
      if steps[0].Take? {
        assert r.items == [r.items[0]] + r.items[1..];
        if r.items[0] == x {
          PoppedStays(t, steps[1..], x);
        } else {
          var i :| 0 <= i < |r.items| && r.items[i] == x;
          assert r.items[0] != y;
          OldestFirst(t, steps[1..], x, y);
        }
      } else {
        assert forall z | z in r.items :: z in t.items;
        OldestFirst(t, steps[1..], x, y);
      }
    }
  }

  lemma {:induction false} PoppedStays(r: Run, steps: seq<Step>, x: Item<nat>)
    requires Runs(r, steps) && x in r.popped
    ensures x in End(r, steps).popped
    decreases |steps|
  {
    if steps != [] {
      PoppedStays(After(r, steps[0]), steps[1..], x);
    }
  }

  // ---------------------------------------------------------------- the check without the lock

  predicate By(cs: set<nat>, e: Step) {
    match e
    case Add(_, _) => true
    case Check(c) => c in cs
    case Take(c) => c in cs
  }

  /** After some run with consumers from `cs` only, one of them is about to follow a null pointer. */
  ghost predicate CanCrash(cs: set<nat>, steps: seq<Step>, e: Step) {
    && (forall i | 0 <= i < |steps| :: By(cs, steps[i])) && By(cs, e)
    && Runs(START, steps) && Possible(End(START, steps), e) && Crashes(End(START, steps), e)
  }

  /** With one consumer, nothing can empty the queue between the check and the take. */
  lemma {:induction false} OneConsumerNeverCrashes(r: Run, steps: seq<Step>, e: Step, c: nat)
    requires r.poised <= {c} && (r.poised != {} ==> r.items != [])
    requires Runs(r, steps) && (forall i | 0 <= i < |steps| :: By({c}, steps[i])) && By({c}, e)
    requires Possible(End(r, steps), e)
    ensures !Crashes(End(r, steps), e)
    decreases |steps|
  {
    if steps != [] {
      assert By({c}, steps[0]);
      OneConsumerNeverCrashes(After(r, steps[0]), steps[1..], e, c);
    }
  }

  /** With two it fails: both see the one packet, and the second to take follows a null pointer. */
  lemma TwoConsumersCrash(cs: set<nat>, c: nat, d: nat)
    requires c in cs && d in cs && c != d
    ensures CanCrash(cs, [Add(8, 1), Check(c), Check(d), Take(c)], Take(d))
  {
    var r1 := After(START, Add(8, 1));
    assert r1.items == [Item(0, 8, 1)];
    var r2 := After(r1, Check(c));
    var r3 := After(r2, Check(d));
    var r4 := After(r3, Take(c));
    var last := [Take(c)];
    assert last[0] == Take(c) && last[1..] == [];
    assert Runs(r4, []) && End(r4, []) == r4;
    assert Runs(r3, last) && End(r3, last) == r4;
    assert Runs(r2, [Check(d), Take(c)]) && End(r2, [Check(d), Take(c)]) == r4;
    assert Runs(r1, [Check(c), Check(d), Take(c)]) && End(r1, [Check(c), Check(d), Take(c)]) == r4;
  }

  /** So the test without the lock is safe exactly when at most one thread takes from the queue. */
  lemma SafeIffOneConsumer(cs: set<nat>)
    ensures (forall steps, e :: !CanCrash(cs, steps, e)) <==> |cs| <= 1
  {
    if |cs| <= 1 {
      var c := if cs == {} then 0 else var c :| c in cs; c;
      assert cs <= {c} by {
        if d :| d in cs && d != c {
          assert {c, d} <= cs;
          SubsetSize({c, d}, cs);
        }
      }
      forall steps, e
        ensures !CanCrash(cs, steps, e)
      {
        if CanCrash(cs, steps, e) {
          OneConsumerNeverCrashes(START, steps, e, c);
        }
      }
    } else {
      var c :| c in cs;
      assert cs - {c} != {} by {
        if cs - {c} == {} {
          SubsetSize(cs, {c});
        }
      }
      var d :| d in cs - {c};
      TwoConsumersCrash(cs, c, d);
    }
  }
}
