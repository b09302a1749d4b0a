/** Inserting into and removing from sequences, and the size of a subset. */
module Sequences {
  function Inserted<T>(s: seq<T>, k: nat, x: T): seq<T>
    requires k <= |s|
  {
    s[..k] + [x] + s[k..]
  }

  function Without<T>(s: seq<T>, k: nat): seq<T>
    requires k < |s|
  {
    s[..k] + s[k + 1..]
  }

  lemma InsertedAt<T>(s: seq<T>, k: nat, x: T)
    requires k <= |s|
    ensures var t := Inserted(s, k, x);
      |t| == |s| + 1 && forall i | 0 <= i < |t| :: t[i] == if i < k then s[i] else if i == k then x else s[i - 1]
  {
  }

  lemma LastInserted<T>(s: seq<T>, k: nat, x: T)
    requires k <= |s|
    ensures Inserted(s, k, x)[|s|] == if k == |s| then x else s[|s| - 1]
  {
  }

  lemma InsertedElements<T>(s: seq<T>, k: nat, x: T)
    requires k <= |s|
    ensures var t := Inserted(s, k, x); forall i | 0 <= i < |t| :: t[i] == x || t[i] in s
  {
    InsertedAt(s, k, x);
  }

  lemma WithoutElements<T>(s: seq<T>, k: nat)
    requires k < |s|
    ensures var t := Without(s, k); forall i | 0 <= i < |t| :: t[i] in s
  {
  }

  lemma {:induction false} SubsetSize<T>(small: set<T>, big: set<T>)
    requires small <= big
    ensures |small| <= |big|
  {
    if x :| x in small {
      SubsetSize(small - {x}, big - {x});
    }
  }
}
