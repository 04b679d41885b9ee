/**
 * The three in-range uses of JavaScript's `Array.prototype.splice` the editor makes:
 * remove one element, insert one element, and the remove-then-insert move of drag and drop;
 * and the index assignment `a[k] = x` where `k` is at most the length.
 */
module Splice {

  /** `a.splice(k, 1)`: the sequence without its element at `k`, the rest in order. */
  function RemoveAt<T>(s: seq<T>, k: nat): (r: seq<T>)
    requires k < |s|
    ensures |r| == |s| - 1
    ensures forall j :: 0 <= j < k ==> r[j] == s[j]
    ensures forall j :: k <= j < |r| ==> r[j] == s[j + 1]
  {
    s[..k] + s[k + 1..]
  }

  /** Removing takes exactly one occurrence of the removed element out of the multiset. */
  lemma RemoveAtMultiset<T>(s: seq<T>, k: nat)
    requires k < |s|
    ensures multiset(RemoveAt(s, k)) + multiset{s[k]} == multiset(s)
  {
    assert s == s[..k] + [s[k]] + s[k + 1..];
  }

  /** `a.splice(k, 0, x)`: `x` lands at index `k` and what was from `k` on moves up by one. */
  function InsertAt<T>(s: seq<T>, k: nat, x: T): (r: seq<T>)
    requires k <= |s|
    ensures |r| == |s| + 1 && r[k] == x
    ensures forall j :: 0 <= j < k ==> r[j] == s[j]
    ensures forall j :: k <= j < |s| ==> r[j + 1] == s[j]
  {
    s[..k] + [x] + s[k..]
  }

  /** Inserting adds exactly one occurrence of the inserted element to the multiset. */
  lemma InsertAtMultiset<T>(s: seq<T>, k: nat, x: T)
    requires k <= |s|
    ensures multiset(InsertAt(s, k, x)) == multiset(s) + multiset{x}
  {
    assert s == s[..k] + s[k..];
  }

  /** Removing what was just inserted gives the sequence back. */
  lemma RemoveInsert<T>(s: seq<T>, k: nat, x: T)
    requires k <= |s|
    ensures RemoveAt(InsertAt(s, k, x), k) == s
  {
  }

  /** Inserting the removed element where it was gives the sequence back. */
  lemma InsertRemove<T>(s: seq<T>, k: nat)
    requires k < |s|
    ensures InsertAt(RemoveAt(s, k), k, s[k]) == s
  {
  }

  /** The drop handler's move: take the element at `from` out, then insert it at `to` of the shortened sequence. */
  function Move<T>(s: seq<T>, from: nat, to: nat): (r: seq<T>)
    requires from < |s| && to < |s|
    ensures |r| == |s| && r[to] == s[from]
    ensures RemoveAt(r, to) == RemoveAt(s, from)
  {
    RemoveInsert(RemoveAt(s, from), to, s[from]);
    InsertAt(RemoveAt(s, from), to, s[from])
  }

  /** A move is a permutation: the same elements, as often as before. */
  lemma MovePermutes<T>(s: seq<T>, from: nat, to: nat)
    requires from < |s| && to < |s|
    ensures multiset(Move(s, from, to)) == multiset(s)
  {
    RemoveAtMultiset(s, from);
    InsertAtMultiset(RemoveAt(s, from), to, s[from]);
  }

  /** Moving an element onto its own slot changes nothing. */
  lemma MoveSelf<T>(s: seq<T>, k: nat)
    requires k < |s|
    ensures Move(s, k, k) == s
  {
    InsertRemove(s, k);
  }

  /** Dragging the element back from `to` to `from` undoes the move. */
  lemma MoveInverse<T>(s: seq<T>, from: nat, to: nat)
    requires from < |s| && to < |s|
    ensures Move(Move(s, from, to), to, from) == s
  {
    var r := Move(s, from, to);
    InsertRemove(s, from);
    assert Move(r, to, from) == InsertAt(RemoveAt(s, from), from, s[from]);
  }

  /**
   * Where every element of `s` ends up after `Move(s, from, to)`: the moved one at `to`,
   * the ones strictly between shifted by one towards `from`, the rest in place.
   */
  lemma MoveAt<T>(s: seq<T>, from: nat, to: nat, j: nat)
    requires from < |s| && to < |s| && j < |s|
    ensures from < to ==>
      Move(s, from, to)[j] == (if j < from || to < j then s[j] else if j == to then s[from] else s[j + 1])
    ensures to <= from ==>
      Move(s, from, to)[j] == (if j < to || from < j then s[j] else if j == to then s[from] else s[j - 1])
  {
  }

  /**
   * `a[k] = x` with `k <= a.length`: below the length it replaces element `k`; at the length
   * it appends `x`, leaving no hole.
   */
  function StoreAt<T>(s: seq<T>, k: nat, x: T): (r: seq<T>)
    requires k <= |s|
    ensures |r| == (if k < |s| then |s| else |s| + 1)
    ensures r[k] == x
    ensures forall j :: 0 <= j < |s| && j != k ==> r[j] == s[j]
  {
    if k < |s| then s[k := x] else s + [x]
  }
}
