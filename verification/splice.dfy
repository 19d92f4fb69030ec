/**
 * The two shapes of `Array.prototype.splice` that the board page applies to
 * a list: `splice(i, 1)` takes the element at `i` out, `splice(i, 0, x)` puts
 * `x` in front of position `i`. One of each, in that order, moves an element.
 */
module Splice {

  /** `list.splice(i, 1)` on a list that has an element at `i`: what is left. */
  function RemoveAt<T>(s: seq<T>, i: nat): (r: seq<T>)
    requires i < |s|
    ensures |r| == |s| - 1
    ensures forall j :: 0 <= j < i ==> r[j] == s[j]
    ensures forall j :: i <= j < |r| ==> r[j] == s[j + 1]
    ensures multiset(r) + multiset{s[i]} == multiset(s)
  {
    assert s == s[..i] + [s[i]] + s[i + 1..];
    s[..i] + s[i + 1..]
  }

  /** The position `splice(i, 0, x)` gives `x` in a list of length `n`: a start past the end means the end. */
  function InsertPos(i: nat, n: nat): nat
  {
    if i <= n then i else n
  }

  /** `list.splice(i, 0, x)`: `x` inserted, everything before it kept, everything after it shifted by one. */
  function Insert<T>(s: seq<T>, i: nat, x: T): (r: seq<T>)
    ensures |r| == |s| + 1
    ensures r[InsertPos(i, |s|)] == x
    ensures forall j :: 0 <= j < InsertPos(i, |s|) ==> r[j] == s[j]
    ensures forall j :: InsertPos(i, |s|) < j < |r| ==> r[j] == s[j - 1]
    ensures multiset(r) == multiset(s) + multiset{x}
  {
    var k := InsertPos(i, |s|);
    assert s == s[..k] + s[k..];
    s[..k] + [x] + s[k..]
  }

  /** Taking out what was just inserted gives back the list it went into. */
  lemma RemoveInsert<T>(s: seq<T>, i: nat, x: T)
    ensures RemoveAt(Insert(s, i, x), InsertPos(i, |s|)) == s
  {
    var r := RemoveAt(Insert(s, i, x), InsertPos(i, |s|));
    assert forall j :: 0 <= j < |s| ==> r[j] == s[j];
  }

  /** Putting an element back where it was taken from gives back the list. */
  lemma InsertRemove<T>(s: seq<T>, i: nat)
    requires i < |s|
    ensures Insert(RemoveAt(s, i), i, s[i]) == s
  {
    var r := Insert(RemoveAt(s, i), i, s[i]);
    assert forall j :: 0 <= j < |s| ==> r[j] == s[j];
  }

  /**
   * A drag reorder: `splice(from, 1)`, then `splice(to, 0, moved)` on the
   * shortened list. The result is a permutation of `s`, the moved element
   * sits at `to` (or last, when `to` lies past the end), and taking it out
   * again leaves the other elements in their old relative order.
   */
  function Move<T>(s: seq<T>, from: nat, to: nat): (r: seq<T>)
    requires from < |s|
    ensures |r| == |s|
    ensures multiset(r) == multiset(s)
    ensures r[InsertPos(to, |s| - 1)] == s[from]
    ensures RemoveAt(r, InsertPos(to, |s| - 1)) == RemoveAt(s, from)
  {
    RemoveInsert(RemoveAt(s, from), to, s[from]);
    Insert(RemoveAt(s, from), to, s[from])
  }

  /** Dropping an element where it was picked up changes nothing. */
  lemma MoveToSameIndex<T>(s: seq<T>, i: nat)
    requires i < |s|
    ensures Move(s, i, i) == s
  {
    InsertRemove(s, i);
  }

  /** A move from `from` to `to` is undone by a move from `to` back to `from`. */
  lemma MoveBack<T>(s: seq<T>, from: nat, to: nat)
    requires from < |s| && to < |s|
    ensures Move(Move(s, from, to), to, from) == s
  {
    var r := Move(s, from, to);
    assert InsertPos(to, |s| - 1) == to;
    assert r[to] == s[from] && RemoveAt(r, to) == RemoveAt(s, from);
    InsertRemove(s, from);
  }
}
