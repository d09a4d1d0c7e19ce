/**
 * The java.util list primitives the library delegates to, stated on sequences:
 * remove(Object), indexOf, lastIndexOf and removeIf.
 */
module Sequences {

  /** The index of the first occurrence of x in s. */
  function FirstIndex<T(==)>(s: seq<T>, x: T): (i: nat)
    requires x in s
    ensures i < |s| && s[i] == x && x !in s[..i]
  {
    if s[0] == x then 0 else 1 + FirstIndex(s[1..], x)
  }

  /** The index of the last occurrence of x in s. */
  function LastIndex<T(==)>(s: seq<T>, x: T): (i: nat)
    requires x in s
    ensures i < |s| && s[i] == x && x !in s[i + 1..]
  {
    if s[|s| - 1] == x then |s| - 1 else LastIndex(s[..|s| - 1], x)
  }

  /**
   * List.remove(Object): the first occurrence of x is removed and the other
   * elements keep their order; nothing happens when x is absent.
   */
  function RemoveFirst<T(==)>(s: seq<T>, x: T): (r: seq<T>)
    ensures x !in s ==> r == s
    ensures x in s ==> |r| == |s| - 1
    ensures x in s ==> forall j :: 0 <= j < FirstIndex(s, x) ==> r[j] == s[j]
    ensures x in s ==> forall j :: FirstIndex(s, x) <= j < |r| ==> r[j] == s[j + 1]
  {
    if x in s then
      var i := FirstIndex(s, x);
      s[..i] + s[i + 1..]
    else s
  }

  /** Collection.removeIf with the negated predicate: the elements satisfying keep, in their original order. */
  function Filter<T>(s: seq<T>, keep: T -> bool): (r: seq<T>)
    ensures |r| <= |s|
    ensures forall i :: 0 <= i < |r| ==> r[i] in s && keep(r[i])
    ensures forall i :: 0 <= i < |s| && keep(s[i]) ==> s[i] in r
    ensures (forall i :: 0 <= i < |s| ==> keep(s[i])) ==> r == s
  {
    if s == [] then []
    else if keep(s[0]) then [s[0]] + Filter(s[1..], keep)
    else Filter(s[1..], keep)
  }

  /** Filtering keeps the length exactly when it keeps every element, so removeIf reports a change iff one was made. */
  lemma {:induction false} FilterKeepsLength<T>(s: seq<T>, keep: T -> bool)
    ensures |Filter(s, keep)| == |s| <==> forall i :: 0 <= i < |s| ==> keep(s[i])
  {
    if s != [] {
      FilterKeepsLength(s[1..], keep);
      if keep(s[0]) && |Filter(s, keep)| == |s| {
        forall i | 0 <= i < |s|
          ensures keep(s[i])
        {
          if i > 0 {
            assert s[i] == s[1..][i - 1];
          }
        }
      }
    }
  }

  /** Filtering works element by element, so the kept elements stay in their relative order. */
  lemma {:induction false} FilterConcat<T>(s: seq<T>, t: seq<T>, keep: T -> bool)
    ensures Filter(s + t, keep) == Filter(s, keep) + Filter(t, keep)
  {
    if s == [] {
      assert s + t == t;
    } else {
      assert (s + t)[1..] == s[1..] + t;
      FilterConcat(s[1..], t, keep);
    }
  }
}
