/** Python list operations the entities rely on: finding the first
    occurrence of an element and `list.remove`, which deletes it. */
module Seqs {
  import opened Common

  /** Position of the first occurrence of `x` in `s`, None when there is none. */
  function IndexOf<T(==)>(s: seq<T>, x: T): (r: Option<nat>)
    ensures r.None? <==> x !in s
    ensures r.Some? ==> r.value < |s| && s[r.value] == x && x !in s[..r.value]
  {
    if |s| == 0 then None
    else if s[0] == x then Some(0)
    else match IndexOf(s[1..], x)
      case None => None
      case Some(i) =>
        assert s[..i + 1] == [s[0]] + s[1..][..i];
        Some(i + 1)
  }

  /** A position holding `x` with no `x` before it is the one IndexOf finds. */
  lemma IndexOfIsFirst<T>(s: seq<T>, x: T, i: nat)
    requires i < |s| && s[i] == x && x !in s[..i]
    ensures IndexOf(s, x) == Some(i)
  {
  }

  /** `s` without the element at position `i`; the others keep their order. */
  function RemoveAt<T>(s: seq<T>, i: nat): (r: seq<T>)
    requires i < |s|
    ensures |r| == |s| - 1
    ensures forall k :: 0 <= k < |r| ==> r[k] == if k < i then s[k] else s[k + 1]
  {
    s[..i] + s[i + 1..]
  }

  /** Python's `list.remove(x)`: drops the first occurrence of `x`. The source
      raises before calling it when `x` is absent; here `s` is then returned. */
  function RemoveFirst<T(==)>(s: seq<T>, x: T): seq<T>
  {
    match IndexOf(s, x)
    case None => s
    case Some(i) => RemoveAt(s, i)
  }

  /** Removing takes away exactly one copy of `x` when there is one, and nothing otherwise. */
  lemma RemoveFirstMultiset<T>(s: seq<T>, x: T)
    ensures multiset(RemoveFirst(s, x)) == multiset(s) - multiset{x}
    ensures x in s ==> |RemoveFirst(s, x)| == |s| - 1
    ensures x !in s ==> RemoveFirst(s, x) == s
  {
    match IndexOf(s, x)
    case None =>
      assert multiset(s)[x] == 0;
    case Some(i) =>
      assert s == s[..i] + [x] + s[i + 1..];
      calc {
        multiset(s);
        multiset(s[..i]) + multiset{x} + multiset(s[i + 1..]);
      }
  }

  /** Removing an element that was just appended, and did not occur before,
      gives back the original sequence. */
  lemma RemoveFirstAfterAppend<T>(s: seq<T>, x: T)
    requires x !in s
    ensures RemoveFirst(s + [x], x) == s
  {
    assert (s + [x])[..|s|] == s;
    IndexOfIsFirst(s + [x], x, |s|);
  }
}
