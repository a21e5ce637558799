/** The two operations of the .NET List<T> that the item effects rely on,
    stated over sequences: IndexOf (first occurrence) and Remove (drop the
    first occurrence, do nothing when absent). */
module Lists {

  /** Position of the first occurrence of x in s, or -1 when x is absent. */
  function IndexOf<T(==)>(s: seq<T>, x: T): (i: int)
    ensures -1 <= i < |s|
    ensures i == -1 <==> x !in s
    ensures 0 <= i ==> s[i] == x && forall k :: 0 <= k < i ==> s[k] != x
  {
    if s == [] then -1
    else if s[0] == x then 0
    else
      var j := IndexOf(s[1..], x);
      if j == -1 then -1 else j + 1
  }

  /** List<T>.Remove: removes the first occurrence of x; a no-op when x is absent. */
  function RemoveFirst<T(==)>(s: seq<T>, x: T): (r: seq<T>)
    ensures x !in s ==> r == s
    ensures x in s ==> |r| == |s| - 1
  {
    var i := IndexOf(s, x);
    if i < 0 then s else s[..i] + s[i + 1..]
  }

  /** Removal takes away exactly one copy of x when there is one, and nothing else. */
  lemma RemoveFirstMultiset<T>(s: seq<T>, x: T)
    ensures multiset(RemoveFirst(s, x)) == multiset(s) - multiset{x}
  {
    var i := IndexOf(s, x);
    if i < 0 {
      assert x !in multiset(s);
    } else {
      var front, back := s[..i], s[i + 1..];
      assert s == front + [x] + back;
      assert RemoveFirst(s, x) == front + back;
      assert multiset(s) == multiset(front + back) + multiset{x};
    }
  }

  /** Reference definition of "remove the first occurrence", by recursion on the list. */
  function WithoutFirst<T(==)>(s: seq<T>, x: T): seq<T>
  {
    if s == [] then []
    else if s[0] == x then s[1..]
    else [s[0]] + WithoutFirst(s[1..], x)
  }

  /** Removing x from a list whose head is not x keeps the head and removes x from the tail. */
  // The body is not needed for soundness: without it the solver can still find the
  // proof, but on some seeds only after exhausting the resource limit.
  lemma RemoveFirstSkipsHead<T>(s: seq<T>, x: T)
    requires s != [] && s[0] != x
    ensures RemoveFirst(s, x) == [s[0]] + RemoveFirst(s[1..], x)
  {
    var t := s[1..];
    assert s == [s[0]] + t;
    var j := IndexOf(t, x);
    if j >= 0 {
      var i := IndexOf(s, x);
      assert i == j + 1;
      var front, back := s[..i], s[i + 1..];
      assert front == [s[0]] + t[..j];
      assert back == t[j + 1..];
      assert RemoveFirst(s, x) == front + back;
      assert RemoveFirst(t, x) == t[..j] + t[j + 1..];
      assert front + back == [s[0]] + (t[..j] + t[j + 1..]);
    }
  }

  /** The index-based removal and the recursive reference definition agree on every list. */
  lemma {:induction false} RemoveFirstIsWithoutFirst<T>(s: seq<T>, x: T)
    ensures RemoveFirst(s, x) == WithoutFirst(s, x)
  {
    if s == [] {
    } else if s[0] == x {
      assert IndexOf(s, x) == 0;
    } else {
      RemoveFirstIsWithoutFirst(s[1..], x);
      RemoveFirstSkipsHead(s, x);
    }
  }
}
