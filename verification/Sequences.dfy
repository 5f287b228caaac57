/** Removing repeats from a sequence. */
module Sequences {

  ghost predicate NoDups<T(!new)>(s: seq<T>) {
    forall i, j :: 0 <= i < j < |s| ==> s[i] != s[j]
  }

  /** The first occurrence of each element, in order. */
  function Distinct<T(==)>(s: seq<T>): seq<T> {
    if s == [] then []
    else
      var d := Distinct(s[..|s| - 1]);
      if s[|s| - 1] in d then d else d + [s[|s| - 1]]
  }

  lemma {:induction false} DistinctKeeps<T(!new)>(s: seq<T>)
    ensures NoDups(Distinct(s))
    ensures forall x :: x in Distinct(s) <==> x in s
    ensures |Distinct(s)| <= |s|
  {
    if s != [] {
      DistinctKeeps(s[..|s| - 1]);
      assert s == s[..|s| - 1] + [s[|s| - 1]];
    }
  }

  lemma DistinctSnoc<T>(s: seq<T>, x: T)
    ensures Distinct(s + [x]) == if x in Distinct(s) then Distinct(s) else Distinct(s) + [x]
  {
    assert (s + [x])[..|s|] == s;
  }

  /** The first n elements, or all when there are fewer. */
  function AtMost<T>(s: seq<T>, n: nat): seq<T> {
    if |s| <= n then s else s[..n]
  }

  function ToSet<T(!new)>(s: seq<T>): (r: set<T>)
    ensures forall x :: x in r <==> x in s
  {
    set x | x in s
  }

  lemma {:induction false} NoDupsSize<T(!new)>(s: seq<T>)
    requires NoDups(s)
    ensures |ToSet(s)| == |s|
  {
    if s == [] {
      assert ToSet(s) == {};
    } else {
      var front, last := s[..|s| - 1], s[|s| - 1];
      NoDupsSize(front);
      assert last !in front;
      AddLast(front, last);
      assert front + [last] == s;
    }
  }

  lemma AddLast<T(!new)>(front: seq<T>, last: T)
    ensures ToSet(front + [last]) == ToSet(front) + {last}
  {
  }

  lemma {:induction false} SameSizeSubset<T>(a: set<T>, b: set<T>)
    requires a <= b && |a| == |b|
    ensures a == b
  {
    if a != b {
      var x :| x in b && x !in a;
      assert a <= b - {x};
      SubsetSize(a, b - {x});
    }
  }

  lemma {:induction false} SubsetSize<T>(a: set<T>, b: set<T>)
    requires a <= b
    ensures |a| <= |b|
  {
    if x :| x in a {
      SubsetSize(a - {x}, b - {x});
    }
  }

  lemma PrefixNoDups<T(!new)>(s: seq<T>, n: nat)
    requires NoDups(s)
    ensures NoDups(AtMost(s, n)) && forall x :: x in AtMost(s, n) ==> x in s
  {
  }

  lemma NoDupsConcat<T(!new)>(a: seq<T>, b: seq<T>)
    requires NoDups(a) && NoDups(b) && forall x :: x in b ==> x !in a
    ensures NoDups(a + b)
  {
    forall i, j | 0 <= i < j < |a + b|
      ensures (a + b)[i] != (a + b)[j]
    {
      if i < |a| <= j {
        assert (a + b)[i] in a && (a + b)[j] in b;
      }
    }
  }

  lemma ConsConcat<T>(a: T, x: seq<T>, y: seq<T>)
    ensures ([a] + x) + y == [a] + (x + y)
  {
  }

  lemma Assoc<T>(x: seq<T>, y: seq<T>, z: seq<T>)
    ensures (x + y) + z == x + (y + z)
  {
  }

  lemma ConcatHead<T>(a: seq<T>, b: seq<T>)
    requires a != []
    ensures (a + b)[0] == a[0] && (a + b)[1..] == a[1..] + b
  {
  }

  lemma TakeOfTail<T>(s: seq<T>, k: nat)
    requires 0 < k <= |s|
    ensures s[..k][1..] == s[1..][..k - 1] && s[..k][0] == s[0]
    ensures s[..k] == [s[0]] + s[1..][..k - 1]
  {
  }
}
