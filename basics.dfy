/**
 * Small generic helpers shared by the rule engine: an optional value, the
 * "no duplicates" property of the session's ball lists, and the two list
 * operations the session performs on them (queue rotation and removal at an
 * index).
 */
module Basics {

  datatype Option<T> = None | Some(value: T)

  /** No element occurs twice (the pocketed and hit-out lists, the player queue). */
  predicate NoDuplicates<T(==)>(s: seq<T>)
    decreases |s|
  {
    s == [] || (s[0] !in s[1..] && NoDuplicates(s[1..]))
  }

  /** The same property, stated on positions: two positions hold different elements. */
  lemma {:induction false} NoDuplicatesAt<T>(s: seq<T>)
    ensures NoDuplicates(s) <==> forall i, j :: 0 <= i < j < |s| ==> s[i] != s[j]
    decreases |s|
  {
    if s != [] {
      NoDuplicatesAt(s[1..]);
      if NoDuplicates(s) {
        forall i, j | 0 <= i < j < |s|
          ensures s[i] != s[j]
        {
          assert s[j] == s[1..][j - 1];
          if i > 0 {
            assert s[i] == s[1..][i - 1];
          }
        }
      }
      if forall i, j :: 0 <= i < j < |s| ==> s[i] != s[j] {
        forall i, j | 0 <= i < j < |s[1..]|
          ensures s[1..][i] != s[1..][j]
        {
          assert s[1..][i] == s[i + 1] && s[1..][j] == s[j + 1];
        }
      }
    }
  }

  /** Appending an element not yet present keeps the list duplicate-free. */
  lemma AppendKeepsNoDuplicates<T>(s: seq<T>, x: T)
    requires NoDuplicates(s) && x !in s
    ensures NoDuplicates(s + [x])
  {
    NoDuplicatesAt(s);
    NoDuplicatesAt(s + [x]);
    var r := s + [x];
    forall i, j | 0 <= i < j < |r|
      ensures r[i] != r[j]
    {
      assert r[i] == s[i];
      if j < |s| {
        assert r[j] == s[j];
      }
    }
  }

  /**
   * One turn change of `Queue<Player>`: `Dequeue` the front and `Enqueue` it
   * again. The queue keeps its length and its elements, the front goes to the
   * back and the others keep their relative order.
   */
  function Rotate<T>(q: seq<T>): (r: seq<T>)
    requires q != []
    ensures |r| == |q|
    ensures r[|r| - 1] == q[0]
    ensures forall i :: 0 <= i < |q| - 1 ==> r[i] == q[i + 1]
    ensures multiset(r) == multiset(q)
  {
    var r := q[1..] + [q[0]];
    assert q == [q[0]] + q[1..];
    r
  }

  /** A rotation keeps exactly the same elements. */
  lemma RotateSameMembers<T>(q: seq<T>)
    requires q != []
    ensures forall x :: x in Rotate(q) <==> x in q
  {
    assert multiset(Rotate(q)) == multiset(q);
  }

  lemma RotateKeepsNoDuplicates<T>(q: seq<T>)
    requires q != [] && NoDuplicates(q)
    ensures NoDuplicates(Rotate(q))
  {
    var r := Rotate(q);
    NoDuplicatesAt(q);
    NoDuplicatesAt(r);
    forall i, j | 0 <= i < j < |r|
      ensures r[i] != r[j]
    {
      if j == |r| - 1 {
        assert r[i] == q[i + 1] && r[j] == q[0];
      } else {
        assert r[i] == q[i + 1] && r[j] == q[j + 1];
      }
    }
  }

  /** `s` with every occurrence of `x` dropped, the other elements in their order (`List.Remove` on a list without duplicates). */
  function Without<T(==)>(s: seq<T>, x: T): (r: seq<T>)
    ensures |r| <= |s|
    ensures forall i :: 0 <= i < |r| ==> r[i] != x
    decreases |s|
  {
    if s == [] then []
    else if s[0] == x then Without(s[1..], x)
    else [s[0]] + Without(s[1..], x)
  }

  /** Dropping `x` removes exactly `x` and keeps a list duplicate-free. */
  lemma {:induction false} WithoutMembership<T>(s: seq<T>, x: T)
    ensures forall y :: y in Without(s, x) <==> y in s && y != x
    ensures NoDuplicates(s) ==> NoDuplicates(Without(s, x))
    decreases |s|
  {
    if s != [] {
      WithoutMembership(s[1..], x);
      assert s == [s[0]] + s[1..];
      if s[0] != x {
        var r := Without(s, x);
        assert r[0] == s[0] && r[1..] == Without(s[1..], x);
      }
    }
  }

  /** `List.Remove` of the element found at index `i`. */
  function RemoveAt<T>(s: seq<T>, i: nat): (r: seq<T>)
    requires i < |s|
    ensures |r| == |s| - 1
    ensures forall j :: 0 <= j < i ==> r[j] == s[j]
    ensures forall j :: i <= j < |r| ==> r[j] == s[j + 1]
  {
    s[..i] + s[i + 1..]
  }

  /** Removing an element adds nothing. */
  lemma RemoveAtSubset<T>(s: seq<T>, i: nat)
    requires i < |s|
    ensures forall x :: x in RemoveAt(s, i) ==> x in s
  {
    forall x | x in RemoveAt(s, i)
      ensures x in s
    {
      var j :| 0 <= j < |s| - 1 && RemoveAt(s, i)[j] == x;
      if j < i { assert s[j] == x; } else { assert s[j + 1] == x; }
    }
  }

  /** Removing one element of a duplicate-free list removes exactly that element. */
  lemma RemoveAtMembership<T>(s: seq<T>, i: nat)
    requires i < |s| && NoDuplicates(s)
    ensures NoDuplicates(RemoveAt(s, i))
    ensures forall x :: x in RemoveAt(s, i) <==> x in s && x != s[i]
  {
    var r := RemoveAt(s, i);
    NoDuplicatesAt(s);
    NoDuplicatesAt(r);
    forall j, k | 0 <= j < k < |r|
      ensures r[j] != r[k]
    {
      var j' := if j < i then j else j + 1;
      var k' := if k < i then k else k + 1;
      assert r[j] == s[j'] && r[k] == s[k'];
    }
    forall x
      ensures x in r <==> x in s && x != s[i]
    {
      if x in r {
        var j :| 0 <= j < |r| && r[j] == x;
        if j < i { assert s[j] == x; } else { assert s[j + 1] == x; }
      }
      if x in s && x != s[i] {
        var j :| 0 <= j < |s| && s[j] == x;
        if j < i { assert r[j] == x; } else { assert j > i && r[j - 1] == x; }
      }
    }
  }
}
