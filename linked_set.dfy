/**
  A java.util.LinkedHashSet as a sequence without duplicates: iteration order is
  insertion order, and adding an element that is already present changes nothing.
*/
module LinkedSet {

  /** The elements of a sequence, as a set. */
  function Elements<T>(s: seq<T>): set<T> {
    set x | x in s
  }

  predicate Distinct<T(==)>(s: seq<T>) {
    forall i, j :: 0 <= i < j < |s| ==> s[i] != s[j]
  }

  /** LinkedHashSet.add: appends x unless it is already present. */
  function Add<T(==)>(s: seq<T>, x: T): (r: seq<T>)
    ensures Elements(r) == Elements(s) + {x}
    ensures Distinct(s) ==> Distinct(r)
    ensures s <= r
    ensures x in s ==> r == s
    ensures x !in s ==> r == s + [x]
  {
    if x in s then s else s + [x]
  }

  /** LinkedHashSet.addAll: adds the elements of xs one by one, in order. */
  function AddAll<T(==)>(s: seq<T>, xs: seq<T>): (r: seq<T>)
    ensures Elements(r) == Elements(s) + Elements(xs)
    ensures Distinct(s) ==> Distinct(r)
    ensures s <= r
    decreases |xs|
  {
    if xs == [] then s
    else
      assert Elements(xs) == {xs[0]} + Elements(xs[1..]) by {
        assert xs == [xs[0]] + xs[1..];
      }
      AddAll(Add(s, xs[0]), xs[1..])
  }

  /** Adding all of xs and then x is adding all of xs + [x]. */
  lemma {:induction false} AddAllSnoc<T>(s: seq<T>, xs: seq<T>, x: T)
    ensures AddAll(s, xs + [x]) == Add(AddAll(s, xs), x)
    decreases |xs|
  {
    if xs == [] {
      assert [x][1..] == [];
    } else {
      assert (xs + [x])[0] == xs[0];
      assert (xs + [x])[1..] == xs[1..] + [x];
      AddAllSnoc(Add(s, xs[0]), xs[1..], x);
    }
  }

  /** Adding distinct elements that are all absent appends them in their own order. */
  lemma {:induction false} AddAllDisjoint<T>(s: seq<T>, xs: seq<T>)
    requires Distinct(xs) && Elements(s) !! Elements(xs)
    ensures AddAll(s, xs) == s + xs
    decreases |xs|
  {
    if xs != [] {
      var head, tail := xs[0], xs[1..];
      DisjointStep(s, xs);
      AddAllAbsentHead(s, xs);
      AddAllDisjoint(s + [head], tail);
      ConcatHeadTail(s, xs);
    }
  }

  /** Moving the first element of a distinct xs that is disjoint from s over to s keeps both properties. */
  lemma DisjointStep<T>(s: seq<T>, xs: seq<T>)
    requires xs != [] && Distinct(xs) && Elements(s) !! Elements(xs)
    ensures xs[0] !in s
    ensures Distinct(xs[1..]) && Elements(s + [xs[0]]) !! Elements(xs[1..])
  {
    assert xs[0] in Elements(xs);
    forall k | 0 <= k < |xs[1..]| ensures xs[1..][k] !in Elements(s + [xs[0]]) {
      assert xs[1..][k] == xs[k + 1] && xs[k + 1] in Elements(xs);
    }
  }

  /** An absent first element is appended before the rest is added. */
  lemma AddAllAbsentHead<T>(s: seq<T>, xs: seq<T>)
    requires xs != [] && xs[0] !in s
    ensures AddAll(s, xs) == AddAll(s + [xs[0]], xs[1..])
  {
  }

  /** Appending the head and then the tail of xs is appending xs. */
  lemma ConcatHeadTail<T>(s: seq<T>, xs: seq<T>)
    requires xs != []
    ensures s + [xs[0]] + xs[1..] == s + xs
  {
    assert xs == [xs[0]] + xs[1..];
  }

  /** Adding elements that are all present already changes nothing. */
  lemma {:induction false} AddAllPresent<T>(s: seq<T>, xs: seq<T>)
    requires Elements(xs) <= Elements(s)
    ensures AddAll(s, xs) == s
    decreases |xs|
  {
    if xs != [] {
      assert xs[0] in Elements(xs);
      assert Elements(xs[1..]) <= Elements(xs) by {
        forall y | y in Elements(xs[1..]) ensures y in Elements(xs) {
          var k :| 0 <= k < |xs[1..]| && xs[1..][k] == y;
          assert xs[k + 1] == y;
        }
      }
      AddAllPresent(s, xs[1..]);
    }
  }

  /** Adding the same elements twice is adding them once. */
  lemma AddAllIdempotent<T>(s: seq<T>, xs: seq<T>)
    ensures AddAll(AddAll(s, xs), xs) == AddAll(s, xs)
  {
    AddAllPresent(AddAll(s, xs), xs);
  }
}
