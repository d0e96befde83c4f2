/** The document-store update operators the controllers use, on the
    array fields they apply to:
      `$push`     is append (`s + [x]`, written inline),
      `$addToSet` is append-if-absent (AddToSet),
      `$pull`     removes every matching element (PullWhere, PullValue),
      `$set`      overwrites only the supplied fields (Overwrite). */
module UpdateOperators {
  import opened Common

  predicate NoDuplicates<T(==,!new)>(s: seq<T>) {
    forall i, j :: 0 <= i < j < |s| ==> s[i] != s[j]
  }

  /** `$addToSet`: x ends up in the array; it is appended only when absent. */
  function AddToSet<T(==,!new)>(s: seq<T>, x: T): (r: seq<T>)
    ensures x in r
    ensures forall y :: y in r <==> y in s || y == x
    ensures |s| <= |r| && r[..|s|] == s
    ensures |r| == if x in s then |s| else |s| + 1
    ensures NoDuplicates(s) ==> NoDuplicates(r)
  {
    if x in s then s else s + [x]
  }

  /** `$pull` with a condition: drop every element that matches `p`,
      keep the others. */
  function PullWhere<T(==,!new)>(s: seq<T>, p: T -> bool): (r: seq<T>)
    ensures |r| <= |s|
    ensures forall x :: x in r <==> x in s && !p(x)
  {
    if s == [] then []
    else (if p(s[0]) then [] else [s[0]]) + PullWhere(s[1..], p)
  }

  /** The number of elements of `s` that match `p`. */
  function CountWhere<T>(s: seq<T>, p: T -> bool): nat {
    if s == [] then 0
    else (if p(s[0]) then 1 else 0) + CountWhere(s[1..], p)
  }

  /** A pull shortens the array by exactly the number of matching elements. */
  lemma {:induction false} PullWhereLength<T(!new)>(s: seq<T>, p: T -> bool)
    ensures |PullWhere(s, p)| == |s| - CountWhere(s, p)
  {
    if s != [] {
      PullWhereLength(s[1..], p);
    }
  }

  /** A pull works element by element, so it distributes over
      concatenation: the kept elements stay in their relative order. */
  lemma {:induction false} PullWhereAppend<T(!new)>(a: seq<T>, b: seq<T>, p: T -> bool)
    ensures PullWhere(a + b, p) == PullWhere(a, p) + PullWhere(b, p)
  {
    if a == [] {
      assert a + b == b;
    } else {
      assert (a + b)[0] == a[0];
      assert (a + b)[1..] == a[1..] + b;
      PullWhereAppend(a[1..], b, p);
    }
  }

  /** When nothing matches, a pull leaves the array as it was. */
  lemma {:induction false} PullWhereNoMatch<T(!new)>(s: seq<T>, p: T -> bool)
    ensures (forall x :: x in s ==> !p(x)) ==> PullWhere(s, p) == s
  {
    if s != [] && forall x :: x in s ==> !p(x) {
      assert s[0] in s;
      assert forall x :: x in s[1..] ==> x in s;
      PullWhereNoMatch(s[1..], p);
      assert [s[0]] + s[1..] == s;
    }
  }

  /** Pulling twice with the same condition is pulling once. */
  lemma PullWhereIdempotent<T(!new)>(s: seq<T>, p: T -> bool)
    ensures PullWhere(PullWhere(s, p), p) == PullWhere(s, p)
  {
    PullWhereNoMatch(PullWhere(s, p), p);
  }

  /** `$pull` with a plain value: remove every occurrence of x. */
  function PullValue<T(==,!new)>(s: seq<T>, x: T): (r: seq<T>)
    ensures x !in r
    ensures forall y :: y in r <==> y in s && y != x
  {
    PullWhere(s, y => y == x)
  }

  /** Removing x twice is removing it once. */
  lemma PullValueIdempotent<T(!new)>(s: seq<T>, x: T)
    ensures PullValue(PullValue(s, x), x) == PullValue(s, x)
  {
    PullWhereIdempotent(s, y => y == x);
  }

  /** Adding x twice is adding it once. */
  lemma AddToSetIdempotent<T(!new)>(s: seq<T>, x: T)
    ensures AddToSet(AddToSet(s, x), x) == AddToSet(s, x)
  {
  }

  /** Removing x right after adding it gives what removing it alone
      gives; in particular, when x was absent the original array is
      restored. */
  lemma PullAfterAddToSet<T(!new)>(s: seq<T>, x: T)
    ensures PullValue(AddToSet(s, x), x) == PullValue(s, x)
    ensures x !in s ==> PullValue(AddToSet(s, x), x) == s
  {
    var p := y => y == x;
    if x !in s {
      PullWhereAppend(s, [x], p);
      assert PullWhere([x], p) == [];
      PullWhereNoMatch(s, p);
    }
  }

  /** `$set` on one field: the supplied value wins, otherwise the old one stays. */
  function Overwrite<T>(current: T, supplied: Option<T>): (r: T)
    ensures supplied.Some? ==> r == supplied.value
    ensures supplied.None? ==> r == current
  {
    if supplied.Some? then supplied.value else current
  }

  /** Two overwrites in a row equal one overwrite with the later value
      when it is supplied, else the earlier one. */
  lemma OverwriteTwice<T>(current: T, first: Option<T>, second: Option<T>)
    ensures Overwrite(Overwrite(current, first), second) == Overwrite(current, if second.Some? then second else first)
  {
  }
}
