/**
  TypeStringTupleComapere, the equality comparer on Tuple<Type, string> that
  the schema generator's callers use with Enumerable.Distinct to drop repeated
  (type full name, property name) pairs, keeping each first occurrence.
 */
module TypeStringTupleComparer {
  import opened Wrappers
  import opened QueryModel

  /**
    TypeStringTupleComapere.Equals on possibly null tuples.  With both
    arguments null the source reaches `x.Item1` on a null reference.
   */
  function Equals(x: Option<Field>, y: Option<Field>): (r: Result<bool, Error>)
    ensures x.Some? && y.Some? ==> r == Success(x.value == y.value)
    ensures x.Some? != y.Some? ==> r == Success(false)
    ensures x.None? && y.None? ==> r == Failure(NullReference)
  {
    if x.None? && y.Some? then Success(false)
    else if y.None? && x.Some? then Success(false)
    else if x.None? || y.None? then Failure(NullReference)
    else Success(x.value.typeName == y.value.typeName && x.value.name == y.value.name)
  }

  /** On non-null tuples the comparer is an equivalence relation. */
  lemma EqualsIsEquivalenceOnTuples(a: Field, b: Field, c: Field)
    ensures Equals(Some(a), Some(a)) == Success(true)
    ensures Equals(Some(a), Some(b)) == Equals(Some(b), Some(a))
    ensures Equals(Some(a), Some(b)) == Success(true) && Equals(Some(b), Some(c)) == Success(true)
      ==> Equals(Some(a), Some(c)) == Success(true)
  {
  }

  /** Some element already yielded is equal, under the comparer, to `x`. */
  predicate AlreadyYielded(yielded: seq<Field>, x: Field) {
    exists f :: f in yielded && Equals(Some(f), Some(x)) == Success(true)
  }

  /**
    Enumerable.Distinct with this comparer: walk the input in order and yield
    each element that equals none yielded before it.
   */
  function Distinct(s: seq<Field>): seq<Field> {
    if s == [] then []
    else
      var yielded := Distinct(s[..|s| - 1]);
      if AlreadyYielded(yielded, s[|s| - 1]) then yielded else yielded + [s[|s| - 1]]
  }

  predicate NoDuplicates(s: seq<Field>) {
    forall i, j :: 0 <= i < j < |s| ==> s[i] != s[j]
  }

  /** The first position at which `x` occurs in `s`. */
  function IndexOf(s: seq<Field>, x: Field): (k: nat)
    requires x in s
    ensures k < |s| && s[k] == x && x !in s[..k]
  {
    if x in s[..|s| - 1] then IndexOf(s[..|s| - 1], x) else |s| - 1
  }

  /**
    Distinct keeps exactly the elements of its input, each once, in the order
    of their first occurrences.  These three facts determine its result.
   */
  lemma {:induction false} DistinctKeepsFirstOccurrences(s: seq<Field>)
    ensures forall x :: x in Distinct(s) <==> x in s
    ensures NoDuplicates(Distinct(s))
    ensures forall i, j :: 0 <= i < j < |Distinct(s)| ==> IndexOf(s, Distinct(s)[i]) < IndexOf(s, Distinct(s)[j])
  {
    if s != [] {
      var prefix := s[..|s| - 1];
      var last := s[|s| - 1];
      assert s == prefix + [last];
      DistinctKeepsFirstOccurrences(prefix);
      var d := Distinct(prefix);
      assert AlreadyYielded(d, last) <==> last in d by {
        if last in d {
          EqualsIsEquivalenceOnTuples(last, last, last);
        }
      }
      forall x | x in prefix
        ensures IndexOf(s, x) == IndexOf(prefix, x)
      {
      }
      if last !in d {
        assert last !in prefix;
        assert IndexOf(s, last) == |s| - 1;
        forall i | 0 <= i < |d|
          ensures IndexOf(s, Distinct(s)[i]) < IndexOf(s, last)
        {
          assert Distinct(s)[i] == d[i] && d[i] in prefix;
        }
      }
    }
  }

  /** The first element of a non-empty input always survives, in first place. */
  lemma DistinctKeepsHead(s: seq<Field>)
    requires s != []
    ensures Distinct(s) != [] && Distinct(s)[0] == s[0]
  {
    DistinctKeepsFirstOccurrences(s);
    var d := Distinct(s);
    assert s[0] in d;
    assert IndexOf(s, s[0]) == 0 by { assert s[..0] == []; }
  }

  /** A sequence without repetitions passes through Distinct unchanged. */
  lemma {:induction false} DistinctOfDuplicateFree(s: seq<Field>)
    requires NoDuplicates(s)
    ensures Distinct(s) == s
  {
    if s != [] {
      var prefix := s[..|s| - 1];
      DistinctOfDuplicateFree(prefix);
    }
  }

  /** Distinct is idempotent. */
  lemma DistinctIdempotent(s: seq<Field>)
    ensures Distinct(Distinct(s)) == Distinct(s)
  {
    DistinctKeepsFirstOccurrences(s);
    DistinctOfDuplicateFree(Distinct(s));
  }
}
