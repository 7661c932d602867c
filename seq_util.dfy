/** Sequence combinators used to state the catalog join and the sort. */
module SeqUtil {

  /** The elements of `s` that satisfy `f`, in their original order. */
  function Filter<T(!new)>(f: T -> bool, s: seq<T>): (r: seq<T>)
    ensures |r| <= |s|
    ensures forall x :: x in r <==> x in s && f(x)
    ensures forall x :: x in r ==> f(x)
  {
    if s == [] then [] else (if f(s[0]) then [s[0]] else []) + Filter(f, s[1..])
  }

  /** Nothing in `s` satisfies `f` exactly when the filtered sequence is empty. */
  lemma {:induction false} FilterEmpty<T(!new)>(f: T -> bool, s: seq<T>)
    ensures Filter(f, s) == [] <==> forall x :: x in s ==> !f(x)
  {
    if s != [] {
      FilterEmpty(f, s[1..]);
    }
  }

  /** Filtering distributes over concatenation. */
  lemma {:induction false} FilterAppend<T(!new)>(f: T -> bool, a: seq<T>, b: seq<T>)
    ensures Filter(f, a + b) == Filter(f, a) + Filter(f, b)
  {
    if a == [] {
      assert a + b == b;
    } else {
      assert (a + b)[0] == a[0] && (a + b)[1..] == a[1..] + b;
      FilterAppend(f, a[1..], b);
    }
  }

  /** A filter every element passes keeps the whole sequence. */
  lemma {:induction false} FilterAll<T(!new)>(f: T -> bool, s: seq<T>)
    requires forall x :: x in s ==> f(x)
    ensures Filter(f, s) == s
  {
    if s != [] {
      FilterAll(f, s[1..]);
      assert s == [s[0]] + s[1..];
    }
  }

  /** When no two elements of `s` both satisfy `f`, at most one survives the filter. */
  lemma {:induction false} FilterAtMostOne<T(!new)>(f: T -> bool, s: seq<T>)
    requires forall i, j :: 0 <= i < j < |s| && f(s[i]) ==> !f(s[j])
    ensures |Filter(f, s)| <= 1
  {
    if s != [] {
      FilterAtMostOne(f, s[1..]);
      if f(s[0]) {
        forall y | y in s[1..] ensures !f(y) {
          var k :| 0 <= k < |s[1..]| && s[1..][k] == y;
          assert s[k + 1] == y;
        }
        FilterEmpty(f, s[1..]);
      }
    }
  }

  /** Two sequences holding the same elements as often have as many elements satisfying `f`. */
  lemma {:induction false} FilterCountPermutation<T(!new)>(f: T -> bool, a: seq<T>, b: seq<T>)
    requires multiset(a) == multiset(b)
    ensures |Filter(f, a)| == |Filter(f, b)|
    decreases |a|
  {
    if a != [] {
      var x := a[0];
      assert x in multiset(b);
      var j :| 0 <= j < |b| && b[j] == x;
      var rest := b[..j] + b[j + 1..];
      RemoveAt(b, j);
      assert multiset(a[1..]) == multiset(a) - multiset{x} by {
        assert a == [x] + a[1..];
      }
      FilterCountPermutation(f, a[1..], rest);
      FilterRemoveAt(f, b, j);
      assert a == [x] + a[1..];
      FilterAppend(f, [x], a[1..]);
    }
  }

  /** Dropping the element at `j` takes exactly one copy of it out of the multiset. */
  lemma RemoveAt<T>(b: seq<T>, j: nat)
    requires j < |b|
    ensures multiset(b[..j] + b[j + 1..]) == multiset(b) - multiset{b[j]}
  {
    assert b == b[..j] + ([b[j]] + b[j + 1..]);
    assert multiset(b) == multiset(b[..j]) + multiset{b[j]} + multiset(b[j + 1..]);
  }

  /** The elements of `b` satisfying `f` are those of `b` without its `j`-th
      element, plus that element when it satisfies `f`. */
  lemma FilterRemoveAt<T(!new)>(f: T -> bool, b: seq<T>, j: nat)
    requires j < |b|
    ensures |Filter(f, b)| == |Filter(f, b[..j] + b[j + 1..])| + |Filter(f, [b[j]])|
  {
    assert b == b[..j] + ([b[j]] + b[j + 1..]);
    FilterAppend(f, b[..j], [b[j]] + b[j + 1..]);
    FilterAppend(f, [b[j]], b[j + 1..]);
    FilterAppend(f, b[..j], b[j + 1..]);
  }

  /** `f` applied to every element of `xs`, the results concatenated in order:
      the nested loop of a relational join. */
  function FlatMap<A(!new), B(!new)>(xs: seq<A>, f: A -> seq<B>): (r: seq<B>)
    ensures forall y :: y in r <==> exists x :: x in xs && y in f(x)
  {
    if xs == [] then [] else f(xs[0]) + FlatMap(xs[1..], f)
  }

  /** A flat-map whose function yields one element per input has one element per input. */
  lemma {:induction false} FlatMapSingletons<A(!new), B(!new)>(xs: seq<A>, f: A -> seq<B>)
    requires forall x :: x in xs ==> |f(x)| == 1
    ensures |FlatMap(xs, f)| == |xs|
  {
    if xs != [] {
      FlatMapSingletons(xs[1..], f);
    }
  }
}
