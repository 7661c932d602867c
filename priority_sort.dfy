/** The listing's `result.sort((a, b) => (b.priority || 0) - (a.priority || 0))`
    (apps/api/src/routes/sale.ts:78): a stable sort by descending priority,
    done in place on the array of mapped rows. */
module PrioritySort {
  import opened Catalog

  /** Non-increasing by priority. */
  ghost predicate SortedByPriority(s: seq<SaleProduct>) {
    forall i, j :: 0 <= i < j < |s| ==> s[i].priority >= s[j].priority
  }

  /** `x` alone when its priority is `k`, nothing otherwise. */
  function Tie(x: SaleProduct, k: int): seq<SaleProduct> {
    if x.priority == k then [x] else []
  }

  /** The records of `s` whose priority is `k`, in the order `s` has them. */
  function WithPriority(s: seq<SaleProduct>, k: int): seq<SaleProduct> {
    if s == [] then [] else Tie(s[0], k) + WithPriority(s[1..], k)
  }

  /** Taking a priority class distributes over concatenation. */
  lemma {:induction false} WithPriorityAppend(a: seq<SaleProduct>, b: seq<SaleProduct>, k: int)
    ensures WithPriority(a + b, k) == WithPriority(a, k) + WithPriority(b, k)
  {
    if a == [] {
      assert a + b == b;
    } else {
      assert (a + b)[0] == a[0] && (a + b)[1..] == a[1..] + b;
      WithPriorityAppend(a[1..], b, k);
      calc {
        WithPriority(a + b, k);
        Tie(a[0], k) + WithPriority(a[1..] + b, k);
        Tie(a[0], k) + (WithPriority(a[1..], k) + WithPriority(b, k));
        (Tie(a[0], k) + WithPriority(a[1..], k)) + WithPriority(b, k);
      }
    }
  }

  /** A record is in its own priority class. */
  lemma {:induction false} WithPriorityHas(s: seq<SaleProduct>, i: nat)
    requires i < |s|
    ensures s[i] in WithPriority(s, s[i].priority)
  {
    if i > 0 {
      WithPriorityHas(s[1..], i - 1);
    }
  }

  /** A priority class holds only records of `s` with that priority. */
  lemma {:induction false} WithPriorityFrom(s: seq<SaleProduct>, k: int, y: SaleProduct)
    requires y in WithPriority(s, k)
    ensures y in s && y.priority == k
  {
    if s != [] && y !in Tie(s[0], k) {
      WithPriorityFrom(s[1..], k, y);
    }
  }

  /** Records of equal priority appear in `t` in the same relative order as in `s`. */
  ghost predicate KeepsTies(s: seq<SaleProduct>, t: seq<SaleProduct>) {
    forall k :: WithPriority(t, k) == WithPriority(s, k)
  }

  /** `x` placed after every record whose priority is at least its own. */
  function Insert(x: SaleProduct, s: seq<SaleProduct>): (r: seq<SaleProduct>)
    ensures |r| == |s| + 1
    ensures forall y :: y in r <==> y == x || y in s
  {
    if s == [] then [x]
    else if s[0].priority < x.priority then [x] + s
    else [s[0]] + Insert(x, s[1..])
  }

  /** The stable descending sort, as insertion of each record in input order. */
  function StableSort(s: seq<SaleProduct>): (r: seq<SaleProduct>)
    ensures |r| == |s|
    ensures forall y :: y in r <==> y in s
  {
    if s == [] then []
    else
      assert s == s[..|s| - 1] + [s[|s| - 1]];
      Insert(s[|s| - 1], StableSort(s[..|s| - 1]))
  }

  /** `Insert` adds exactly `x`. */
  lemma {:induction false} InsertPermutes(x: SaleProduct, s: seq<SaleProduct>)
    ensures multiset(Insert(x, s)) == multiset(s) + multiset{x}
  {
    if s != [] && s[0].priority >= x.priority {
      InsertPermutes(x, s[1..]);
      assert s == [s[0]] + s[1..];
    }
  }

  /** `Insert` keeps a sequence sorted by descending priority. */
  lemma {:induction false} InsertSorted(x: SaleProduct, s: seq<SaleProduct>)
    requires SortedByPriority(s)
    ensures SortedByPriority(Insert(x, s))
  {
    if s != [] && s[0].priority >= x.priority {
      InsertSorted(x, s[1..]);
      InsertBelow(x, s[1..], s[0].priority);
      SortedCons(s[0], Insert(x, s[1..]));
    }
  }

  /** A bound on every priority of `s` and on `x` bounds every priority of `Insert(x, s)`. */
  lemma {:induction false} InsertBelow(x: SaleProduct, s: seq<SaleProduct>, bound: int)
    requires x.priority <= bound
    requires forall i :: 0 <= i < |s| ==> s[i].priority <= bound
    ensures forall i :: 0 <= i < |Insert(x, s)| ==> Insert(x, s)[i].priority <= bound
  {
    if s != [] && s[0].priority >= x.priority {
      InsertBelow(x, s[1..], bound);
    }
  }

  /** A sorted sequence stays sorted under a head ranked at least as high as all of it. */
  lemma SortedCons(h: SaleProduct, t: seq<SaleProduct>)
    requires SortedByPriority(t)
    requires forall i :: 0 <= i < |t| ==> t[i].priority <= h.priority
    ensures SortedByPriority([h] + t)
  {
  }

  /** Inserting `x` into a sorted sequence adds it at the end of its own
      priority class and touches no other class. */
  lemma {:induction false} InsertKeepsTies(x: SaleProduct, s: seq<SaleProduct>, k: int)
    requires SortedByPriority(s)
    ensures WithPriority(Insert(x, s), k) == WithPriority(s, k) + Tie(x, k)
  {
    if s == [] {
    } else if s[0].priority < x.priority {
      InsertAheadKeepsTies(x, s, k);
    } else {
      var t := Insert(x, s[1..]);
      InsertKeepsTies(x, s[1..], k);
      assert ([s[0]] + t)[0] == s[0] && ([s[0]] + t)[1..] == t;
      calc {
        WithPriority(Insert(x, s), k);
        WithPriority([s[0]] + t, k);
        Tie(s[0], k) + WithPriority(t, k);
        Tie(s[0], k) + (WithPriority(s[1..], k) + Tie(x, k));
        (Tie(s[0], k) + WithPriority(s[1..], k)) + Tie(x, k);
        WithPriority(s, k) + Tie(x, k);
      }
    }
  }

  /** `x` placed in front of a sorted sequence whose records all rank below
      it ends its own priority class, which was empty before. */
  lemma InsertAheadKeepsTies(x: SaleProduct, s: seq<SaleProduct>, k: int)
    requires SortedByPriority(s) && s != [] && s[0].priority < x.priority
    ensures WithPriority([x] + s, k) == WithPriority(s, k) + Tie(x, k)
  {
    WithPriorityAppend([x], s, k);
    assert WithPriority([x], k) == Tie(x, k) by {
      assert [x][1..] == [];
    }
    if x.priority == k {
      ClassAboveHeadEmpty(s, k);
    }
  }

  /** A sorted sequence holds no record ranked above its first. */
  lemma ClassAboveHeadEmpty(s: seq<SaleProduct>, k: int)
    requires SortedByPriority(s) && s != [] && s[0].priority < k
    ensures WithPriority(s, k) == []
  {
    if WithPriority(s, k) != [] {
      var y := WithPriority(s, k)[0];
      WithPriorityFrom(s, k, y);
      assert false;
    }
  }

  /** The stable sort orders by descending priority, loses and adds nothing,
      and keeps records of equal priority in input order. */
  lemma {:induction false} StableSortCorrect(s: seq<SaleProduct>)
    ensures SortedByPriority(StableSort(s))
    ensures multiset(StableSort(s)) == multiset(s)
    ensures KeepsTies(s, StableSort(s))
  {
    if s != [] {
      var init, last := s[..|s| - 1], s[|s| - 1];
      assert s == init + [last];
      StableSortCorrect(init);
      InsertSorted(last, StableSort(init));
      InsertPermutes(last, StableSort(init));
      forall k ensures WithPriority(StableSort(s), k) == WithPriority(s, k) {
        InsertKeepsTies(last, StableSort(init), k);
        WithPriorityAppend(init, [last], k);
      }
    }
  }

  /** Sortedness and tie order leave no choice: every stable descending sort
      of the same input, whatever its algorithm, returns this sequence. */
  lemma {:induction false} StableSortUnique(a: seq<SaleProduct>, b: seq<SaleProduct>)
    requires SortedByPriority(a) && SortedByPriority(b)
    requires KeepsTies(a, b)
    ensures a == b
  {
    if a == [] {
      if b != [] {
        WithPriorityHas(b, 0);
        assert false;
      }
    } else if b == [] {
      WithPriorityHas(a, 0);
      assert false;
    } else {
      SameHead(a, b);
      SameTailTies(a, b);
      StableSortUnique(a[1..], b[1..]);
      assert a == [a[0]] + a[1..] && b == [b[0]] + b[1..];
    }
  }

  /** Two sorted sequences with the same priority classes start with the same record. */
  lemma SameHead(a: seq<SaleProduct>, b: seq<SaleProduct>)
    requires a != [] && b != []
    requires SortedByPriority(a) && SortedByPriority(b)
    requires KeepsTies(a, b)
    ensures a[0] == b[0]
  {
    HeadPriority(a, b);
    HeadPriority(b, a);
    var k := a[0].priority;
    assert WithPriority(a, k) == [a[0]] + WithPriority(a[1..], k);
    assert WithPriority(b, k) == [b[0]] + WithPriority(b[1..], k);
    assert WithPriority(b, k) == WithPriority(a, k);
    assert a[0] == WithPriority(a, k)[0] == b[0];
  }

  /** Dropping a common first record keeps the priority classes equal. */
  lemma SameTailTies(a: seq<SaleProduct>, b: seq<SaleProduct>)
    requires a != [] && b != [] && a[0] == b[0]
    requires KeepsTies(a, b)
    ensures KeepsTies(a[1..], b[1..])
  {
    forall j ensures WithPriority(b[1..], j) == WithPriority(a[1..], j) {
      var head := Tie(a[0], j);
      assert WithPriority(b, j) == WithPriority(a, j);
      assert WithPriority(a[1..], j) == (head + WithPriority(a[1..], j))[|head|..];
      assert WithPriority(b[1..], j) == (head + WithPriority(b[1..], j))[|head|..];
    }
  }

  /** Two sorted sequences with the same priority classes start with the same priority. */
  lemma HeadPriority(a: seq<SaleProduct>, b: seq<SaleProduct>)
    requires a != [] && b != []
    requires SortedByPriority(a) && SortedByPriority(b)
    requires KeepsTies(a, b)
    ensures a[0].priority <= b[0].priority
  {
    var k := a[0].priority;
    WithPriorityHas(a, 0);
    assert WithPriority(b, k) == WithPriority(a, k);
    var y := a[0];
    WithPriorityFrom(b, k, y);
    var j :| 0 <= j < |b| && b[j] == y;
    assert b[0].priority >= b[j].priority;
  }

  /** In a sorted sequence, `Insert` puts `x` at the first position holding a
      lower priority than its own. */
  lemma {:induction false} InsertAt(x: SaleProduct, s: seq<SaleProduct>, j: nat)
    requires j <= |s|
    requires forall t :: 0 <= t < j ==> s[t].priority >= x.priority
    requires forall t :: j <= t < |s| ==> s[t].priority < x.priority
    ensures Insert(x, s) == s[..j] + [x] + s[j..]
  {
    if j == 0 {
      assert s[..0] == [] && s[0..] == s;
    } else {
      InsertAt(x, s[1..], j - 1);
      assert s[..j] == [s[0]] + s[1..][..j - 1];
      assert s[j..] == s[1..][j - 1..];
    }
  }

  /** Where the inner loop of the sort stops, `Insert` puts `x`: after the
      records ranked at least as high, before those ranked lower. */
  lemma InsertPoint(x: SaleProduct, s: seq<SaleProduct>, j: nat)
    requires SortedByPriority(s) && j <= |s|
    requires j > 0 ==> s[j - 1].priority >= x.priority
    requires forall t :: j <= t < |s| ==> s[t].priority < x.priority
    ensures Insert(x, s) == s[..j] + [x] + s[j..]
  {
    forall t | 0 <= t < j ensures s[t].priority >= x.priority {
      assert s[t].priority >= s[j - 1].priority;
    }
    InsertAt(x, s, j);
  }

  /** A sequence that agrees with `s` before `j`, holds `x` at `j` and `s`
      shifted by one after it is `s` with `x` inserted at `j`. */
  lemma Shifted(r: seq<SaleProduct>, s: seq<SaleProduct>, x: SaleProduct, j: nat)
    requires j <= |s| && |r| == |s| + 1
    requires forall t :: 0 <= t < j ==> r[t] == s[t]
    requires r[j] == x
    requires forall t :: j < t < |r| ==> r[t] == s[t - 1]
    ensures r == s[..j] + [x] + s[j..]
  {
  }

  /** What the inner loop of the sort leaves, with `x` in the gap at `j`, is
      `Insert(x, s)`. */
  lemma InsertedAtGap(r: seq<SaleProduct>, s: seq<SaleProduct>, x: SaleProduct, j: nat)
    requires SortedByPriority(s) && j <= |s| && |r| == |s| + 1
    requires forall t :: 0 <= t < j ==> r[t] == s[t]
    requires r[j] == x
    requires forall t :: j < t < |r| ==> r[t] == s[t - 1]
    requires j > 0 ==> s[j - 1].priority >= x.priority
    requires forall t :: j <= t < |s| ==> s[t].priority < x.priority
    ensures r == Insert(x, s)
  {
    InsertPoint(x, s, j);
    Shifted(r, s, x, j);
  }

  /** Sorts `a` in place, stably, by descending priority. */
  method SortByPriority(a: array<SaleProduct>)
    modifies a
    ensures a[..] == StableSort(old(a[..]))
    ensures SortedByPriority(a[..]) && multiset(a[..]) == multiset(old(a[..]))
    ensures KeepsTies(old(a[..]), a[..])
  {
    ghost var input := a[..];
    var i := 0;
    while i < a.Length
      invariant 0 <= i <= a.Length
      invariant a[..i] == StableSort(input[..i])
      invariant a[i..] == input[i..]
    {
      assert a[i] == input[i] && a[i + 1..] == input[i + 1..] by {
        assert input[i..] == [input[i]] + input[i + 1..];
      }
      StableSortCorrect(input[..i]);
      InsertLast(a, i);
      StableSortStep(input, i);
      i := i + 1;
    }
    assert input[..a.Length] == input;
    StableSortCorrect(input);
  }

  /** The sort of a prefix one record longer inserts that record into the
      sort of the shorter prefix. */
  lemma StableSortStep(s: seq<SaleProduct>, i: nat)
    requires i < |s|
    ensures StableSort(s[..i + 1]) == Insert(s[i], StableSort(s[..i]))
  {
    assert s[..i + 1][..i] == s[..i];
  }

  /** One step of the insertion sort: moves `a[i]` left past the records of
      lower priority in the sorted prefix `a[..i]`. */
  method InsertLast(a: array<SaleProduct>, i: nat)
    requires i < a.Length
    requires SortedByPriority(a[..i])
    modifies a
    ensures a[..i + 1] == Insert(old(a[i]), old(a[..i]))
    ensures a[i + 1..] == old(a[i + 1..])
  {
    ghost var done := a[..i];
    var x := a[i];
    var j := OpenGap(a, i, x);
    a[j] := x;
    InsertedAtGap(a[..i + 1], done, x, j);
    assert a[i + 1..] == old(a[i + 1..]);
  }

  /** Shifts the trailing records of `a[..i]` that rank below `x` one place
      right, overwriting `a[i]`, and returns the index of the gap left. */
  method OpenGap(a: array<SaleProduct>, i: nat, x: SaleProduct) returns (j: nat)
    requires i < a.Length
    modifies a
    ensures j <= i
    ensures forall t :: 0 <= t < j ==> a[t] == old(a[t])
    ensures forall t :: j < t <= i ==> a[t] == old(a[t - 1])
    ensures forall t :: i < t < a.Length ==> a[t] == old(a[t])
    ensures forall t :: j <= t < i ==> old(a[t]).priority < x.priority
    ensures j > 0 ==> old(a[j - 1]).priority >= x.priority
  {
    j := i;
    while j > 0 && a[j - 1].priority < x.priority
      invariant j <= i
      invariant forall t :: 0 <= t < j ==> a[t] == old(a[t])
      invariant forall t :: j < t <= i ==> a[t] == old(a[t - 1])
      invariant forall t :: i < t < a.Length ==> a[t] == old(a[t])
      invariant forall t :: j <= t < i ==> old(a[t]).priority < x.priority
    {
      a[j] := a[j - 1];
      j := j - 1;
    }
  }
}
