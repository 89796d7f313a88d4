/** List operations the JavaScript code builds from `new Set`, `filter`,
    `includes` and spread: deduplication in first-occurrence order, removal
    of every occurrence, and the add-if-absent / toggle updaters. */
module Lists {

  predicate NoDuplicates<T(==)>(xs: seq<T>) {
    forall i, j :: 0 <= i < j < |xs| ==> xs[i] != xs[j]
  }

  /** `Array.from(new Set(xs))`: a Set keeps the first insertion of each
      value, so the result is `xs` with later repetitions dropped. Defined
      by inserting the elements one at a time, as the Set constructor does. */
  function Dedup<T(==)>(xs: seq<T>): (r: seq<T>)
    ensures |r| <= |xs|
    decreases |xs|
  {
    if |xs| == 0 then []
    else
      var d := Dedup(xs[..|xs| - 1]);
      if xs[|xs| - 1] in d then d else d + [xs[|xs| - 1]]
  }

  /** Reference definition of deduplication read from left to right: keep an
      element exactly when it has not been kept before. */
  function FirstOccurrences<T(==)>(seen: seq<T>, xs: seq<T>): seq<T>
    decreases |xs|
  {
    if |xs| == 0 then []
    else if xs[0] in seen then FirstOccurrences(seen, xs[1..])
    else [xs[0]] + FirstOccurrences(seen + [xs[0]], xs[1..])
  }

  lemma {:induction false} DedupMembers<T>(xs: seq<T>)
    ensures forall x :: x in Dedup(xs) <==> x in xs
    decreases |xs|
  {
    if |xs| > 0 {
      var init := xs[..|xs| - 1];
      DedupMembers(init);
      assert xs == init + [xs[|xs| - 1]];
    }
  }

  lemma {:induction false} DedupNoDuplicates<T>(xs: seq<T>)
    ensures NoDuplicates(Dedup(xs))
    decreases |xs|
  {
    if |xs| > 0 {
      DedupNoDuplicates(xs[..|xs| - 1]);
    }
  }

  /** Adding one element at the end of the input appends it to the result
      exactly when it is new. */
  lemma DedupSnoc<T>(xs: seq<T>, x: T)
    ensures Dedup(xs + [x]) == if x in xs then Dedup(xs) else Dedup(xs) + [x]
  {
    assert (xs + [x])[..|xs + [x]| - 1] == xs;
    DedupMembers(xs);
  }

  /** Deduplicating `a + b` keeps the deduplicated `a` unchanged in front and
      then appends the first occurrences of the elements of `b` not seen yet. */
  lemma {:induction false} DedupAppend<T>(a: seq<T>, b: seq<T>)
    ensures Dedup(a + b) == Dedup(a) + FirstOccurrences(Dedup(a), b)
    decreases |b|
  {
    if |b| > 0 {
      var a' := a + [b[0]];
      assert a + b == a' + b[1..];
      DedupAppend(a', b[1..]);
      DedupSnoc(a, b[0]);
      DedupMembers(a);
      if b[0] in a {
        assert FirstOccurrences(Dedup(a), b) == FirstOccurrences(Dedup(a), b[1..]);
      } else {
        var rest := FirstOccurrences(Dedup(a) + [b[0]], b[1..]);
        assert FirstOccurrences(Dedup(a), b) == [b[0]] + rest;
        assert Dedup(a + b) == (Dedup(a) + [b[0]]) + rest;
        assert (Dedup(a) + [b[0]]) + rest == Dedup(a) + ([b[0]] + rest);
      }
    } else {
      assert a + b == a;
    }
  }

  /** The two definitions of deduplication agree. */
  lemma DedupIsFirstOccurrences<T>(xs: seq<T>)
    ensures Dedup(xs) == FirstOccurrences([], xs)
  {
    DedupAppend([], xs);
    assert [] + xs == xs;
  }

  /** The deduplicated prefix survives any extension: earlier entries keep
      their positions. */
  lemma DedupPrefix<T>(a: seq<T>, b: seq<T>)
    ensures Dedup(a) <= Dedup(a + b)
  {
    DedupAppend(a, b);
  }

  /** A list without repetitions is its own deduplication. */
  lemma {:induction false} DedupOfDistinct<T>(xs: seq<T>)
    requires NoDuplicates(xs)
    ensures Dedup(xs) == xs
    decreases |xs|
  {
    if |xs| > 0 {
      var init := xs[..|xs| - 1];
      DedupOfDistinct(init);
      DedupMembers(init);
    }
  }

  /** `xs.filter(y => y !== x)`: every occurrence of `x` removed, the rest in
      order. */
  function Without<T(==)>(xs: seq<T>, x: T): (r: seq<T>)
    ensures |r| <= |xs|
  {
    if |xs| == 0 then []
    else if xs[0] == x then Without(xs[1..], x)
    else [xs[0]] + Without(xs[1..], x)
  }

  lemma {:induction false} WithoutMembers<T>(xs: seq<T>, x: T)
    ensures forall y :: y in Without(xs, x) <==> y in xs && y != x
  {
    if |xs| > 0 {
      WithoutMembers(xs[1..], x);
      assert xs == [xs[0]] + xs[1..];
    }
  }

  lemma {:induction false} WithoutAbsent<T>(xs: seq<T>, x: T)
    requires x !in xs
    ensures Without(xs, x) == xs
  {
    if |xs| > 0 {
      WithoutAbsent(xs[1..], x);
      assert xs == [xs[0]] + xs[1..];
    }
  }

  lemma {:induction false} WithoutAppend<T>(a: seq<T>, b: seq<T>, x: T)
    ensures Without(a + b, x) == Without(a, x) + Without(b, x)
  {
    if |a| > 0 {
      WithoutAppend(a[1..], b, x);
      assert (a + b)[1..] == a[1..] + b;
    } else {
      assert a + b == b;
    }
  }

  lemma {:induction false} WithoutNoDuplicates<T>(xs: seq<T>, x: T)
    requires NoDuplicates(xs)
    ensures NoDuplicates(Without(xs, x))
  {
    if |xs| > 0 {
      assert NoDuplicates(xs[1..]) by {
        forall i, j | 0 <= i < j < |xs[1..]| ensures xs[1..][i] != xs[1..][j] {
          assert xs[1..][i] == xs[i + 1] && xs[1..][j] == xs[j + 1];
        }
      }
      assert xs[0] !in xs[1..] by {
        forall k | 0 <= k < |xs[1..]| ensures xs[1..][k] != xs[0] {
          assert xs[1..][k] == xs[k + 1];
        }
      }
      WithoutNoDuplicates(xs[1..], x);
      WithoutMembers(xs[1..], x);
    }
  }

  /** Removing twice is removing once. */
  lemma WithoutIdempotent<T>(xs: seq<T>, x: T)
    ensures Without(Without(xs, x), x) == Without(xs, x)
  {
    WithoutMembers(xs, x);
    WithoutAbsent(Without(xs, x), x);
  }

  /** `if (!xs.includes(x)) xs.push(x)`. */
  function AddedOnce<T(==)>(xs: seq<T>, x: T): seq<T> {
    if x in xs then xs else xs + [x]
  }

  lemma AddedOnceProperties<T>(xs: seq<T>, x: T)
    ensures x in AddedOnce(xs, x)
    ensures forall y :: y in AddedOnce(xs, x) <==> y in xs || y == x
    ensures xs <= AddedOnce(xs, x)
    ensures NoDuplicates(xs) ==> NoDuplicates(AddedOnce(xs, x))
    ensures AddedOnce(AddedOnce(xs, x), x) == AddedOnce(xs, x)
  {
  }

  /** `prev.includes(x) ? prev.filter(id => id !== x) : [...prev, x]`. */
  function Toggle<T(==)>(xs: seq<T>, x: T): seq<T> {
    if x in xs then Without(xs, x) else xs + [x]
  }

  /** Toggling flips the membership of `x` and of nothing else. */
  lemma ToggleMembership<T>(xs: seq<T>, x: T)
    ensures x in Toggle(xs, x) <==> x !in xs
    ensures forall y :: y != x ==> (y in Toggle(xs, x) <==> y in xs)
  {
    WithoutMembers(xs, x);
  }

  /** Toggling an absent element twice restores the list. */
  lemma ToggleTwiceAbsent<T>(xs: seq<T>, x: T)
    requires x !in xs
    ensures Toggle(Toggle(xs, x), x) == xs
  {
    WithoutAppend(xs, [x], x);
    WithoutAbsent(xs, x);
    assert Without([x], x) == [];
  }

  /** `xs.filter(p)` for an id-valued projection: keep the elements whose
      key is not `k`, in order. */
  function FilterOut<T, K(==)>(xs: seq<T>, key: T -> K, k: K): (r: seq<T>)
    ensures |r| <= |xs|
    ensures forall y :: y in r ==> y in xs && key(y) != k
  {
    if |xs| == 0 then []
    else if key(xs[0]) == k then FilterOut(xs[1..], key, k)
    else [xs[0]] + FilterOut(xs[1..], key, k)
  }

  lemma {:induction false} FilterOutKeeps<T, K>(xs: seq<T>, key: T -> K, k: K)
    ensures forall y :: y in xs && key(y) != k ==> y in FilterOut(xs, key, k)
  {
    if |xs| > 0 {
      FilterOutKeeps(xs[1..], key, k);
      assert xs == [xs[0]] + xs[1..];
    }
  }
}
