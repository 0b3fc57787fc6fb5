/** Shared vocabulary: options, filtering, stable sorting by key, elapsed time. */
module Common {

  datatype Option<+T> = None | Some(value: T)

  datatype Result<+T, +E> = Ok(value: T) | Err(error: E)

  /** Points in time and durations count nanoseconds on a clock that never goes back. */
  type Time = nat

  /** `Instant::saturating_duration_since`: time from `since` to `now`, zero if `since` is later. */
  function Elapsed(now: Time, since: Time): Time {
    if now >= since then now - since else 0
  }

  /** Whether a clock started at `since` (if it is running) has run for `long`. */
  predicate Held(now: Time, since: Option<Time>, long: Time) {
    since.Some? && Elapsed(now, since.value) >= long
  }

  /** A clock that keeps running, or starts now: `Option::get_or_insert`. */
  function Since(clock: Option<Time>, now: Time): Option<Time> {
    Some(if clock.Some? then clock.value else now)
  }

  /** A network interface, by its locally unique identifier. */
  type InterfaceId = nat

  const U32_MAX: nat := 0xffff_ffff

  /** `u32::saturating_add(1)`. */
  function Increment(n: nat): nat { if n < U32_MAX then n + 1 else U32_MAX }

  // ------------------------------------------------------------------ filtering

  function Filter<T(!new)>(s: seq<T>, keep: T -> bool): (r: seq<T>)
    ensures forall x :: x in r <==> x in s && keep(x)
    ensures |r| <= |s|
  {
    if s == [] then []
    else (if keep(s[0]) then [s[0]] else []) + Filter(s[1..], keep)
  }

  function Map<T, U>(s: seq<T>, f: T -> U): (r: seq<U>)
    ensures |r| == |s|
    ensures forall i :: 0 <= i < |s| ==> r[i] == f(s[i])
  {
    if s == [] then [] else [f(s[0])] + Map(s[1..], f)
  }

  lemma FilterHead<T(!new)>(s: seq<T>, keep: T -> bool)
    requires s != []
    ensures Filter(s, keep) == if keep(s[0]) then [s[0]] + Filter(s[1..], keep) else Filter(s[1..], keep)
  {
  }

  lemma {:induction false} FilterConcat<T(!new)>(a: seq<T>, b: seq<T>, keep: T -> bool)
    ensures Filter(a + b, keep) == Filter(a, keep) + Filter(b, keep)
  {
    if a == [] {
      assert a + b == b;
    } else {
      assert (a + b)[1..] == a[1..] + b;
      FilterConcat(a[1..], b, keep);
    }
  }

  /** Filtering twice, where the second test implies the first on every element, is the second. */
  lemma {:induction false} FilterTwice<T(!new)>(s: seq<T>, first: T -> bool, second: T -> bool)
    requires forall x :: x in s && second(x) ==> first(x)
    ensures Filter(Filter(s, first), second) == Filter(s, second)
  {
    if s != [] {
      FilterTwice(s[1..], first, second);
      var head := if first(s[0]) then [s[0]] else [];
      var rest := Filter(s[1..], first);
      if first(s[0]) {
        assert (head + rest)[1..] == rest;
      } else {
        assert head + rest == rest;
      }
    }
  }

  lemma {:induction false} FilterNarrower<T(!new)>(s: seq<T>, narrow: T -> bool, wide: T -> bool)
    requires forall x :: x in s && narrow(x) ==> wide(x)
    ensures |Filter(s, narrow)| <= |Filter(s, wide)|
  {
    if s != [] {
      FilterNarrower(s[1..], narrow, wide);
    }
  }

  lemma {:induction false} FilterNone<T(!new)>(s: seq<T>, keep: T -> bool)
    requires forall x :: x in s ==> !keep(x)
    ensures Filter(s, keep) == []
  {
    if s != [] {
      FilterNone(s[1..], keep);
    }
  }

  lemma {:induction false} SetFitsInSeq<T>(elements: set<T>, s: seq<T>)
    requires forall x :: x in elements ==> x in s
    ensures |elements| <= |s|
  {
    if s == [] {
      assert elements == {};
    } else {
      SetFitsInSeq(elements - {s[0]}, s[1..]);
      if s[0] in elements {
        assert elements == (elements - {s[0]}) + {s[0]};
      } else {
        assert elements - {s[0]} == elements;
      }
    }
  }

  // ------------------------------------------------------------------ stable sorting

  ghost predicate IsTotalPreorder<T(!new)>(le: (T, T) -> bool) {
    && (forall x, y :: le(x, y) || le(y, x))
    && (forall x, y, z :: le(x, y) && le(y, z) ==> le(x, z))
  }

  ghost predicate Sorted<T>(s: seq<T>, le: (T, T) -> bool) {
    forall i, j :: 0 <= i < j < |s| ==> le(s[i], s[j])
  }

  /** `x` goes before the first element it is not greater than, so equals keep their order. */
  function Insert<T>(x: T, s: seq<T>, le: (T, T) -> bool): (r: seq<T>)
    ensures multiset(r) == multiset{x} + multiset(s)
    ensures |r| == |s| + 1
  {
    if s == [] || le(x, s[0]) then [x] + s
    else
      assert s == [s[0]] + s[1..];
      [s[0]] + Insert(x, s[1..], le)
  }

  /** `slice::sort_by_key`: a stable sort. */
  function StableSort<T>(s: seq<T>, le: (T, T) -> bool): (r: seq<T>)
    ensures multiset(r) == multiset(s)
    ensures |r| == |s|
  {
    if s == [] then []
    else
      assert s == [s[0]] + s[1..];
      Insert(s[0], StableSort(s[1..], le), le)
  }

  lemma SameElements<T>(a: seq<T>, b: seq<T>)
    requires multiset(a) == multiset(b)
    ensures forall x :: x in a <==> x in b
  {
    forall x ensures x in a <==> x in b {
      assert x in a <==> x in multiset(a);
      assert x in b <==> x in multiset(b);
    }
  }

  lemma {:induction false} InsertSorted<T(!new)>(x: T, s: seq<T>, le: (T, T) -> bool)
    requires IsTotalPreorder(le) && Sorted(s, le)
    ensures Sorted(Insert(x, s, le), le)
  {
    if s != [] && !le(x, s[0]) {
      InsertSorted(x, s[1..], le);
      var rest := Insert(x, s[1..], le);
      forall y | y in rest ensures le(s[0], y) {
        assert y in multiset(rest);
        if y != x {
          assert y in s[1..];
        }
      }
    }
  }

  lemma {:induction false} StableSortSorted<T(!new)>(s: seq<T>, le: (T, T) -> bool)
    requires IsTotalPreorder(le)
    ensures Sorted(StableSort(s, le), le)
  {
    if s != [] {
      StableSortSorted(s[1..], le);
      InsertSorted(s[0], StableSort(s[1..], le), le);
    }
  }

  /** No two different elements rank alike. */
  ghost predicate DistinctKeys<T(!new)>(s: seq<T>, le: (T, T) -> bool) {
    forall x, y :: x in s && y in s && le(x, y) && le(y, x) ==> x == y
  }

  lemma WithoutLast<T>(s: seq<T>)
    requires s != []
    ensures multiset(s[..|s| - 1]) == multiset(s) - multiset{s[|s| - 1]}
  {
    assert s == s[..|s| - 1] + [s[|s| - 1]];
  }

  lemma NothingRanksAfterLast<T(!new)>(s: seq<T>, x: T, le: (T, T) -> bool)
    requires Sorted(s, le) && x in s
    ensures x == s[|s| - 1] || le(x, s[|s| - 1])
  {
    var i :| 0 <= i < |s| && s[i] == x;
  }

  /** Of two sorted arrangements of the same elements, the last elements are the same. */
  lemma LastIsFixed<T(!new)>(a: seq<T>, b: seq<T>, le: (T, T) -> bool)
    requires a != [] && b != [] && multiset(a) == multiset(b) && DistinctKeys(a, le) && Sorted(a, le) && Sorted(b, le)
    ensures a[|a| - 1] == b[|b| - 1]
  {
    SameElements(a, b);
    var x, y := a[|a| - 1], b[|b| - 1];
    assert x in a && y in b;
    NothingRanksAfterLast(a, y, le);
    NothingRanksAfterLast(b, x, le);
  }

  lemma InitIsSorted<T(!new)>(s: seq<T>, le: (T, T) -> bool)
    requires s != [] && Sorted(s, le)
    ensures Sorted(s[..|s| - 1], le) && s == s[..|s| - 1] + [s[|s| - 1]]
    ensures DistinctKeys(s, le) ==> DistinctKeys(s[..|s| - 1], le)
  {
  }

  lemma InitsCompare<T(!new)>(a: seq<T>, b: seq<T>, le: (T, T) -> bool)
    requires a != [] && b != [] && multiset(a) == multiset(b) && DistinctKeys(a, le) && Sorted(a, le) && Sorted(b, le)
    ensures a[|a| - 1] == b[|b| - 1] && multiset(a[..|a| - 1]) == multiset(b[..|b| - 1])
  {
    LastIsFixed(a, b, le);
    WithoutLast(a);
    WithoutLast(b);
  }

  /** Distinct keys fix the order: what is sorted by them is determined by its contents. */
  lemma {:induction false} KeysFixTheOrder<T(!new)>(a: seq<T>, b: seq<T>, le: (T, T) -> bool)
    requires multiset(a) == multiset(b) && DistinctKeys(a, le) && Sorted(a, le) && Sorted(b, le)
    ensures a == b
  {
    assert |multiset(a)| == |a| && |multiset(b)| == |b|;
    if a != [] {
      InitsCompare(a, b, le);
      InitIsSorted(a, le);
      InitIsSorted(b, le);
      KeysFixTheOrder(a[..|a| - 1], b[..|b| - 1], le);
    }
  }

  /** Stability: among the elements `same` picks out, all equal under `le`, the order is kept. */
  lemma {:induction false} StableSortKeepsOrder<T(!new)>(s: seq<T>, le: (T, T) -> bool, same: T -> bool)
    requires IsTotalPreorder(le)
    requires forall x, y :: same(x) && same(y) ==> le(x, y)
    ensures Filter(StableSort(s, le), same) == Filter(s, same)
  {
    if s != [] {
      StableSortKeepsOrder(s[1..], le, same);
      InsertKeepsOrder(s[0], StableSort(s[1..], le), le, same);
    }
  }

  lemma FilterOne<T(!new)>(x: T, keep: T -> bool)
    ensures Filter([x], keep) == if keep(x) then [x] else []
  {
    assert [x][1..] == [];
  }

  lemma InsertStep<T>(x: T, s: seq<T>, le: (T, T) -> bool)
    ensures Insert(x, s, le) == if s == [] || le(x, s[0]) then [x] + s else [s[0]] + Insert(x, s[1..], le)
  {
  }

  lemma EitherOrder<T>(a: seq<T>, b: seq<T>, rest: seq<T>)
    requires a == [] || b == []
    ensures a + (b + rest) == b + (a + rest)
  {
    assert [] + (a + rest) == a + rest && [] + (b + rest) == b + rest && [] + rest == rest;
  }

  lemma {:induction false} InsertKeepsOrder<T(!new)>(x: T, s: seq<T>, le: (T, T) -> bool, same: T -> bool)
    requires forall a, b :: same(a) && same(b) ==> le(a, b)
    ensures Filter(Insert(x, s, le), same) == (if same(x) then [x] else []) + Filter(s, same)
  {
    InsertStep(x, s, le);
    FilterOne(x, same);
    if s == [] || le(x, s[0]) {
      FilterConcat([x], s, same);
    } else {
      var head, rest := s[0], s[1..];
      FilterOne(head, same);
      InsertKeepsOrder(x, rest, le, same);
      FilterConcat([head], Insert(x, rest, le), same);
      FilterConcat([head], rest, same);
      assert s == [head] + rest;
      EitherOrder(Filter([head], same), Filter([x], same), Filter(rest, same));
    }
  }
}
