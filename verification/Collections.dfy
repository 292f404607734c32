/** Small sequence vocabulary shared by the models: options and results,
    first occurrences, and a stable sort with the two facts every use needs. */
module Collections {

  datatype Option<+T> = None | Some(value: T)

  datatype Result<+T, +E> = Ok(value: T) | Err(error: E)

  /** The first `n` elements, or all. */
  function Take<T>(xs: seq<T>, n: nat): (ys: seq<T>)
    ensures ys <= xs && |ys| == if n <= |xs| then n else |xs|
  {
    if n <= |xs| then xs[..n] else xs
  }

  function Map<T, U>(f: T -> U, xs: seq<T>): (ys: seq<U>)
    ensures |ys| == |xs|
    ensures forall i :: 0 <= i < |xs| ==> ys[i] == f(xs[i])
  {
    seq(|xs|, i requires 0 <= i < |xs| => f(xs[i]))
  }

  function Filter<T(!new)>(p: T -> bool, xs: seq<T>): (ys: seq<T>)
    ensures forall y :: y in ys <==> y in xs && p(y)
  {
    if xs == [] then []
    else (if p(xs[0]) then [xs[0]] else []) + Filter(p, xs[1..])
  }

  ghost predicate Distinct<T(!new)>(xs: seq<T>) {
    forall i, j :: 0 <= i < j < |xs| ==> xs[i] != xs[j]
  }

  lemma {:induction false} FilterSplit<T(!new)>(p: T -> bool, xs: seq<T>, ys: seq<T>)
    ensures Filter(p, xs + ys) == Filter(p, xs) + Filter(p, ys)
  {
    if xs == [] {
      assert xs + ys == ys;
    } else {
      assert (xs + ys)[1..] == xs[1..] + ys;
      FilterSplit(p, xs[1..], ys);
    }
  }

  /** The positions of the elements that satisfy `p`. */
  ghost function Positions<T>(p: T -> bool, xs: seq<T>): set<int> {
    set i | 0 <= i < |xs| && p(xs[i])
  }

  lemma PositionsAppend<T>(p: T -> bool, xs: seq<T>, x: T)
    ensures |Positions(p, xs + [x])| == |Positions(p, xs)| + if p(x) then 1 else 0
  {
    if p(x) {
      assert Positions(p, xs + [x]) == Positions(p, xs) + {|xs|};
    } else {
      assert Positions(p, xs + [x]) == Positions(p, xs);
    }
  }

  /** A filter keeps each element that satisfies `p` as often as it occurs, and no other. */
  lemma {:induction false} FilterCounts<T(!new)>(p: T -> bool, xs: seq<T>, x: T)
    ensures multiset(Filter(p, xs))[x] == if p(x) then multiset(xs)[x] else 0
  {
    if xs != [] {
      FilterCounts(p, xs[1..], x);
      assert xs == [xs[0]] + xs[1..];
    }
  }

  /** It is as long as there are positions that satisfy `p`. */
  lemma {:induction false} FilterLength<T(!new)>(p: T -> bool, xs: seq<T>)
    ensures |Filter(p, xs)| == |Positions(p, xs)|
  {
    if xs != [] {
      var front, last := xs[..|xs| - 1], xs[|xs| - 1];
      assert xs == front + [last];
      FilterLength(p, front);
      FilterSplit(p, front, [last]);
      PositionsAppend(p, front, last);
      FilterOne(p, last);
    }
  }

  lemma FilterOne<T(!new)>(p: T -> bool, x: T)
    ensures Filter(p, [x]) == if p(x) then [x] else []
  {
    assert [x][1..] == [];
  }

  /** Dropping elements keeps a sequence ordered. */
  lemma {:induction false} FilterKeepsSorted<T(!new)>(p: T -> bool, before: (T, T) -> bool, xs: seq<T>)
    requires SortedBy(before, xs)
    ensures SortedBy(before, Filter(p, xs))
  {
    if xs != [] {
      FilterKeepsSorted(p, before, xs[1..]);
      var rest := Filter(p, xs[1..]);
      forall j | 0 <= j < |rest| ensures before(xs[0], rest[j]) {
        assert rest[j] in rest;
        assert rest[j] in xs[1..];
      }
    }
  }

  /** The elements of `xs` without repetitions, each at its first position. */
  function FirstOccurrences<T(==)>(xs: seq<T>): seq<T> {
    if xs == [] then []
    else
      var n := |xs| - 1;
      var front := FirstOccurrences(xs[..n]);
      if xs[n] in xs[..n] then front else front + [xs[n]]
  }

  lemma {:induction false} FirstOccurrencesIsSetOf<T(!new)>(xs: seq<T>)
    ensures forall x :: x in FirstOccurrences(xs) <==> x in xs
    ensures Distinct(FirstOccurrences(xs))
  {
    if xs != [] {
      var n := |xs| - 1;
      FirstOccurrencesIsSetOf(xs[..n]);
      assert xs == xs[..n] + [xs[n]];
    }
  }

  /** Earlier in the list means seen earlier: some element's first occurrence. */
  ghost predicate SeenBefore<T>(x: T, y: T, xs: seq<T>) {
    exists i :: 0 <= i < |xs| && xs[i] == x && y !in xs[..i + 1]
  }

  lemma SeenBeforeStays<T>(x: T, y: T, xs: seq<T>, z: T)
    requires SeenBefore(x, y, xs)
    ensures SeenBefore(x, y, xs + [z])
  {
    var i :| 0 <= i < |xs| && xs[i] == x && y !in xs[..i + 1];
    assert (xs + [z])[..i + 1] == xs[..i + 1];
    assert (xs + [z])[i] == x;
  }

  lemma NewIsLast<T>(x: T, xs: seq<T>, z: T)
    requires x in xs && z !in xs
    ensures SeenBefore(x, z, xs + [z])
  {
    var i :| 0 <= i < |xs| && xs[i] == x;
    assert (xs + [z])[..i + 1] == xs[..i + 1];
    assert (xs + [z])[i] == x;
  }

  lemma {:induction false} FirstOccurrencesInOrder<T(!new)>(xs: seq<T>)
    ensures forall i, j :: 0 <= i < j < |FirstOccurrences(xs)| ==> SeenBefore(FirstOccurrences(xs)[i], FirstOccurrences(xs)[j], xs)
  {
    if xs != [] {
      var n := |xs| - 1;
      var front, last := xs[..n], xs[n];
      assert xs == front + [last];
      FirstOccurrencesInOrder(front);
      FirstOccurrencesIsSetOf(front);
      var firsts, all := FirstOccurrences(front), FirstOccurrences(xs);
      forall i, j | 0 <= i < j < |all| ensures SeenBefore(all[i], all[j], xs) {
        if j < |firsts| {
          SeenBeforeStays(firsts[i], firsts[j], front, last);
        } else {
          assert firsts[i] in firsts;
          NewIsLast(firsts[i], front, last);
        }
      }
    }
  }

  // ----- stable sort -----

  ghost predicate TotalOrder<T(!new)>(le: (T, T) -> bool) {
    && (forall x, y :: le(x, y) || le(y, x))
    && (forall x, y, z :: le(x, y) && le(y, z) ==> le(x, z))
  }

  ghost predicate SortedBy<T>(le: (T, T) -> bool, xs: seq<T>) {
    forall i, j :: 0 <= i < j < |xs| ==> le(xs[i], xs[j])
  }

  function Insert<T>(le: (T, T) -> bool, x: T, xs: seq<T>): seq<T> {
    if xs == [] then [x]
    else if le(x, xs[0]) then [x] + xs
    else [xs[0]] + Insert(le, x, xs[1..])
  }

  /** Stable: an element is placed before the equal ones that followed it. */
  function Sort<T>(le: (T, T) -> bool, xs: seq<T>): seq<T> {
    if xs == [] then [] else Insert(le, xs[0], Sort(le, xs[1..]))
  }

  lemma {:induction false} InsertPermutes<T(!new)>(le: (T, T) -> bool, x: T, xs: seq<T>)
    ensures multiset(Insert(le, x, xs)) == multiset([x] + xs)
    ensures forall y :: y in Insert(le, x, xs) <==> y == x || y in xs
  {
    if xs != [] && !le(x, xs[0]) {
      InsertPermutes(le, x, xs[1..]);
      assert xs == [xs[0]] + xs[1..];
    }
  }

  lemma {:induction false} InsertSorted<T(!new)>(le: (T, T) -> bool, x: T, xs: seq<T>)
    requires TotalOrder(le) && SortedBy(le, xs)
    ensures SortedBy(le, Insert(le, x, xs))
  {
    if xs != [] && !le(x, xs[0]) {
      InsertSorted(le, x, xs[1..]);
      InsertPermutes(le, x, xs[1..]);
      var rest := Insert(le, x, xs[1..]);
      forall j | 0 <= j < |rest| ensures le(xs[0], rest[j]) {
        assert rest[j] in rest;
      }
    }
  }

  lemma {:induction false} SortSorts<T(!new)>(le: (T, T) -> bool, xs: seq<T>)
    ensures multiset(Sort(le, xs)) == multiset(xs)
    ensures |Sort(le, xs)| == |xs|
    ensures forall x :: x in Sort(le, xs) <==> x in xs
    ensures TotalOrder(le) ==> SortedBy(le, Sort(le, xs))
  {
    if xs != [] {
      SortSorts(le, xs[1..]);
      InsertPermutes(le, xs[0], Sort(le, xs[1..]));
      if TotalOrder(le) { InsertSorted(le, xs[0], Sort(le, xs[1..])); }
      assert xs == [xs[0]] + xs[1..];
    }
    assert |multiset(Sort(le, xs))| == |multiset(xs)|;
  }

  lemma {:induction false} SortDistinct<T(!new)>(le: (T, T) -> bool, xs: seq<T>)
    requires Distinct(xs)
    ensures Distinct(Sort(le, xs))
  {
    SortSorts(le, xs);
    var ys := Sort(le, xs);
    forall i, j | 0 <= i < j < |ys| ensures ys[i] != ys[j] {
      if ys[i] == ys[j] {
        RepeatedTwice(ys, i, j);
        DistinctOnce(xs, ys[i]);
        assert false;
      }
    }
  }

  lemma RepeatedTwice<T>(xs: seq<T>, i: nat, j: nat)
    requires i < j < |xs| && xs[i] == xs[j]
    ensures multiset(xs)[xs[i]] >= 2
  {
    assert xs == xs[..i] + [xs[i]] + xs[i + 1..j] + [xs[j]] + xs[j + 1..];
  }

  lemma {:induction false} DistinctOnce<T(!new)>(xs: seq<T>, x: T)
    requires Distinct(xs)
    ensures multiset(xs)[x] <= 1
  {
    if xs != [] {
      assert xs == [xs[0]] + xs[1..];
      DistinctOnce(xs[1..], x);
      if x == xs[0] {
        assert x !in xs[1..];
        assert x !in multiset(xs[1..]);
      }
    }
  }

  lemma TailOf<T(!new)>(lt: (T, T) -> bool, xs: seq<T>)
    requires xs != [] && SortedBy(lt, xs) && forall x :: !lt(x, x)
    ensures forall x :: x in xs[1..] <==> x in xs && x != xs[0]
  {
    assert xs == [xs[0]] + xs[1..];
    forall x | x in xs[1..] ensures x != xs[0] {
      var i :| 0 <= i < |xs[1..]| && xs[1..][i] == x;
      assert lt(xs[0], xs[i + 1]);
    }
  }

  /** Two strictly ordered sequences of the same elements are equal. */
  lemma {:induction false} SortedUnique<T(!new)>(lt: (T, T) -> bool, xs: seq<T>, ys: seq<T>)
    requires forall x :: !lt(x, x)
    requires forall x, y, z :: lt(x, y) && lt(y, z) ==> lt(x, z)
    requires SortedBy(lt, xs) && SortedBy(lt, ys)
    requires forall x :: x in xs <==> x in ys
    ensures xs == ys
  {
    assert forall i :: 0 <= i < |xs| ==> xs[i] in ys;
    assert forall i :: 0 <= i < |ys| ==> ys[i] in xs;
    if xs != [] && ys != [] {
      assert xs[0] in ys && ys[0] in xs;
      assert xs[0] == ys[0];
      assert xs == [xs[0]] + xs[1..] && ys == [ys[0]] + ys[1..];
      TailOf(lt, xs);
      TailOf(lt, ys);
      SortedUnique(lt, xs[1..], ys[1..]);
    }
  }
}
