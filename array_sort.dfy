/**
 * `Array.prototype.sort` with a comparator: a stable sort. `le(x, y)` holds
 * when the comparator does not ask to put `y` before `x` (it returns a
 * value <= 0). The runtime's algorithm is not observable beyond its
 * result, so it is written here as an insertion sort.
 */
module ArraySort {

  /** The comparator is consistent: `le` is a total preorder. */
  ghost predicate TotalPreorder<T(!new)>(le: (T, T) -> bool) {
    && (forall x, y :: le(x, y) || le(y, x))
    && (forall x, y, z :: le(x, y) && le(y, z) ==> le(x, z))
  }

  predicate SortedBy<T>(xs: seq<T>, le: (T, T) -> bool) {
    forall i, j :: 0 <= i < j < |xs| ==> le(xs[i], xs[j])
  }

  /** `x` and `y` compare equal. */
  predicate Tied<T>(le: (T, T) -> bool, x: T, y: T) {
    le(x, y) && le(y, x)
  }

  /** Insert `x` after every element of `xs` that may stand before it. */
  function Insert<T>(x: T, xs: seq<T>, le: (T, T) -> bool): (r: seq<T>)
    ensures multiset(r) == multiset(xs) + multiset{x}
    ensures |r| == |xs| + 1
  {
    if xs == [] then [x]
    else if le(xs[0], x) then
      assert xs == [xs[0]] + xs[1..];
      [xs[0]] + Insert(x, xs[1..], le)
    else [x] + xs
  }

  /** The stable sort. */
  function SortBy<T>(xs: seq<T>, le: (T, T) -> bool): (r: seq<T>)
    ensures multiset(r) == multiset(xs)
    ensures |r| == |xs|
  {
    if xs == [] then []
    else
      var init := xs[..|xs| - 1];
      assert xs == init + [xs[|xs| - 1]];
      Insert(xs[|xs| - 1], SortBy(init, le), le)
  }

  /** Every element of the result is one of the input. */
  lemma SortByMembers<T>(xs: seq<T>, le: (T, T) -> bool)
    ensures forall i :: 0 <= i < |SortBy(xs, le)| ==> SortBy(xs, le)[i] in xs
  {
    var r := SortBy(xs, le);
    forall i | 0 <= i < |r| ensures r[i] in xs {
      assert r[i] in multiset(r);
    }
  }

  lemma {:induction false} InsertSorted<T(!new)>(x: T, xs: seq<T>, le: (T, T) -> bool)
    requires TotalPreorder(le) && SortedBy(xs, le)
    ensures SortedBy(Insert(x, xs, le), le)
  {
    if xs != [] && le(xs[0], x) {
      InsertSorted(x, xs[1..], le);
      var r := Insert(x, xs, le);
      forall j | 0 < j < |r| ensures le(r[0], r[j]) {
        assert r[j] in multiset(xs[1..]) + multiset{x};
        if r[j] != x {
          assert r[j] in xs[1..];
          var m :| 0 <= m < |xs[1..]| && xs[1..][m] == r[j];
          assert xs[m + 1] == r[j];
        }
      }
    } else if xs != [] {
      assert le(x, xs[0]);
      forall j | 0 < j < |xs| ensures le(x, xs[j]) {
        assert le(xs[0], xs[j]);
      }
    }
  }

  /** The result stands in comparator order. */
  lemma {:induction false} SortBySorted<T(!new)>(xs: seq<T>, le: (T, T) -> bool)
    requires TotalPreorder(le)
    ensures SortedBy(SortBy(xs, le), le)
  {
    if xs != [] {
      SortBySorted(xs[..|xs| - 1], le);
      InsertSorted(xs[|xs| - 1], SortBy(xs[..|xs| - 1], le), le);
    }
  }

  lemma {:induction false} InsertAfterAll<T>(x: T, xs: seq<T>, le: (T, T) -> bool)
    requires forall i :: 0 <= i < |xs| ==> le(xs[i], x)
    ensures Insert(x, xs, le) == xs + [x]
  {
    if xs != [] {
      InsertAfterAll(x, xs[1..], le);
    }
  }

  /** Sorting what is already in order changes nothing. */
  lemma {:induction false} SortByOfSorted<T>(xs: seq<T>, le: (T, T) -> bool)
    requires SortedBy(xs, le)
    ensures SortBy(xs, le) == xs
  {
    if xs != [] {
      var init := xs[..|xs| - 1];
      SortByOfSorted(init, le);
      InsertAfterAll(xs[|xs| - 1], init, le);
      assert init + [xs[|xs| - 1]] == xs;
    }
  }

  /** The elements of `xs` tied with `y`, in their order in `xs`. */
  function TiesOf<T>(xs: seq<T>, y: T, le: (T, T) -> bool): seq<T> {
    if xs == [] then []
    else (if Tied(le, xs[0], y) then [xs[0]] else []) + TiesOf(xs[1..], y, le)
  }

  lemma {:induction false} TiesOfAppend<T>(a: seq<T>, b: seq<T>, y: T, le: (T, T) -> bool)
    ensures TiesOf(a + b, y, le) == TiesOf(a, y, le) + TiesOf(b, y, le)
  {
    if a != [] {
      TiesOfAppend(a[1..], b, y, le);
      var head := if Tied(le, a[0], y) then [a[0]] else [];
      assert (a + b)[0] == a[0];
      assert (a + b)[1..] == a[1..] + b;
      calc {
        TiesOf(a + b, y, le);
        head + TiesOf(a[1..] + b, y, le);
        head + (TiesOf(a[1..], y, le) + TiesOf(b, y, le));
        (head + TiesOf(a[1..], y, le)) + TiesOf(b, y, le);
        TiesOf(a, y, le) + TiesOf(b, y, le);
      }
    } else {
      assert a + b == b;
    }
  }

  lemma {:induction false} NoTies<T(!new)>(x: T, xs: seq<T>, y: T, le: (T, T) -> bool)
    requires TotalPreorder(le) && Tied(le, x, y)
    requires forall i :: 0 <= i < |xs| ==> !le(xs[i], x)
    ensures TiesOf(xs, y, le) == []
  {
    if xs != [] {
      NoTies(x, xs[1..], y, le);
      assert !le(xs[0], x);
      assert !Tied(le, xs[0], y);
    }
  }

  /** When `x` goes in front, no element of `xs` ties with it. */
  lemma InsertFrontStable<T(!new)>(x: T, xs: seq<T>, y: T, le: (T, T) -> bool)
    requires TotalPreorder(le) && SortedBy(xs, le)
    requires xs != [] && !le(xs[0], x)
    ensures TiesOf([x] + xs, y, le) == TiesOf(xs, y, le) + TiesOf([x], y, le)
  {
    TiesOfAppend([x], xs, y, le);
    if Tied(le, x, y) {
      forall i | 0 <= i < |xs| ensures !le(xs[i], x) {
        if i > 0 {
          assert le(xs[0], xs[i]);
        }
      }
      NoTies(x, xs, y, le);
    }
  }

  lemma {:induction false} InsertStable<T(!new)>(x: T, xs: seq<T>, y: T, le: (T, T) -> bool)
    requires TotalPreorder(le) && SortedBy(xs, le)
    ensures TiesOf(Insert(x, xs, le), y, le) == TiesOf(xs, y, le) + TiesOf([x], y, le)
  {
    if xs == [] {
    } else if le(xs[0], x) {
      var rest := Insert(x, xs[1..], le);
      assert SortedBy(xs[1..], le);
      InsertStable(x, xs[1..], y, le);
      TiesOfAppend([xs[0]], rest, y, le);
      TiesOfAppend([xs[0]], xs[1..], y, le);
      assert [xs[0]] + xs[1..] == xs;
      calc {
        TiesOf(Insert(x, xs, le), y, le);
        TiesOf([xs[0]] + rest, y, le);
        TiesOf([xs[0]], y, le) + TiesOf(rest, y, le);
        TiesOf([xs[0]], y, le) + (TiesOf(xs[1..], y, le) + TiesOf([x], y, le));
        (TiesOf([xs[0]], y, le) + TiesOf(xs[1..], y, le)) + TiesOf([x], y, le);
        TiesOf(xs, y, le) + TiesOf([x], y, le);
      }
    } else {
      InsertFrontStable(x, xs, y, le);
    }
  }

  /** Stability: elements that compare equal keep their original relative order. */
  lemma {:induction false} SortByStable<T(!new)>(xs: seq<T>, y: T, le: (T, T) -> bool)
    requires TotalPreorder(le)
    ensures TiesOf(SortBy(xs, le), y, le) == TiesOf(xs, y, le)
  {
    if xs != [] {
      var init, last := xs[..|xs| - 1], xs[|xs| - 1];
      SortByStable(init, y, le);
      SortBySorted(init, le);
      InsertStable(last, SortBy(init, le), y, le);
      assert xs == init + [last];
      TiesOfAppend(init, [last], y, le);
    }
  }
}
