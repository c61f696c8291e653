/**
 * Key sorting of a value tree (`sortObject`): every object's own keys are
 * reordered, arrays keep their order, scalars are returned as they are.
 * The comparison options reach only the value handed to the first call:
 * nested values are always sorted with the default ordering.
 */
module Sorter {
  import opened Base
  import opened Json
  import opened JsText
  import opened ArraySort

  /** The options object `{ ignoreCase, locale, caseFirst, numeric }`; "" stands for an absent string. */
  datatype SortOptions = SortOptions(ignoreCase: bool, locale: string, caseFirst: string, numeric: bool)

  /** What a nested call sees: no options at all. */
  const Defaults := SortOptions(false, "", "", false)

  /** The arguments handed to `localeCompare`: the locale (None for the runtime's default) and its options. */
  datatype Collation = Collation(locale: Option<string>, caseFirst: string, numeric: bool, accentOnly: bool)

  /** `l.localeCompare(r, locale, options)`: negative, zero or positive, decided by the runtime's collator. */
  type Collator = (Collation, string, string) -> int

  /** Which of the three comparisons `a.sort` is given. */
  datatype KeyOrder = CodeUnitOrder | LowerCaseOrder | LocaleOrder(collation: Collation)

  /** The branch on the options: locale collation when any locale option is set, else case-insensitive, else plain. */
  function OrderFor(opts: SortOptions): (ord: KeyOrder)
    ensures ord.LocaleOrder? <==> opts.locale != "" || opts.caseFirst != "" || opts.numeric
    ensures ord.LowerCaseOrder? <==> !ord.LocaleOrder? && opts.ignoreCase
    ensures ord.LocaleOrder? ==>
      && (ord.collation.locale.None? <==> opts.locale == "" || opts.locale == "default")
      && (ord.collation.locale.Some? ==> ord.collation.locale.value == opts.locale)
      && ord.collation.caseFirst == opts.caseFirst
      && ord.collation.numeric == opts.numeric
      && (ord.collation.accentOnly <==> opts.ignoreCase)
  {
    if opts.locale != "" || opts.caseFirst != "" || opts.numeric then
      var locale := if opts.locale == "default" || opts.locale == "" then None else Some(opts.locale);
      LocaleOrder(Collation(locale, opts.caseFirst, opts.numeric, opts.ignoreCase))
    else if opts.ignoreCase then LowerCaseOrder
    else CodeUnitOrder
  }

  /** The default comparison of `a.sort()`: by string order, ties only for equal strings. */
  function CompareCodeUnits(l: string, r: string): int {
    if Before(l, r) then -1 else if Before(r, l) then 1 else 0
  }

  /** The comparator given to `a.sort` for a key order. */
  function Compare(ord: KeyOrder, collator: Collator, l: string, r: string): int {
    match ord
    case CodeUnitOrder => CompareCodeUnits(l, r)
    case LowerCaseOrder => CompareCodeUnits(Lower(l), Lower(r))
    case LocaleOrder(c) => collator(c, l, r)
  }

  /** The comparator as the relation `a.sort` orders by: `l` may stand before `r`. */
  function KeyLe(ord: KeyOrder, collator: Collator): (string, string) -> bool {
    (l: string, r: string) => Compare(ord, collator, l, r) <= 0
  }

  /** A collator that behaves as a total preorder for every collation. */
  ghost predicate CollatorIsPreorder(collator: Collator) {
    && (forall c, l, r :: collator(c, l, r) <= 0 || collator(c, r, l) <= 0)
    && (forall c, l, m, r :: collator(c, l, m) <= 0 && collator(c, m, r) <= 0 ==> collator(c, l, r) <= 0)
  }

  lemma CodeUnitPrecedes(l: string, r: string)
    ensures CompareCodeUnits(l, r) <= 0 <==> l == r || Before(l, r)
  {
    BeforeTotal(l, r);
    if l == r { BeforeIrreflexive(l); }
    if Before(l, r) { BeforeAsymmetric(l, r); }
  }

  /** The plain and the case-insensitive comparisons are consistent; the locale one is when its collator is. */
  lemma OrderIsValid(ord: KeyOrder, collator: Collator)
    requires ord.LocaleOrder? ==> CollatorIsPreorder(collator)
    ensures TotalPreorder(KeyLe(ord, collator))
  {
    var le := KeyLe(ord, collator);
    if !ord.LocaleOrder? {
      var key := (s: string) => if ord.CodeUnitOrder? then s else Lower(s);
      forall l, r ensures le(l, r) || le(r, l) {
        CodeUnitPrecedes(key(l), key(r));
        CodeUnitPrecedes(key(r), key(l));
        BeforeTotal(key(l), key(r));
      }
      forall l, m, r | le(l, m) && le(m, r) ensures le(l, r) {
        CodeUnitPrecedes(key(l), key(m));
        CodeUnitPrecedes(key(m), key(r));
        CodeUnitPrecedes(key(l), key(r));
        if Before(key(l), key(m)) && Before(key(m), key(r)) {
          BeforeTransitive(key(l), key(m), key(r));
        }
      }
    }
  }

  /** The case-insensitive comparison ties two keys exactly when their lower-case forms are equal. */
  lemma LowerCaseTies(collator: Collator, l: string, r: string)
    ensures Tied(KeyLe(LowerCaseOrder, collator), l, r) <==> Lower(l) == Lower(r)
    ensures KeyLe(LowerCaseOrder, collator)(l, r) <==> !Before(Lower(r), Lower(l))
  {
    CodeUnitPrecedes(Lower(l), Lower(r));
    CodeUnitPrecedes(Lower(r), Lower(l));
    BeforeTotal(Lower(l), Lower(r));
    if Lower(l) == Lower(r) { BeforeIrreflexive(Lower(l)); }
    if Before(Lower(l), Lower(r)) { BeforeAsymmetric(Lower(l), Lower(r)); }
  }

  // ---------------------------------------------------------------------------
  // sortObject

  /** The own keys of an object, in the order `a.sort` leaves them for the given options. */
  function SortedKeys(ps: seq<(string, JValue)>, opts: SortOptions, collator: Collator): seq<string> {
    SortBy(KeysOf(ps), KeyLe(OrderFor(opts), collator))
  }

  /** The tree `sortObject(v, opts)` returns. */
  function SortValue(v: JValue, opts: SortOptions, collator: Collator): JValue
    decreases v, 1
  {
    match v
    case JArr(xs) => JArr(seq(|xs|, i requires 0 <= i < |xs| => SortValue(xs[i], Defaults, collator)))
    case JObj(ps) =>
      var ks := SortedKeys(ps, opts, collator);
      SortByMembers(KeysOf(ps), KeyLe(OrderFor(opts), collator));
      JObj(seq(|ks|, i requires 0 <= i < |ks| => SortEntry(ps, ks[i], collator)))
    case _ => v
  }

  /** The assignment `sorted[k] = sortObject(o[k])`: a nested value is sorted with no options. */
  function SortEntry(ps: seq<(string, JValue)>, k: string, collator: Collator): (string, JValue)
    requires k in KeysOf(ps)
    decreases JObj(ps), 0
  {
    (k, SortValue(Lookup(ps, k), Defaults, collator))
  }

  /**
   * `sortObject(o, opts)`: an array is mapped element by element, a scalar is returned as it
   * is, and an object's keys are collected, sorted with the comparator the options select and
   * used to fill a new object.
   */
  method SortObject(o: JValue, opts: SortOptions, collator: Collator) returns (r: JValue)
    ensures r == SortValue(o, opts, collator)
    decreases o, 1
  {
    match o
    case JArr(xs) =>
      var out := SortElements(xs, collator);
      r := JArr(out);
    case JObj(ps) =>
      var a := OwnKeys(ps);
      a := SortBy(a, KeyLe(OrderFor(opts), collator));
      SortByMembers(KeysOf(ps), KeyLe(OrderFor(opts), collator));
      var sorted := FillSorted(ps, a, collator);
      r := JObj(sorted);
    case _ =>
      r := o;
  }

  /** `o.map(sortObject)`: the index `map` passes in the options' place selects no option. */
  method SortElements(xs: seq<JValue>, collator: Collator) returns (out: seq<JValue>)
    ensures out == seq(|xs|, j requires 0 <= j < |xs| => SortValue(xs[j], Defaults, collator))
    decreases JArr(xs), 0
  {
    out := [];
    var i := 0;
    while i < |xs|
      invariant 0 <= i <= |xs|
      invariant |out| == i
      invariant forall j :: 0 <= j < i ==> out[j] == SortValue(xs[j], Defaults, collator)
    {
      var e := SortObject(xs[i], Defaults, collator);
      out := out + [e];
      i := i + 1;
    }
  }

  /** The `for (key in o)` loop: the own keys, in enumeration order. */
  method OwnKeys(ps: seq<(string, JValue)>) returns (a: seq<string>)
    ensures a == KeysOf(ps)
  {
    a := [];
    var i := 0;
    while i < |ps|
      invariant 0 <= i <= |ps|
      invariant a == KeysOf(ps[..i])
    {
      assert ps[..i + 1] == ps[..i] + [ps[i]];
      a := a + [ps[i].0];
      i := i + 1;
    }
    assert ps[..|ps|] == ps;
  }

  /** The loop `sorted[a[key]] = sortObject(o[a[key]])`, in the order of `a`. */
  method FillSorted(ps: seq<(string, JValue)>, a: seq<string>, collator: Collator)
    returns (sorted: seq<(string, JValue)>)
    requires forall j :: 0 <= j < |a| ==> a[j] in KeysOf(ps)
    ensures sorted == seq(|a|, j requires 0 <= j < |a| => SortEntry(ps, a[j], collator))
    decreases JObj(ps), 0
  {
    sorted := [];
    var key := 0;
    while key < |a|
      invariant 0 <= key <= |a|
      invariant |sorted| == key
      invariant forall j :: 0 <= j < key ==> sorted[j] == SortEntry(ps, a[j], collator)
    {
      var v := SortObject(Lookup(ps, a[key]), Defaults, collator);
      sorted := sorted + [(a[key], v)];
      key := key + 1;
    }
  }

  // ---------------------------------------------------------------------------
  // What sortObject promises about its result.

  /** The object case spelled out: the sorted keys, each paired with its value sorted with no options. */
  lemma ObjectEntries(ps: seq<(string, JValue)>, opts: SortOptions, collator: Collator)
    ensures SortValue(JObj(ps), opts, collator).JObj?
    ensures var qs := SortValue(JObj(ps), opts, collator).entries;
      && KeysOf(qs) == SortedKeys(ps, opts, collator)
      && (forall i :: 0 <= i < |qs| ==> qs[i].0 in KeysOf(ps))
      && (forall i :: 0 <= i < |qs| ==> qs[i].1 == SortValue(Lookup(ps, qs[i].0), Defaults, collator))
  {
    var ks := SortedKeys(ps, opts, collator);
    SortByMembers(KeysOf(ps), KeyLe(OrderFor(opts), collator));
    var qs := SortValue(JObj(ps), opts, collator).entries;
    assert qs == seq(|ks|, i requires 0 <= i < |ks| => SortEntry(ps, ks[i], collator));
    forall i | 0 <= i < |ks| ensures KeysOf(qs)[i] == ks[i] {
      assert qs[i] == SortEntry(ps, ks[i], collator);
    }
    assert KeysOf(qs) == ks;
  }

  /** No key is added, dropped or duplicated: the result's keys are a permutation of the input's. */
  lemma KeysPermuted(ps: seq<(string, JValue)>, opts: SortOptions, collator: Collator)
    ensures var qs := SortValue(JObj(ps), opts, collator).entries;
      |qs| == |ps| && multiset(KeysOf(qs)) == multiset(KeysOf(ps))
  {
    ObjectEntries(ps, opts, collator);
  }

  /** The result's keys stand in the order of the selected comparator. */
  lemma KeysSorted(ps: seq<(string, JValue)>, opts: SortOptions, collator: Collator)
    requires OrderFor(opts).LocaleOrder? ==> CollatorIsPreorder(collator)
    ensures SortedBy(KeysOf(SortValue(JObj(ps), opts, collator).entries), KeyLe(OrderFor(opts), collator))
  {
    ObjectEntries(ps, opts, collator);
    OrderIsValid(OrderFor(opts), collator);
    SortBySorted(KeysOf(ps), KeyLe(OrderFor(opts), collator));
  }

  /** Keys the comparator holds equal keep their input order: the sort is stable. */
  lemma KeysStable(ps: seq<(string, JValue)>, opts: SortOptions, collator: Collator, k: string)
    requires OrderFor(opts).LocaleOrder? ==> CollatorIsPreorder(collator)
    ensures var le := KeyLe(OrderFor(opts), collator);
      TiesOf(KeysOf(SortValue(JObj(ps), opts, collator).entries), k, le) == TiesOf(KeysOf(ps), k, le)
  {
    ObjectEntries(ps, opts, collator);
    OrderIsValid(OrderFor(opts), collator);
    SortByStable(KeysOf(ps), k, KeyLe(OrderFor(opts), collator));
  }

  /** Distinct keys in default comparator order are in strictly ascending string order. */
  lemma CodeUnitSortedAscending(ks: seq<string>, collator: Collator)
    requires SortedBy(ks, KeyLe(CodeUnitOrder, collator)) && Distinct(ks)
    ensures forall i, j :: 0 <= i < j < |ks| ==> Before(ks[i], ks[j])
  {
    forall i, j | 0 <= i < j < |ks| ensures Before(ks[i], ks[j]) {
      assert CompareCodeUnits(ks[i], ks[j]) <= 0;
      CodeUnitPrecedes(ks[i], ks[j]);
    }
  }

  /** With no options, the keys of an object with distinct keys come out in strictly ascending string order. */
  lemma DefaultKeysAscending(ps: seq<(string, JValue)>, collator: Collator)
    requires Distinct(KeysOf(ps))
    ensures var ks := KeysOf(SortValue(JObj(ps), Defaults, collator).entries);
      forall i, j :: 0 <= i < j < |ks| ==> Before(ks[i], ks[j])
  {
    var ks := KeysOf(SortValue(JObj(ps), Defaults, collator).entries);
    KeysSorted(ps, Defaults, collator);
    KeysPermuted(ps, Defaults, collator);
    DistinctPermutation(ks, KeysOf(ps));
    CodeUnitSortedAscending(ks, collator);
  }

  /**
   * With `ignoreCase` alone, the lower-case forms of the keys never decrease, and keys with the
   * same lower-case form keep their input order.
   */
  lemma IgnoreCaseKeys(ps: seq<(string, JValue)>, opts: SortOptions, collator: Collator, k: string)
    requires opts.ignoreCase && opts.locale == "" && opts.caseFirst == "" && !opts.numeric
    ensures var ks := KeysOf(SortValue(JObj(ps), opts, collator).entries);
      var le := KeyLe(LowerCaseOrder, collator);
      && (forall i, j :: 0 <= i < j < |ks| ==> !Before(Lower(ks[j]), Lower(ks[i])))
      && TiesOf(ks, k, le) == TiesOf(KeysOf(ps), k, le)
  {
    var ks := KeysOf(SortValue(JObj(ps), opts, collator).entries);
    var le := KeyLe(LowerCaseOrder, collator);
    KeysSorted(ps, opts, collator);
    KeysStable(ps, opts, collator, k);
    assert SortedBy(ks, le);
    forall i, j | 0 <= i < j < |ks| ensures !Before(Lower(ks[j]), Lower(ks[i])) {
      assert le(ks[i], ks[j]);
      LowerCaseTies(collator, ks[i], ks[j]);
    }
  }

  /** Every key of the result holds the input's value under that key, sorted with no options. */
  lemma ValuesSortedWithDefaults(ps: seq<(string, JValue)>, opts: SortOptions, collator: Collator, k: string)
    requires k in KeysOf(ps)
    ensures var qs := SortValue(JObj(ps), opts, collator).entries;
      k in KeysOf(qs) && Lookup(qs, k) == SortValue(Lookup(ps, k), Defaults, collator)
  {
    var qs := SortValue(JObj(ps), opts, collator).entries;
    ObjectEntries(ps, opts, collator);
    KeysPermuted(ps, opts, collator);
    assert k in multiset(KeysOf(qs));
    var j := IndexOf(qs, k);
    assert qs[j].0 == k;
  }

  /** The options reach only the top-level object: arrays, scalars and every nested value ignore them. */
  lemma OptionsOnlyAtTop(v: JValue, o1: SortOptions, o2: SortOptions, collator: Collator)
    ensures !v.JObj? ==> SortValue(v, o1, collator) == SortValue(v, o2, collator)
    ensures v.JObj? ==> forall k :: k in KeysOf(v.entries) ==>
      var q1, q2 := SortValue(v, o1, collator).entries, SortValue(v, o2, collator).entries;
      k in KeysOf(q1) && k in KeysOf(q2) && Lookup(q1, k) == Lookup(q2, k)
  {
    if v.JObj? {
      forall k | k in KeysOf(v.entries)
        ensures var q1, q2 := SortValue(v, o1, collator).entries, SortValue(v, o2, collator).entries;
          k in KeysOf(q1) && k in KeysOf(q2) && Lookup(q1, k) == Lookup(q2, k)
      {
        ValuesSortedWithDefaults(v.entries, o1, collator, k);
        ValuesSortedWithDefaults(v.entries, o2, collator, k);
      }
    }
  }

  /** Sorting keeps every object free of duplicate keys. */
  lemma {:induction false} SortPreservesWellFormed(v: JValue, opts: SortOptions, collator: Collator)
    requires WellFormed(v)
    ensures WellFormed(SortValue(v, opts, collator))
  {
    match v
    case JArr(xs) =>
      forall i | 0 <= i < |xs| ensures WellFormed(SortValue(xs[i], Defaults, collator)) {
        SortPreservesWellFormed(xs[i], Defaults, collator);
      }
    case JObj(ps) =>
      var qs := SortValue(v, opts, collator).entries;
      ObjectEntries(ps, opts, collator);
      KeysPermuted(ps, opts, collator);
      DistinctPermutation(KeysOf(qs), KeysOf(ps));
      forall i | 0 <= i < |qs| ensures WellFormed(qs[i].1) {
        var j := IndexOf(ps, qs[i].0);
        SortPreservesWellFormed(ps[j].1, Defaults, collator);
      }
    case _ =>
  }

  /** The entries of a re-sorted object are those of the sorted one when re-sorting a value is idempotent. */
  lemma ResortedEntries(ps: seq<(string, JValue)>, qs: seq<(string, JValue)>, rs: seq<(string, JValue)>,
                        sort: JValue -> JValue)
    requires KeysOf(rs) == KeysOf(qs)
    requires forall i :: 0 <= i < |qs| ==> qs[i].0 in KeysOf(ps) && qs[i].1 == sort(Lookup(ps, qs[i].0))
    requires forall i :: 0 <= i < |rs| ==> rs[i].0 in KeysOf(qs) && rs[i].1 == sort(Lookup(qs, rs[i].0))
    requires forall i :: 0 <= i < |ps| ==> sort(sort(ps[i].1)) == sort(ps[i].1)
    ensures rs == qs
  {
    forall i | 0 <= i < |qs| ensures rs[i] == qs[i] {
      var k := qs[i].0;
      assert rs[i].0 == k by { assert KeysOf(rs)[i] == KeysOf(qs)[i]; }
      var j := IndexOf(qs, k);
      assert qs[j].1 == sort(ps[IndexOf(ps, k)].1);
    }
  }

  /** Sorting a sorted object again with the same options changes nothing, given that its values do. */
  lemma ObjectIdempotent(ps: seq<(string, JValue)>, opts: SortOptions, collator: Collator)
    requires OrderFor(opts).LocaleOrder? ==> CollatorIsPreorder(collator)
    requires forall i :: 0 <= i < |ps| ==>
      SortValue(SortValue(ps[i].1, Defaults, collator), Defaults, collator) == SortValue(ps[i].1, Defaults, collator)
    ensures var qs := SortValue(JObj(ps), opts, collator).entries;
      SortValue(JObj(qs), opts, collator) == JObj(qs)
  {
    var qs := SortValue(JObj(ps), opts, collator).entries;
    ObjectEntries(ps, opts, collator);
    KeysSorted(ps, opts, collator);
    SortByOfSorted(KeysOf(qs), KeyLe(OrderFor(opts), collator));
    ObjectEntries(qs, opts, collator);
    var sort := (w: JValue) => SortValue(w, Defaults, collator);
    ResortedEntries(ps, qs, SortValue(JObj(qs), opts, collator).entries, sort);
  }

  /** Sorting a sorted tree again with the same options changes nothing. */
  lemma {:induction false} SortIdempotent(v: JValue, opts: SortOptions, collator: Collator)
    requires OrderFor(opts).LocaleOrder? ==> CollatorIsPreorder(collator)
    ensures SortValue(SortValue(v, opts, collator), opts, collator) == SortValue(v, opts, collator)
  {
    match v
    case JArr(xs) =>
      var ys := SortValue(v, opts, collator).arr;
      forall i | 0 <= i < |xs| ensures SortValue(ys[i], Defaults, collator) == ys[i] {
        SortIdempotent(xs[i], Defaults, collator);
      }
    case JObj(ps) =>
      forall i | 0 <= i < |ps| ensures
        SortValue(SortValue(ps[i].1, Defaults, collator), Defaults, collator) == SortValue(ps[i].1, Defaults, collator)
      {
        SortIdempotent(ps[i].1, Defaults, collator);
      }
      ObjectIdempotent(ps, opts, collator);
    case _ =>
  }
}
