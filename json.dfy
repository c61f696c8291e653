/**
 * JSON value trees as the linter's parser produces them: an object is its own
 * enumerable keys, in enumeration order, each with its value.
 */
module Json {

  datatype JValue =
    | JNull
    | JBool(b: bool)
    | JNum(n: real)
    | JStr(s: string)
    | JArr(arr: seq<JValue>)
    | JObj(entries: seq<(string, JValue)>)

  /** The keys of an entry list, in order. */
  function KeysOf<V>(ps: seq<(string, V)>): (ks: seq<string>)
    ensures |ks| == |ps|
    ensures forall i :: 0 <= i < |ps| ==> ks[i] == ps[i].0
  {
    seq(|ps|, i requires 0 <= i < |ps| => ps[i].0)
  }

  /** No key occurs twice. */
  predicate Distinct(ks: seq<string>) {
    forall i, j :: 0 <= i < j < |ks| ==> ks[i] != ks[j]
  }

  /** Position of the first occurrence of `k` in a key list. */
  function FirstIndex(ks: seq<string>, k: string): (i: nat)
    requires k in ks
    ensures i < |ks| && ks[i] == k
    ensures forall j :: 0 <= j < i ==> ks[j] != k
  {
    if ks[0] == k then 0 else 1 + FirstIndex(ks[1..], k)
  }

  /** Position of the first entry with key `k` (property access `o[k]`). */
  function IndexOf<V>(ps: seq<(string, V)>, k: string): (i: nat)
    requires k in KeysOf(ps)
    ensures i < |ps| && ps[i].0 == k
    ensures forall j :: 0 <= j < i ==> ps[j].0 != k
  {
    FirstIndex(KeysOf(ps), k)
  }

  function Lookup<V>(ps: seq<(string, V)>, k: string): V
    requires k in KeysOf(ps)
  {
    ps[IndexOf(ps, k)].1
  }

  /** Every object in the tree has distinct keys, as every JavaScript object does. */
  predicate WellFormed(v: JValue) {
    match v
    case JArr(xs) => forall i :: 0 <= i < |xs| ==> WellFormed(xs[i])
    case JObj(ps) => Distinct(KeysOf(ps)) && forall i :: 0 <= i < |ps| ==> WellFormed(ps[i].1)
    case _ => true
  }

  /** A distinct key list has each key at most once in its multiset. */
  lemma {:induction false} DistinctMultiset(ks: seq<string>)
    ensures Distinct(ks) <==> forall k :: multiset(ks)[k] <= 1
  {
    if ks == [] {
    } else {
      var init, last := ks[..|ks| - 1], ks[|ks| - 1];
      assert ks == init + [last];
      DistinctMultiset(init);
      if Distinct(ks) {
        assert last !in init;
        forall k ensures multiset(ks)[k] <= 1 {
          assert multiset(ks)[k] == multiset(init)[k] + multiset([last])[k];
        }
      } else {
        var i, j :| 0 <= i < j < |ks| && ks[i] == ks[j];
        if j < |ks| - 1 {
          assert !Distinct(init) by { assert init[i] == init[j]; }
          var k :| multiset(init)[k] > 1;
          assert multiset(ks)[k] >= multiset(init)[k];
        } else {
          assert last in init by { assert init[i] == last; }
          assert multiset(ks)[last] == multiset(init)[last] + 1;
        }
      }
    }
  }

  /** Two key lists holding the same multiset are distinct together. */
  lemma DistinctPermutation(ks: seq<string>, ls: seq<string>)
    requires multiset(ks) == multiset(ls)
    ensures Distinct(ks) <==> Distinct(ls)
  {
    DistinctMultiset(ks);
    DistinctMultiset(ls);
  }
}
