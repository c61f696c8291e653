/**
 * Plain JavaScript objects as the command line handles them: own properties in insertion order,
 * each holding a JSON value or `undefined`.
 */
module JsObject {
  import opened Base
  import opened Json

  /** A property value: `None` is `undefined`. */
  type Prop = Option<JValue>

  /** Own properties in insertion order. */
  type Obj = seq<(string, Prop)>

  /** An object's property names are distinct. */
  predicate Valid(o: Obj) {
    Distinct(KeysOf(o))
  }

  /** `o[k]`: a missing property reads as `undefined`. */
  function Get(o: Obj, k: string): (v: Prop)
    ensures k !in KeysOf(o) ==> v.None?
  {
    if k in KeysOf(o) then Lookup(o, k) else None
  }

  /** `o[k] = v`: an existing property keeps its place, a new one goes last. */
  function Set(o: Obj, k: string, v: Prop): (r: Obj)
    ensures k in KeysOf(o) ==> KeysOf(r) == KeysOf(o)
    ensures k !in KeysOf(o) ==> KeysOf(r) == KeysOf(o) + [k]
  {
    if k in KeysOf(o) then
      var i := IndexOf(o, k);
      var r := o[i := (k, v)];
      assert forall j :: 0 <= j < |r| ==> r[j].0 == o[j].0;
      r
    else o + [(k, v)]
  }

  /** Reading back a property just written gives the written value; every other property is untouched. */
  lemma GetSet(o: Obj, k: string, v: Prop, k': string)
    ensures Get(Set(o, k, v), k') == if k' == k then v else Get(o, k')
  {
    var r := Set(o, k, v);
    assert k in KeysOf(r) by {
      if k in KeysOf(o) {
        assert r[IndexOf(o, k)].0 == k;
      } else {
        assert r[|o|].0 == k;
      }
    }
    if k' == k {
      if k in KeysOf(o) {
        assert IndexOf(r, k) == IndexOf(o, k) by { IndexOfSameKeys(o, r, k); }
      } else {
        IndexOfAppend(o, k, v, k);
      }
    } else if k' in KeysOf(o) {
      if k in KeysOf(o) {
        IndexOfSameKeys(o, r, k');
      } else {
        IndexOfAppend(o, k, v, k');
      }
    } else {
      assert k' !in KeysOf(r);
    }
  }

  /** Writing a property keeps the names distinct. */
  lemma SetValid(o: Obj, k: string, v: Prop)
    requires Valid(o)
    ensures Valid(Set(o, k, v))
  {
  }

  lemma IndexOfSameKeys<V>(o: seq<(string, V)>, r: seq<(string, V)>, k: string)
    requires KeysOf(o) == KeysOf(r) && k in KeysOf(o)
    ensures IndexOf(r, k) == IndexOf(o, k)
  {
    var i, j := IndexOf(o, k), IndexOf(r, k);
    assert KeysOf(o)[i] == k && KeysOf(r)[j] == k;
  }

  lemma IndexOfAppend<V>(o: seq<(string, V)>, k: string, v: V, k': string)
    requires k !in KeysOf(o)
    requires k' == k || k' in KeysOf(o)
    ensures k' in KeysOf(o + [(k, v)])
    ensures k' == k ==> IndexOf(o + [(k, v)], k') == |o|
    ensures k' in KeysOf(o) ==> IndexOf(o + [(k, v)], k') == IndexOf(o, k')
  {
    var r := o + [(k, v)];
    assert r[|o|].0 == k;
    if k' == k {
      assert forall j :: 0 <= j < |o| ==> KeysOf(o)[j] != k;
    } else {
      var i := IndexOf(o, k');
      assert r[i].0 == k';
      var j := IndexOf(r, k');
      assert KeysOf(o)[i] == k';
      if j < |o| {
        assert KeysOf(o)[j] == k';
      }
    }
  }

  /** In an object with distinct names, each entry is what its name reads. */
  lemma GetAt(o: Obj, n: nat)
    requires Valid(o) && n < |o|
    ensures Get(o, o[n].0) == o[n].1
  {
    var k := o[n].0;
    assert KeysOf(o)[n] == k;
    var i := IndexOf(o, k);
    assert KeysOf(o)[i] == k;
  }

  /** A prefix of an object with distinct names has distinct names, none of them the next entry's. */
  lemma PrefixValid(o: Obj, n: nat)
    requires Valid(o) && n < |o|
    ensures Valid(o[..n]) && o[n].0 !in KeysOf(o[..n])
  {
    assert forall j :: 0 <= j < n ==> KeysOf(o[..n])[j] == KeysOf(o)[j];
    forall j | 0 <= j < n ensures KeysOf(o[..n])[j] != o[n].0 {
      assert KeysOf(o)[j] != KeysOf(o)[n];
    }
  }

  /** Dropping the last entry of an object with distinct names leaves every other name's value. */
  lemma GetInit(o: Obj, k: string)
    requires Valid(o) && o != [] && k != o[|o| - 1].0
    ensures Get(o[..|o| - 1], k) == Get(o, k)
  {
    var n := |o| - 1;
    PrefixValid(o, n);
    assert KeysOf(o) == KeysOf(o[..n]) + [o[n].0];
    if k in KeysOf(o[..n]) {
      var i := IndexOf(o[..n], k);
      GetAt(o[..n], i);
      GetAt(o, i);
    }
  }

  /** `v == null`: `null` or `undefined`. */
  predicate IsNullish(v: Prop) {
    v.None? || v.value.JNull?
  }

  /** JavaScript truthiness of a property value. */
  predicate Truthy(v: Prop) {
    match v
    case None => false
    case Some(JNull) => false
    case Some(JBool(b)) => b
    case Some(JNum(n)) => n != 0.0
    case Some(JStr(s)) => s != ""
    case Some(JArr(_)) => true
    case Some(JObj(_)) => true
  }

  /** A nullish value is falsy. */
  lemma NullishFalsy(v: Prop)
    requires IsNullish(v)
    ensures !Truthy(v)
  {
  }
}
