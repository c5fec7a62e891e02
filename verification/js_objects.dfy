/**
 * The JavaScript objects the middleware reads and builds: plain property maps,
 * lodash `fp.pick`, and the left-to-right `Object.assign` merge.
 */
module JsObjects {

  /** The JavaScript values that can appear in a request, a response or a log record. */
  datatype Value =
    | Undefined
    | Null
    | Bool(b: bool)
    | Num(n: int)
    | Str(s: string)
    | Obj(fields: map<string, Value>)

  /**
   * A plain object: its own enumerable properties, keyed by property name (a `string`,
   * or an enumeration of the names the code uses). A key may be present with value `undefined`.
   */
  type Object<K> = map<K, Value>

  /** Property read `o[k]`: a missing key reads as `undefined`. */
  function Get<K>(o: Object<K>, k: K): (v: Value)
    ensures k !in o ==> v == Undefined
    ensures k in o ==> v == o[k]
  {
    if k in o then o[k] else Undefined
  }

  /**
   * `fp.pick(keys)(o)`: a fresh object holding exactly those listed keys that `o` has,
   * each with the value `o` has for it. A listed key that `o` lacks is not created.
   */
  function Pick<K(!new)>(keys: seq<K>, o: Object<K>): (r: Object<K>)
    ensures forall k :: k in r <==> k in keys && k in o
    ensures forall k :: k in r ==> r[k] == o[k]
  {
    if |keys| == 0 then map[]
    else
      var k := keys[|keys| - 1];
      var rest := Pick(keys[..|keys| - 1], o);
      if k in o then rest[k := o[k]] else rest
  }

  /**
   * `Object.assign({}, parts[0], ..., parts[n-1])`: copies every part in turn into one
   * object, so a key held by several parts keeps the value of the last of them.
   */
  function Assign<K(!new)>(parts: seq<Object<K>>): Object<K> {
    if |parts| == 0 then map[] else Assign(parts[..|parts| - 1]) + parts[|parts| - 1]
  }

  /** The merge holds exactly the keys some part holds. */
  lemma {:induction false} AssignKeys<K(!new)>(parts: seq<Object<K>>, k: K)
    ensures k in Assign(parts) <==> exists i :: 0 <= i < |parts| && k in parts[i]
  {
    if |parts| > 0 {
      var n := |parts| - 1;
      AssignKeys(parts[..n], k);
      if k in Assign(parts[..n]) {
        var i :| 0 <= i < n && k in parts[..n][i];
        assert k in parts[i];
      }
      if exists i :: 0 <= i < |parts| && k in parts[i] {
        var i :| 0 <= i < |parts| && k in parts[i];
        if i < n {
          assert k in parts[..n][i];
        }
      }
    }
  }

  /** The value `Object.assign` keeps for `k` is that of the last part holding `k`. */
  lemma {:induction false} AssignLastWins<K(!new)>(parts: seq<Object<K>>, i: nat, k: K)
    requires i < |parts| && k in parts[i]
    requires forall j :: i < j < |parts| ==> k !in parts[j]
    ensures k in Assign(parts) && Assign(parts)[k] == parts[i][k]
  {
    var n := |parts| - 1;
    if i < n {
      var init := parts[..n];
      assert init[i] == parts[i];
      forall j | i < j < |init| ensures k !in init[j] {
        assert init[j] == parts[j];
      }
      AssignLastWins(init, i, k);
    }
  }

  /** Parts whose keys are disjoint: every key a part holds is assigned to that part by `owner`. */
  ghost predicate OwnedBy<K>(parts: seq<Object<K>>, owner: K -> int) {
    forall j, k :: 0 <= j < |parts| && k in parts[j] ==> owner(k) == j
  }

  /**
   * Merging parts with disjoint keys: a key is in the result exactly when its owning part
   * holds it, and then with that part's value, whatever the merge order.
   */
  lemma AssignOwned<K(!new)>(parts: seq<Object<K>>, owner: K -> int, k: K)
    requires OwnedBy(parts, owner)
    ensures k in Assign(parts) <==> 0 <= owner(k) < |parts| && k in parts[owner(k)]
    ensures k in Assign(parts) ==> Assign(parts)[k] == parts[owner(k)][k]
  {
    AssignKeys(parts, k);
    if k in Assign(parts) {
      var i :| 0 <= i < |parts| && k in parts[i];
      AssignLastWins(parts, i, k);
    }
  }

  /** Two-object merge `Object.assign({}, a, b)`: `b` wins on shared keys, `a` keeps the rest. */
  lemma AssignPair<K(!new)>(a: Object<K>, b: Object<K>)
    ensures Assign([a, b]).Keys == a.Keys + b.Keys
    ensures forall k :: k in b ==> Assign([a, b])[k] == b[k]
    ensures forall k :: k in a && k !in b ==> Assign([a, b])[k] == a[k]
  {
    assert [a, b][0] == a && [a, b][1] == b;
    forall k | k in Assign([a, b]) ensures k in a || k in b {
      AssignKeys([a, b], k);
    }
    forall k | k in b ensures k in Assign([a, b]) && Assign([a, b])[k] == b[k] {
      AssignLastWins([a, b], 1, k);
    }
    forall k | k in a && k !in b ensures k in Assign([a, b]) && Assign([a, b])[k] == a[k] {
      AssignLastWins([a, b], 0, k);
    }
  }
}
