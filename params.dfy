/** URL query parameters: a Python dict of strings filled by `params[key] = value`.
    The dict is kept as a list of its entries; the order of that list is the model's
    own and stands for no order of the Python dict. */
module Params {
  import opened Values

  type Params = seq<(string, string)>

  function Keys(p: Params): (ks: set<string>)
    ensures forall i :: 0 <= i < |p| ==> p[i].0 in ks
    ensures forall k :: k in ks ==> exists i :: 0 <= i < |p| && p[i].0 == k
  {
    set i | 0 <= i < |p| :: p[i].0
  }

  /** No key occurs twice, as in a dict. */
  predicate UniqueKeys(p: Params)
  {
    forall i, j :: 0 <= i < j < |p| ==> p[i].0 != p[j].0
  }

  /** `params.get(key)`: the value stored under `key`, if any; there is one exactly
      when `key` is among the keys. */
  function Lookup(p: Params, key: string): (v: Option<string>)
    ensures v.Some? <==> key in Keys(p)
    ensures v.Some? ==> (key, v.value) in p
  {
    if p == [] then None
    else
      assert Keys(p) == {p[0].0} + Keys(p[1..]);
      if p[0].0 == key then Some(p[0].1) else Lookup(p[1..], key)
  }

  /** `params[key] = value`: the value of an existing key is replaced where it
      stands; a new key is added at the end. The keys become the old keys and `key`. */
  function Put(p: Params, key: string, value: string): (q: Params)
    ensures Keys(q) == Keys(p) + {key}
  {
    if p == [] then
      KeysCons((key, value), []);
      [(key, value)]
    else
      KeysCons(p[0], p[1..]);
      if p[0].0 == key then
        KeysCons((key, value), p[1..]);
        [(key, value)] + p[1..]
      else
        var rest := Put(p[1..], key, value);
        KeysCons(p[0], rest);
        [p[0]] + rest
  }

  /** After `params[key] = value` the key maps to the value and every other key to
      what it mapped to before. */
  lemma {:induction false} LookupPut(p: Params, key: string, value: string, other: string)
    ensures Lookup(Put(p, key, value), key) == Some(value)
    ensures other != key ==> Lookup(Put(p, key, value), other) == Lookup(p, other)
  {
    if p != [] && p[0].0 != key {
      LookupPut(p[1..], key, value, other);
    }
  }

  /** Storing a key the dict does not hold yet appends one entry at the end. */
  lemma {:induction false} PutNewKey(p: Params, key: string, value: string)
    requires key !in Keys(p)
    ensures Put(p, key, value) == p + [(key, value)]
  {
    if p != [] {
      assert Keys(p) == {p[0].0} + Keys(p[1..]);
      PutNewKey(p[1..], key, value);
      assert [p[0]] + (p[1..] + [(key, value)]) == p + [(key, value)];
    }
  }

  /** The keys of a dict with one entry in front. */
  lemma KeysCons(e: (string, string), q: Params)
    ensures Keys([e] + q) == {e.0} + Keys(q)
  {
    var eq := [e] + q;
    assert eq[0] == e && eq[1..] == q;
    forall k | k in Keys(eq) ensures k in {e.0} + Keys(q) {
      var i :| 0 <= i < |eq| && eq[i].0 == k;
      if i > 0 {
        assert q[i - 1].0 == k;
      }
    }
    forall k | k in Keys(q) ensures k in Keys(eq) {
      var i :| 0 <= i < |q| && q[i].0 == k;
      assert eq[i + 1].0 == k;
    }
  }

  lemma KeysAppend(p: Params, q: Params)
    ensures Keys(p + q) == Keys(p) + Keys(q)
  {
    var pq := p + q;
    forall k | k in Keys(p + q) ensures k in Keys(p) + Keys(q) {
      var i :| 0 <= i < |pq| && pq[i].0 == k;
      if i >= |p| {
        assert q[i - |p|].0 == k;
      }
    }
    forall k | k in Keys(p) ensures k in Keys(p + q) {
      var i :| 0 <= i < |p| && p[i].0 == k;
      assert pq[i].0 == k;
    }
    forall k | k in Keys(q) ensures k in Keys(p + q) {
      var i :| 0 <= i < |q| && q[i].0 == k;
      assert pq[|p| + i].0 == k;
    }
  }

  /** Joining two dicts without a key in common keeps every key unique. */
  lemma UniqueAppend(p: Params, q: Params)
    requires UniqueKeys(p) && UniqueKeys(q) && Keys(p) !! Keys(q)
    ensures UniqueKeys(p + q)
  {
    var pq := p + q;
    forall i, j | 0 <= i < j < |pq| ensures pq[i].0 != pq[j].0 {
      if j < |p| {
        assert pq[i] == p[i] && pq[j] == p[j];
      } else if i >= |p| {
        assert pq[i] == q[i - |p|] && pq[j] == q[j - |p|];
      } else {
        assert pq[i].0 in Keys(p) && pq[j] == q[j - |p|] && pq[j].0 in Keys(q);
      }
    }
  }

  /** The JSON object a dict of strings is sent as (`json.dumps(params)`): its fields
      are the dict's keys, and every value is a string. */
  function ToJson(p: Params): (j: Json)
    ensures j.JObj? && j.fields.Keys == Keys(p)
    ensures forall k :: k in j.fields ==> j.fields[k].JStr?
  {
    JObj(Fields(p))
  }

  function Fields(p: Params): (m: map<string, Json>)
    ensures m.Keys == Keys(p)
    ensures forall k :: k in m ==> m[k].JStr?
  {
    if p == [] then map[]
    else
      assert Keys(p) == {p[0].0} + Keys(p[1..]);
      Fields(p[1..])[p[0].0 := JStr(p[0].1)]
  }

  /** The JSON object holds exactly the dict's keys, each with its value. */
  lemma {:induction false} FieldsLookup(p: Params, key: string)
    ensures key in Fields(p) <==> Lookup(p, key).Some?
    ensures key in Fields(p) ==> Fields(p)[key] == JStr(Lookup(p, key).value)
  {
    if p != [] {
      FieldsLookup(p[1..], key);
    }
  }
}
