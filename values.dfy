/** Go's url.Values as the request builders use it: fields added one at a
    time with Add and looked up with Get. The model keeps the fields in the
    order they were added; url.Values.Encode sorts them by key when the form
    is sent, which is not part of this model. */
module Values {

  import opened Wrappers

  type Field = (string, string)
  type Values = seq<Field>

  /** url.Values.Add: appends one more value under key. */
  function Add(v: Values, key: string, value: string): (r: Values)
    ensures |r| == |v| + 1 && r[..|v|] == v && r[|v|] == (key, value)
  {
    v + [(key, value)]
  }

  /** url.Values.Get: the first value added under key, if any. */
  function Get(v: Values, key: string): Option<string> {
    if v == [] then None
    else if v[0].0 == key then Some(v[0].1)
    else Get(v[1..], key)
  }

  /** The keys of v, in the order they were added. */
  function Keys(v: Values): (ks: seq<string>)
    ensures |ks| == |v|
    ensures forall i :: 0 <= i < |v| ==> ks[i] == v[i].0
  {
    if v == [] then [] else [v[0].0] + Keys(v[1..])
  }

  /** Adding a field does not hide the value a key already had, and a key
      added for the first time reads back as the value it was added with. */
  lemma {:induction false} GetAdd(v: Values, key: string, value: string, k: string)
    ensures Get(Add(v, key, value), k) ==
            if k in Keys(v) then Get(v, k) else if k == key then Some(value) else None
  {
    if v != [] {
      assert Add(v, key, value)[1..] == Add(v[1..], key, value);
      GetAdd(v[1..], key, value, k);
    }
  }

  /** Adding a field appends its key to the key list. */
  lemma KeysAdd(v: Values, key: string, value: string)
    ensures Keys(Add(v, key, value)) == Keys(v) + [key]
  {
    var r := Add(v, key, value);
    forall i | 0 <= i < |v|
      ensures Keys(r)[i] == Keys(v)[i]
    {
      assert r[i] == r[..|v|][i];
    }
  }

  /** Get finds the first field under key. */
  lemma {:induction false} GetFirst(v: Values, key: string, i: nat)
    requires i < |v| && v[i].0 == key
    requires forall j :: 0 <= j < i ==> v[j].0 != key
    ensures Get(v, key) == Some(v[i].1)
  {
    if i > 0 {
      GetFirst(v[1..], key, i - 1);
    }
  }

  /** Get finds nothing exactly when no field was added under key, and what
      it finds was added under key. */
  lemma {:induction false} GetMeaning(v: Values, key: string)
    ensures Get(v, key).None? <==> key !in Keys(v)
    ensures Get(v, key).Some? ==> (key, Get(v, key).value) in v
  {
    if v != [] {
      GetMeaning(v[1..], key);
    }
  }
}
