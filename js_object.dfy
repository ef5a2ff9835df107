/**
 * A plain JavaScript object used as a dictionary with string keys
 * (`Record<string, V>`): `Object.keys` lists the keys in the order they were
 * first assigned, and assigning an existing key replaces its value in place.
 */
module JsObjects {

  datatype JsObject<V> = JsObject(keys: seq<string>, entries: map<string, V>)
  {
    /** The key list and the entry map describe the same keys, each key once. */
    ghost predicate Valid()
    {
      && (forall k :: k in entries <==> k in keys)
      && (forall i, j :: 0 <= i < j < |keys| ==> keys[i] != keys[j])
    }

    /** `Object.keys(o).length` */
    function Count(): nat
    {
      |keys|
    }
  }

  /** `{}` */
  function Empty<V>(): (o: JsObject<V>)
    ensures o.Valid() && o.Count() == 0 && o.entries == map[]
  {
    JsObject([], map[])
  }

  /** `o[k] = v`: a new key goes to the end of `Object.keys`, an existing one keeps its place. */
  function Put<V>(o: JsObject<V>, k: string, v: V): (r: JsObject<V>)
    ensures o.Valid() ==> r.Valid()
    ensures r.entries == o.entries[k := v]
    ensures k in o.entries ==> r.keys == o.keys
    ensures k !in o.entries ==> r.keys == o.keys + [k]
  {
    if k in o.entries then JsObject(o.keys, o.entries[k := v])
    else JsObject(o.keys + [k], o.entries[k := v])
  }
}
