/** The generic configuration tree the worker receives: a JSON-like value
    whose dictionaries are the `Map<String, Object>` instances the Java
    code reads with the `Structs` getters. */
module Values {

  import opened Wrappers

  /** A Java `long`: every integer that reaches a `Long` getter fits 64 bits. */
  type Int64 = n: int | -0x8000_0000_0000_0000 <= n < 0x8000_0000_0000_0000

  /** One entry of a configuration dictionary. `Null` is a key that is
      present but bound to Java `null`. */
  datatype Value =
    | Null
    | Bool(b: bool)
    | Long(n: Int64)
    | Str(s: string)
    | List(items: seq<Value>)
    | Dict(fields: map<string, Value>)

  type Dictionary = map<string, Value>

  /** A `CloudObject`: a dictionary wrapped as a typed configuration object.
      Its internals are not part of this model; the wrap keeps the fields. */
  datatype CloudObject = CloudObject(fields: Dictionary)

  /** True when `v` is a list whose every element is a dictionary. */
  predicate IsListOfMaps(v: Value) {
    v.List? && forall i :: 0 <= i < |v.items| ==> v.items[i].Dict?
  }

  /** The dictionaries held by a list of maps, in list order. */
  function MapsOf(v: Value): (ms: seq<Dictionary>)
    requires IsListOfMaps(v)
    ensures |ms| == |v.items|
    ensures forall i :: 0 <= i < |ms| ==> v.items[i] == Dict(ms[i])
  {
    seq(|v.items|, i requires 0 <= i < |v.items| => v.items[i].fields)
  }

  /** The list-of-maps value holding `ms`, in order: the inverse of `MapsOf`. */
  function ListOfMaps(ms: seq<Dictionary>): (v: Value)
    ensures IsListOfMaps(v)
    ensures MapsOf(v) == ms
  {
    var v := List(seq(|ms|, i requires 0 <= i < |ms| => Dict(ms[i])));
    assert MapsOf(v) == ms;
    v
  }

  /** `MapsOf` loses nothing: re-wrapping its dictionaries gives back `v`. */
  lemma ListOfMapsOfMaps(v: Value)
    requires IsListOfMaps(v)
    ensures ListOfMaps(MapsOf(v)) == v
  {
  }

  /** `CloudObject.fromSpec`, treated as a wrap that keeps the dictionary's
      fields and sends an absent dictionary to an absent object. */
  function FromSpec(d: Option<Dictionary>): (r: Option<CloudObject>)
    ensures r.Some? <==> d.Some?
    ensures r.Some? ==> r.value.fields == d.value
  {
    match d
    case None => None
    case Some(m) => Some(CloudObject(m))
  }
}
