/** The typed dictionary getters of `Structs` as the concat factory uses them.
    `Structs` itself is not part of this model: each getter is a total lookup
    that yields the typed value, `None` for an absent key when the caller
    passes a `null` default, and an error otherwise. */
module Structs {

  import opened Wrappers
  import opened Values

  /** The two exceptions the getters raise. */
  datatype Error =
    | ParameterNotFound(name: string)  // a required key is absent
    | IncorrectType(name: string)      // a key is present with the wrong shape

  /** `getObject(map, name)`: the lookup made without a default. */
  function GetObject(m: Dictionary, name: string): (r: Result<Dictionary, Error>)
    ensures name !in m ==> r == Failure(ParameterNotFound(name))
    ensures name in m && !m[name].Dict? ==> r == Failure(IncorrectType(name))
    ensures r.Success? ==> name in m && m[name] == Dict(r.value)
  {
    if name !in m then Failure(ParameterNotFound(name))
    else if m[name].Dict? then Success(m[name].fields)
    else Failure(IncorrectType(name))
  }

  /** `getObject(map, name, null)`. */
  function GetOptionalObject(m: Dictionary, name: string): (r: Result<Option<Dictionary>, Error>)
    ensures r.Success? <==> name !in m || m[name].Dict?
    ensures r.Failure? ==> r.error == IncorrectType(name)
    ensures r.Success? ==> (r.value.Some? <==> name in m)
    ensures r.Success? && r.value.Some? ==> m[name] == Dict(r.value.value)
  {
    if name !in m then Success(None)
    else if m[name].Dict? then Success(Some(m[name].fields))
    else Failure(IncorrectType(name))
  }

  /** `getBoolean(map, name, null)`. */
  function GetOptionalBoolean(m: Dictionary, name: string): (r: Result<Option<bool>, Error>)
    ensures r.Success? <==> name !in m || m[name].Bool?
    ensures r.Failure? ==> r.error == IncorrectType(name)
    ensures r.Success? ==> (r.value.Some? <==> name in m)
    ensures r.Success? && r.value.Some? ==> m[name] == Bool(r.value.value)
  {
    if name !in m then Success(None)
    else if m[name].Bool? then Success(Some(m[name].b))
    else Failure(IncorrectType(name))
  }

  /** `getLong(map, name, null)`. */
  function GetOptionalLong(m: Dictionary, name: string): (r: Result<Option<Int64>, Error>)
    ensures r.Success? <==> name !in m || m[name].Long?
    ensures r.Failure? ==> r.error == IncorrectType(name)
    ensures r.Success? ==> (r.value.Some? <==> name in m)
    ensures r.Success? && r.value.Some? ==> m[name] == Long(r.value.value)
  {
    if name !in m then Success(None)
    else if m[name].Long? then Success(Some(m[name].n))
    else Failure(IncorrectType(name))
  }

  /** `getListOfMaps(map, name, null)`. */
  function GetOptionalListOfMaps(m: Dictionary, name: string): (r: Result<Option<seq<Dictionary>>, Error>)
    ensures r.Success? <==> name !in m || IsListOfMaps(m[name])
    ensures r.Failure? ==> r.error == IncorrectType(name)
    ensures r.Success? ==> (r.value.Some? <==> name in m)
    ensures r.Success? && r.value.Some? ==> m[name] == ListOfMaps(r.value.value)
  {
    if name !in m then Success(None)
    else if IsListOfMaps(m[name]) then
      ListOfMapsOfMaps(m[name]);
      Success(Some(MapsOf(m[name])))
    else Failure(IncorrectType(name))
  }
}
