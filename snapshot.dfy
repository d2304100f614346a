/**
 * The raw vehicle-status payload as the sensors read it, and the few
 * Python-level primitives they apply to it: a two-level `dict.get` with a
 * default, `float()` coercion, unwrapping a one-element list, and the
 * truthiness test that decides whether a sensor refreshes at all.
 */
module Snapshot {

  datatype Option<+T> = None | Some(value: T)

  /** The outcome of a step that can raise: `Raised` stands for the
      `TypeError` that `float()` or a dictionary lookup throws on a value of
      the wrong kind. */
  datatype Result<+T> = Ok(value: T) | Raised

  /** A leaf of the vendor's JSON payload: JSON null, a number, or a list
      (the battery voltage sometimes arrives as a one-element list). */
  datatype Value = Null | Num(x: real) | List(items: seq<Value>)

  /** One section of the payload, such as "vehicleBasic" or "enduranceStatus". */
  type Group = map<string, Value>

  /** A whole payload: section name to section. */
  type Snapshot = map<string, Group>

  /** `data.get(group, {}).get(key, default)`. */
  function Field(data: Snapshot, group: string, key: string, default: Value): (v: Value)
    ensures group !in data ==> v == default
  {
    if group in data && key in data[group] then data[group][key] else default
  }

  /** Python's `float(v)`: numbers pass through, None and lists raise. */
  function Float(v: Value): (r: Result<real>)
    ensures r.Ok? <==> v.Num?
    ensures v.Num? ==> r.value == v.x
  {
    match v
    case Num(x) => Ok(x)
    case _ => Raised
  }

  /** `v[0] if isinstance(v, list) and v else v`: a non-empty list is replaced
      by its first element; an empty list stays as it is. */
  function FirstIfList(v: Value): Value
  {
    if v.List? && |v.items| > 0 then v.items[0] else v
  }

  /** `if data:` in a sensor's refresh: neither None nor an empty dict. */
  predicate Refreshes(data: Option<Snapshot>)
  {
    data.Some? && |data.value| > 0
  }
}
