/** Shared vocabulary for the page-interaction model: optional values (a DOM
    lookup that may find nothing, an optional argument), element identities,
    and the string form JavaScript gives a boolean. */
module Dom {

  datatype Option<+T> = None | Some(value: T)

  /** Identity of a DOM element. Only equality between elements matters. */
  type ElementId = nat

  /** `String(b)` for a JavaScript boolean: "true" or "false". */
  function BoolString(b: bool): (s: string)
    ensures s == "true" <==> b
    ensures s == "false" <==> !b
  {
    if b then "true" else "false"
  }

  /** `Math.abs` on integer offsets. */
  function Abs(x: int): (r: nat)
    ensures r == x || r == -x
  {
    if x < 0 then -x else x
  }
}
