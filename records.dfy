/**
 * The records the design service returns: plain objects whose properties
 * hold strings.  Reading a property the object does not have gives
 * `undefined`.
 */
module Records {
  import opened JsStrings

  /** A property value: `undefined`, or a string. */
  datatype Value = Undefined | Str(text: JsString)

  /** An object, as its own enumerable properties. */
  type Record = map<JsString, Value>

  const ID: JsString := Js("id")
  const NAME: JsString := Js("name")
  const PROJECT_ID: JsString := Js("projectId")
  const BRANCH_ID: JsString := Js("branchId")
  const FILE_ID: JsString := Js("fileId")
  const LAST_CHANGED_AT_SHA: JsString := Js("lastChangedAtSha")

  /** Property access `r[key]`. */
  function Get(r: Record, key: JsString): Value
  {
    if key in r then r[key] else Undefined
  }

  /** String conversion, as done by `+` with a string and by `${...}` in a template literal. */
  function ToStr(v: Value): (s: JsString)
    ensures v.Str? ==> s == v.text
    ensures s == [] ==> v == Str([])
  {
    match v
    case Undefined => Js("undefined")
    case Str(s) => s
  }

  /**
   * The object spread `{ ...r, branchId: v }`: every property of r is
   * copied, then branchId is set, whether r had one or not.
   */
  function WithBranchId(r: Record, v: Value): (r': Record)
    ensures r'.Keys == r.Keys + {BRANCH_ID}
    ensures Get(r', BRANCH_ID) == v
    ensures forall k :: k != BRANCH_ID ==> Get(r', k) == Get(r, k)
  {
    r[BRANCH_ID := v]
  }
}
