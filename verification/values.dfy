/** Dynamically typed Python values, as they appear in request parameters
    (`additional_params`) and response payloads (`results`). */
module Values {
  import opened Wrappers

  /** The JavaScript payloads the script-based services return. Their text is
      an opaque template; the model records only which branch produced it. */
  datatype Script =
    | RegressionOrchestration
    | NetPositionCase(caseId: string)
    | NetPositionNotImplemented
    | SessionReminderCase(caseId: string)
    | MaxBetCase(caseId: string)
    | MaxBetNotImplemented

  datatype Value =
    | VNone
    | VBool(b: bool)
    | VInt(i: int)
    | VReal(r: real)
    | VStr(s: string)
    | VList(items: seq<Value>)
    | VDict(entries: map<string, Value>)
    | VScript(script: Script)

  /** Python truthiness: None, False, 0, 0.0 and empty containers are falsy. */
  predicate Truthy(v: Value)
  {
    match v
    case VNone => false
    case VBool(b) => b
    case VInt(i) => i != 0
    case VReal(r) => r != 0.0
    case VStr(s) => s != []
    case VList(items) => items != []
    case VDict(entries) => entries != map[]
    case VScript(_) => true
  }

  /** `d.get(key, default)` */
  function Get(d: map<string, Value>, key: string, default: Value): Value
  {
    if key in d then d[key] else default
  }

  /** Python's `a or b`: the first operand when it is truthy, else the second. */
  function Or(a: Value, b: Value): (r: Value)
    ensures Truthy(a) ==> r == a
    ensures !Truthy(a) ==> r == b
  {
    if Truthy(a) then a else b
  }

  /** Python's name for the type of a value, as exception messages print it. */
  function TypeName(v: Value): string
  {
    match v
    case VNone => "NoneType"
    case VBool(_) => "bool"
    case VInt(_) => "int"
    case VReal(_) => "float"
    case VStr(_) => "str"
    case VList(_) => "list"
    case VDict(_) => "dict"
    case VScript(_) => "str"
  }

  /** `d[key]`; a missing key raises KeyError, whose text is the quoted key. */
  function Lookup(d: map<string, Value>, key: string): (r: Result<Value, string>)
    ensures r.Success? <==> key in d
    ensures r.Success? ==> r.value == d[key]
    ensures r.Failure? ==> r.error == "'" + key + "'"
  {
    if key in d then Success(d[key]) else Failure("'" + key + "'")
  }

  /** `v[0]`, or the text of the exception Python raises. Dictionaries here
      have string keys, so `d[0]` is KeyError(0). Script payloads only
      occur in responses, never as request parameters. */
  function First(v: Value): (r: Result<Value, string>)
    ensures r.Success? <==> (v.VList? && v.items != []) || (v.VStr? && v.s != [])
    ensures r.Success? && v.VList? ==> r.value == v.items[0]
    ensures r.Success? && v.VStr? ==> r.value == VStr([v.s[0]])
    ensures v.VList? && v.items == [] ==> r == Failure("list index out of range")
  {
    match v
    case VList(items) => if items != [] then Success(items[0]) else Failure("list index out of range")
    case VStr(s) => if s != [] then Success(VStr([s[0]])) else Failure("string index out of range")
    case VDict(_) => Failure("0")
    case VScript(_) => Failure("script payloads are not request parameters")
    case _ => Failure("'" + TypeName(v) + "' object is not subscriptable")
  }

  /** Numeric view of a value for Python's `>=`; None when the comparison raises. */
  function AsNumber(v: Value): Option<real>
  {
    match v
    case VBool(b) => Some(if b then 1.0 else 0.0)
    case VInt(i) => Some(i as real)
    case VReal(r) => Some(r)
    case _ => None
  }

  function IntList(xs: seq<int>): (r: Value)
    ensures r.VList? && |r.items| == |xs|
    ensures forall i :: 0 <= i < |xs| ==> r.items[i] == VInt(xs[i])
  {
    VList(seq(|xs|, i requires 0 <= i < |xs| => VInt(xs[i])))
  }
}
