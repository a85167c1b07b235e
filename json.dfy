/** JSON values as the proxy server and the API client see them, with
    JavaScript's truthiness rule. */
module JsonData {
  import opened Wrappers

  datatype Json =
    | JNull
    | JBool(b: bool)
    | JNum(n: real)
    | JStr(s: string)
    | JArr(elems: seq<Json>)
    | JObj(fields: map<string, Json>)

  /** JavaScript truthiness: null, false, 0 and "" are falsy; arrays and objects are truthy. */
  predicate Truthy(j: Json)
  {
    match j
    case JNull => false
    case JBool(b) => b
    case JNum(n) => n != 0.0
    case JStr(s) => s != ""
    case JArr(_) => true
    case JObj(_) => true
  }

  /** `j.k` for an object `j`; `None` stands for undefined. */
  function Member(j: Json, k: string): Option<Json>
  {
    if j.JObj? && k in j.fields then Some(j.fields[k]) else None
  }

  /** `j.k` is present and truthy. */
  predicate TruthyMember(j: Json, k: string)
  {
    Member(j, k).Some? && Truthy(Member(j, k).value)
  }

  function Obj1(k: string, v: Json): Json
  {
    JObj(map[k := v])
  }

  function Obj2(k1: string, v1: Json, k2: string, v2: Json): Json
  {
    JObj(map[k1 := v1, k2 := v2])
  }

  /** `{error: message}`, the proxy's error body. */
  function ErrorBody(message: string): Json
  {
    Obj1("error", JStr(message))
  }

  /** A whole number within JavaScript's safe-integer range. */
  const MaxSafeInteger: int := 9007199254740991

  predicate IsInteger(n: real)
  {
    n.Floor as real == n
  }

  predicate IsSafe(n: real)
  {
    -(MaxSafeInteger as real) <= n <= MaxSafeInteger as real
  }
}
