/** JSON values as the program sees them after `json.loads`. */
module Json {
  import opened PyStr

  /** Numbers are kept as integers: no float the model reads is inspected. */
  datatype JValue =
    | JNull
    | JBool(b: bool)
    | JNum(n: int)
    | JStr(s: string)
    | JList(items: seq<JValue>)
    | JObj(fields: map<string, JValue>)

  /** Python's truth value: `None`, `False`, `0`, `""`, `[]` and `{}` are
      false, every other value is true. */
  predicate Truthy(v: JValue) {
    match v
    case JNull => false
    case JBool(b) => b
    case JNum(n) => n != 0
    case JStr(s) => s != ""
    case JList(items) => items != []
    case JObj(fields) => fields != map[]
  }

  /** Python can use lists and dicts neither as dict keys nor in `x in d`. */
  predicate Hashable(v: JValue) {
    !v.JList? && !v.JObj?
  }

  /** `str()` of a value in an f-string, for the values a JSON file can
      hold; a list or dict is rendered by `compound`, since its text depends
      on the key order the model does not keep. */
  function Format(v: JValue, compound: JValue -> string): (r: string)
    ensures v.JStr? ==> r == v.s
  {
    match v
    case JNull => "None"
    case JBool(b) => if b then "True" else "False"
    case JNum(n) => IntToStr(n)
    case JStr(s) => s
    case JList(_) => compound(v)
    case JObj(_) => compound(v)
  }
}
