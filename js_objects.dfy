/**
 * Property access on a JavaScript object literal used as a lookup table
 * (`table[key]`): a key the literal does not define is still found on
 * `Object.prototype` when it names one of that object's members.
 */
module JsObjects {
  import JsText

  /** The members every object literal inherits from `Object.prototype`. */
  const PrototypeMembers: set<string> := LowerCaseMembers + CamelCaseMembers

  const LowerCaseMembers: set<string> := {"constructor", "__proto__"}

  const CamelCaseMembers: set<string> := {
    "hasOwnProperty", "isPrototypeOf", "propertyIsEnumerable", "toLocaleString", "toString", "valueOf",
    "__defineGetter__", "__defineSetter__", "__lookupGetter__", "__lookupSetter__"}

  /** Each camel-case member has a capital letter. */
  lemma CamelCaseMembersHaveCapitals(m: string)
    requires m in CamelCaseMembers
    ensures !JsText.IsLowerCase(m)
  {
    if m == "hasOwnProperty" { assert JsText.IsAsciiUpper(m[3]); }
    else if m == "isPrototypeOf" { assert JsText.IsAsciiUpper(m[2]); }
    else if m == "propertyIsEnumerable" { assert JsText.IsAsciiUpper(m[8]); }
    else if m == "toLocaleString" { assert JsText.IsAsciiUpper(m[2]); }
    else if m == "toString" { assert JsText.IsAsciiUpper(m[2]); }
    else if m == "valueOf" { assert JsText.IsAsciiUpper(m[5]); }
    else { assert JsText.IsAsciiUpper(m[8]); }
  }

  /** Only two prototype members can be reached with a lower-cased key. */
  lemma LowerCasePrototypeMembers(key: string)
    requires JsText.IsLowerCase(key)
    ensures key in PrototypeMembers <==> key in LowerCaseMembers
  {
    if key in CamelCaseMembers {
      CamelCaseMembersHaveCapitals(key);
    }
  }

  /** What `table[key]` evaluates to for a table whose own properties are strings. */
  datatype Value =
    | Str(s: string)          // an own property
    | Inherited(name: string) // a function or object found on the prototype
    | Undefined

  /** `table[key]`: own properties first, then the prototype chain. */
  function Get(table: map<string, string>, key: string): Value {
    if key in table then Str(table[key])
    else if key in PrototypeMembers then Inherited(key)
    else Undefined
  }

  /** JavaScript truthiness: the empty string and `undefined` are falsy; functions and objects are truthy. */
  predicate IsTruthy(v: Value) {
    match v
    case Str(s) => s != ""
    case Inherited(_) => true
    case Undefined => false
  }

  /** `a || b`. */
  function Or(a: Value, b: Value): Value {
    if IsTruthy(a) then a else b
  }

  /** A lookup that reads only the table's own entries. */
  function GetOwn(table: map<string, string>, key: string): Value {
    if key in table then Str(table[key]) else Undefined
  }

  /** Outside the prototype's member names, `table[key]` reads only own entries. */
  lemma GetIsOwnExceptPrototype(table: map<string, string>, key: string)
    ensures key !in PrototypeMembers ==> Get(table, key) == GetOwn(table, key)
    ensures key in PrototypeMembers && key !in table ==> Get(table, key) == Inherited(key)
  {
  }
}
