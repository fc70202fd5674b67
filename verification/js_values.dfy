/**
 * The pieces of JavaScript value semantics that the handlers, the
 * middleware and the response helpers depend on: truthiness, `typeof`,
 * the length of a string (counted in UTF-16 code units), and what a
 * `catch` block receives.
 */
module JsValues {
  import opened Wrappers

  /** A loosely typed JavaScript value. Objects (arrays included) and
      functions are references, told apart only by an opaque identity.
      Numbers are modelled by integers. */
  datatype JsValue =
    | Undefined
    | Null
    | Boolean(b: bool)
    | Number(n: int)
    | Str(s: string)
    | Object(ref: nat)
    | Function(ref: nat)

  /** Whether `if (v)` takes its branch. Among the values `typeof` calls
      "object" only `null` is falsy, functions are always truthy and
      `undefined` never is. */
  predicate Truthy(v: JsValue)
    ensures TypeOf(v) == "object" ==> (Truthy(v) <==> !v.Null?)
    ensures TypeOf(v) == "function" ==> Truthy(v)
    ensures TypeOf(v) == "undefined" ==> !Truthy(v)
    ensures TypeOf(v) == "string" ==> (Truthy(v) <==> v.s != "")
  {
    match v
    case Undefined => false
    case Null => false
    case Boolean(b) => b
    case Number(n) => n != 0
    case Str(s) => s != ""
    case Object(_) => true
    case Function(_) => true
  }

  /** The result of the `typeof` operator. */
  function TypeOf(v: JsValue): (t: string)
    ensures t == "object" <==> v.Null? || v.Object?
    ensures t == "string" <==> v.Str?
  {
    match v
    case Undefined => "undefined"
    case Null => "object"
    case Boolean(_) => "boolean"
    case Number(_) => "number"
    case Str(_) => "string"
    case Object(_) => "object"
    case Function(_) => "function"
  }

  /** A string-typed request field or option that may be missing: it is
      truthy exactly when it is present and not empty. */
  predicate Present(field: Option<string>)
    ensures Present(field) <==> field.Some? && field.value != ""
    ensures Present(field) ==> Utf16Length(field.value) >= 1
  {
    field.Some? && Truthy(Str(field.value))
  }

  /** The number of UTF-16 code units that encode `c`: characters beyond
      the Basic Multilingual Plane take a surrogate pair. */
  function CodeUnits(c: char): nat
  {
    if c as int <= 0xFFFF then 1 else 2
  }

  /** `s.length` in JavaScript. */
  function Utf16Length(s: string): (n: nat)
    ensures |s| <= n <= 2 * |s|
  {
    if s == [] then 0 else CodeUnits(s[0]) + Utf16Length(s[1..])
  }

  /** The UTF-16 code units of one character: the character itself below
      0x10000, otherwise a high surrogate followed by a low surrogate that
      together carry the character's offset above 0x10000. */
  function EncodeChar(c: char): (u: seq<int>)
    ensures 1 <= |u| <= 2
    ensures forall k :: 0 <= k < |u| ==> 0 <= u[k] <= 0xFFFF
    ensures |u| == 1 ==> u[0] == c as int
    ensures |u| == 2 ==>
      0xD800 <= u[0] < 0xDC00 && 0xDC00 <= u[1] < 0xE000 &&
      0x10000 + (u[0] - 0xD800) * 0x400 + (u[1] - 0xDC00) == c as int
  {
    if c as int < 0x10000 then [c as int]
    else
      var v := c as int - 0x10000;
      [0xD800 + v / 0x400, 0xDC00 + v % 0x400]
  }

  /** The code units a JavaScript string holds for `s`. */
  function EncodeUtf16(s: string): (units: seq<int>)
    ensures forall k :: 0 <= k < |units| ==> 0 <= units[k] <= 0xFFFF
  {
    if s == [] then [] else EncodeChar(s[0]) + EncodeUtf16(s[1..])
  }

  /** `s.length` counts exactly the code units of the UTF-16 encoding. */
  lemma {:induction false} Utf16LengthCountsCodeUnits(s: string)
    ensures Utf16Length(s) == |EncodeUtf16(s)|
  {
    if s != [] {
      Utf16LengthCountsCodeUnits(s[1..]);
    }
  }

  /** For text made only of Basic Multilingual Plane characters, the
      JavaScript length is the number of characters. */
  lemma {:induction false} Utf16LengthOfBmp(s: string)
    requires forall i :: 0 <= i < |s| ==> s[i] as int <= 0xFFFF
    ensures Utf16Length(s) == |s|
  {
    if s != [] {
      Utf16LengthOfBmp(s[1..]);
    }
  }

  /** What a `catch (error)` block receives: an `Error` instance, which
      carries a message, or any other thrown value. */
  datatype Thrown = ErrorObject(message: string) | NonError(value: JsValue)
}
