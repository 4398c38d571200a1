/** JavaScript values as the application handles them: request bodies,
    parsed model replies and Mongoose documents are all plain JS values.
    Also the few string primitives the code relies on (`trim`, the `\s`
    class, `toUpperCase`/`toLowerCase` on ASCII) and Mongoose's cast of a
    value to a String path. */
module JsValues {

  datatype Option<T> = None | Some(value: T) {
    predicate IsFailure() { None? }
    function PropagateFailure<U>(): Option<U> requires None? { None }
    function Extract(): T requires Some? { value }
  }

  /** A JS computation that either yields a value or throws an Error with a message. */
  datatype Result<T> = Ok(value: T) | Err(message: string) {
    predicate IsFailure() { Err? }
    function PropagateFailure<U>(): Result<U> requires Err? { Err(message) }
    function Extract(): T requires Ok? { value }
  }

  /** A JSON-shaped JS value. Numbers are integers here; `undefined` is kept
      apart from `null` because the code tests both. Objects are keyed maps
      (key order is not modelled). */
  datatype Value =
    | Undefined
    | Null
    | Bool(b: bool)
    | Num(n: int)
    | Str(s: string)
    | Arr(items: seq<Value>)
    | Obj(fields: map<string, Value>)

  /** JavaScript truthiness (`if (v)`, `!v`, `a || b`). */
  predicate Truthy(v: Value)
  {
    match v
    case Undefined => false
    case Null => false
    case Bool(b) => b
    case Num(n) => n != 0
    case Str(s) => s != ""
    case Arr(_) => true
    case Obj(_) => true
  }

  /** Property read `v.key`: a missing key, or a primitive receiver, gives `undefined`.
      (Reading a property of `null`/`undefined` throws; callers test for that first.) */
  function Get(v: Value, key: string): Value
  {
    if v.Obj? && key in v.fields then v.fields[key] else Undefined
  }

  /** `null` or `undefined`: the values a property read throws on. */
  predicate IsNothing(v: Value)
  {
    v.Null? || v.Undefined?
  }

  /** The message of the TypeError that reading property `key` of `null`
      or `undefined` throws. */
  function ReadOfNothing(v: Value, key: string): string
  {
    "Cannot read properties of " + (if v.Null? then "null" else "undefined") + " (reading '" + key + "')"
  }

  /** The message of the TypeError that `const { key, ... } = v` throws
      when `v` (written `source` in the code) is `null` or `undefined`. */
  function DestructureOfNothing(v: Value, key: string, source: string): string
  {
    "Cannot destructure property '" + key + "' of '" + source + "' as it is "
    + (if v.Null? then "null" else "undefined") + "."
  }

  /** The `key in v` operator on an object. */
  predicate Has(v: Value, key: string)
  {
    v.Obj? && key in v.fields
  }

  /** `typeof v`. */
  function TypeOf(v: Value): (t: string)
    ensures t == "object" <==> v.Null? || v.Arr? || v.Obj?
    ensures t == "string" <==> v.Str?
  {
    match v
    case Undefined => "undefined"
    case Null => "object"
    case Bool(_) => "boolean"
    case Num(_) => "number"
    case Str(_) => "string"
    case Arr(_) => "object"
    case Obj(_) => "object"
  }

  // ---------------------------------------------------------------------
  // Whitespace and trimming

  /** The characters JavaScript's `trim` removes and its regular-expression
      class `\s` matches: WhiteSpace and LineTerminator of ECMA-262. */
  predicate IsSpace(c: char)
  {
    || c == '\t' || c == '\n' || c == '\U{000B}' || c == '\U{000C}' || c == '\r' || c == ' '
    || c == '\U{00A0}' || c == '\U{1680}' || ('\U{2000}' <= c <= '\U{200A}')
    || c == '\U{2028}' || c == '\U{2029}' || c == '\U{202F}' || c == '\U{205F}'
    || c == '\U{3000}' || c == '\U{FEFF}'
  }

  predicate AllSpace(s: string)
  {
    forall k :: 0 <= k < |s| ==> IsSpace(s[k])
  }

  predicate NoSpace(s: string)
  {
    forall k :: 0 <= k < |s| ==> !IsSpace(s[k])
  }

  /** Neither starts nor ends with whitespace. */
  predicate IsTrimmed(s: string)
  {
    s == [] || (!IsSpace(s[0]) && !IsSpace(s[|s| - 1]))
  }

  /** Where the trimmed text starts: the first index at or after `i` that
      is not whitespace, or the end. */
  function TrimStart(s: string, i: nat): (a: nat)
    requires i <= |s|
    ensures i <= a <= |s|
    ensures forall k :: i <= k < a ==> IsSpace(s[k])
    ensures a < |s| ==> !IsSpace(s[a])
    decreases |s| - i
  {
    if i < |s| && IsSpace(s[i]) then TrimStart(s, i + 1) else i
  }

  /** Where the trimmed text ends: the last index `b <= e`, not below `a`,
      with no whitespace right before it. */
  function TrimEnd(s: string, a: nat, e: nat): (b: nat)
    requires a <= e <= |s|
    ensures a <= b <= e
    ensures forall k :: b <= k < e ==> IsSpace(s[k])
    ensures a < b ==> !IsSpace(s[b - 1])
    decreases e - a
  {
    if a < e && IsSpace(s[e - 1]) then TrimEnd(s, a, e - 1) else e
  }

  /** `String.prototype.trim`: the input with its leading and trailing
      whitespace removed and nothing else changed. */
  function Trim(s: string): (r: string)
    ensures IsTrimmed(r)
    ensures var a := TrimStart(s, 0);
      var b := TrimEnd(s, a, |s|);
      && r == s[a..b]
      && (forall k :: 0 <= k < a ==> IsSpace(s[k]))
      && (forall k :: b <= k < |s| ==> IsSpace(s[k]))
  {
    var a := TrimStart(s, 0);
    var b := TrimEnd(s, a, |s|);
    assert a < b ==> s[a..b][0] == s[a] && s[a..b][b - a - 1] == s[b - 1];
    s[a..b]
  }

  /** The scan from `i` stops exactly at `a` when only whitespace lies
      between them and `a` is not whitespace (or is the end). */
  lemma {:induction false} TrimStartAt(s: string, i: nat, a: nat)
    requires i <= a <= |s|
    requires forall k :: i <= k < a ==> IsSpace(s[k])
    requires a < |s| ==> !IsSpace(s[a])
    ensures TrimStart(s, i) == a
    decreases a - i
  {
    if i < a {
      TrimStartAt(s, i + 1, a);
    }
  }

  /** The backward scan from `e` stops exactly at `b`. */
  lemma {:induction false} TrimEndAt(s: string, a: nat, b: nat, e: nat)
    requires a <= b <= e <= |s|
    requires forall k :: b <= k < e ==> IsSpace(s[k])
    requires a < b ==> !IsSpace(s[b - 1])
    ensures TrimEnd(s, a, e) == b
    decreases e - b
  {
    if b < e {
      TrimEndAt(s, a, b, e - 1);
    }
  }

  /** Trimming removes exactly the surrounding whitespace: an already trimmed
      string is left as it is, whatever whitespace is put around it. */
  lemma TrimSurrounded(pre: string, s: string, post: string)
    requires AllSpace(pre) && AllSpace(post) && IsTrimmed(s)
    ensures Trim(pre + s + post) == s
  {
    var w := pre + s + post;
    var a := |pre| + |s|;
    if s == [] {
      assert forall k :: 0 <= k < |w| ==> IsSpace(w[k]) by {
        forall k | 0 <= k < |w| ensures IsSpace(w[k]) {
          if k < |pre| { assert w[k] == pre[k]; } else { assert w[k] == post[k - |pre|]; }
        }
      }
      TrimStartAt(w, 0, |w|);
      TrimEndAt(w, |w|, |w|, |w|);
    } else {
      assert forall k :: 0 <= k < |pre| ==> IsSpace(w[k]) by {
        forall k | 0 <= k < |pre| ensures IsSpace(w[k]) { assert w[k] == pre[k]; }
      }
      assert w[|pre|] == s[0];
      TrimStartAt(w, 0, |pre|);
      assert forall k :: a <= k < |w| ==> IsSpace(w[k]) by {
        forall k | a <= k < |w| ensures IsSpace(w[k]) { assert w[k] == post[k - a]; }
      }
      assert w[a - 1] == s[|s| - 1];
      TrimEndAt(w, |pre|, a, |w|);
      assert w[|pre|..a] == s;
    }
  }

  // ---------------------------------------------------------------------
  // Case mapping (ASCII letters only)

  function UpperChar(c: char): char
  {
    if 'a' <= c <= 'z' then (c as int - 32) as char else c
  }

  function LowerChar(c: char): char
  {
    if 'A' <= c <= 'Z' then (c as int + 32) as char else c
  }

  /** `toLowerCase` on ASCII letters: same length, no upper-case ASCII letter
      left, and every other character kept. */
  function ToLower(s: string): (r: string)
    ensures |r| == |s|
    ensures forall k :: 0 <= k < |r| ==> !('A' <= r[k] <= 'Z')
    ensures forall k :: 0 <= k < |r| && !('A' <= s[k] <= 'Z') ==> r[k] == s[k]
  {
    seq(|s|, k requires 0 <= k < |s| => LowerChar(s[k]))
  }

  /** `toUpperCase` on ASCII letters. */
  function ToUpper(s: string): (r: string)
    ensures |r| == |s|
    ensures forall k :: 0 <= k < |r| ==> !('a' <= r[k] <= 'z')
    ensures forall k :: 0 <= k < |r| && !('a' <= s[k] <= 'z') ==> r[k] == s[k]
  {
    seq(|s|, k requires 0 <= k < |s| => UpperChar(s[k]))
  }

  // ---------------------------------------------------------------------
  // Mongoose's cast of a value to a String path

  function DigitChar(d: nat): char
    requires d < 10
  {
    "0123456789"[d]
  }

  function NatToDecimal(n: nat): (r: string)
    ensures |r| > 0
    decreases n
  {
    if n < 10 then [DigitChar(n)] else NatToDecimal(n / 10) + [DigitChar(n % 10)]
  }

  function IntToDecimal(n: int): string
  {
    if n < 0 then "-" + NatToDecimal(-n) else NatToDecimal(n)
  }

  /** A String schema path accepts a string as is and a number or boolean by
      its `toString`; `null`/`undefined` carry no string and an array or plain
      object is a cast error. */
  function CastString(v: Value): (r: Option<string>)
    ensures v.Str? ==> r == Some(v.s)
    ensures r.Some? <==> v.Str? || v.Num? || v.Bool?
  {
    match v
    case Str(s) => Some(s)
    case Num(n) => Some(IntToDecimal(n))
    case Bool(b) => Some(if b then "true" else "false")
    case _ => None
  }

  /** A `required: true` String path: it casts, and the result is not empty. */
  predicate RequiredString(v: Value)
  {
    CastString(v).Some? && CastString(v).value != ""
  }
}
