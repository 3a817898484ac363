/**
 * The value model of the interpreter (impls/dlisp/types.js).
 *
 * The JavaScript program mixes three kinds of runtime values: raw JavaScript
 * values (numbers produced by the reader, booleans produced by comparisons,
 * strings and arrays reached through a `.value` field, `undefined` for a
 * missing slot), instances of the Mal value classes, and host functions (the
 * primitives of the namespace and, in step 4, the closures built by `fn*`).
 * A single datatype covers all three so that every operation of the model is
 * total over what the program can meet.
 */
module Types {

  datatype Option<T> = None | Some(value: T)

  /** What a JavaScript `throw` carries, as far as the model distinguishes it. */
  datatype Error =
    | TypeError(what: string)   // a runtime TypeError raised by the host
    | Thrown(message: string)   // a string the interpreter throws, or an uncaught host error (a ReferenceError) by its message
    | Unmodelled(what: string)  // the outcome depends on host behaviour outside the model
    | OutOfFuel                 // the evaluation bound of the model was exhausted

  datatype Result<T> = Ok(value: T) | Err(error: Error) {
    predicate IsFailure() { Err? }
    function PropagateFailure<U>(): Result<U>
      requires Err?
    {
      Err(error)
    }
    function Extract(): T
      requires Ok?
    {
      value
    }
  }

  /** The primitive host functions that the steps install in their root frame. */
  datatype Op =
    | Add | Sub | Mul | Div
    | Lt | Gt | Le | Ge
    | Equal        // core.js `=`: isEqual over the `.value` fields
    | Identical    // step4 `=`: `args[0] === args[1]`
    | MakeList | IsList | IsEmpty | Count | Not | StrOp
    | Prn | PrStr | Println  // the console primitives of core.js
    | EvalOp       // step6/step8 `eval`: re-enters EVAL with the root frame

  datatype Value =
    // raw JavaScript values
    | Undefined
    | Null
    | Num(n: int)
    | Flag(flag: bool)
    | Text(text: string)
    | JsArray(elems: seq<Value>)
    // instances of the Mal classes of types.js
    | Sym(name: string)
    | Keyword(name: string)
    | Str(text: string)
    | Bool(truth: bool)
    | Nil
    | List(items: seq<Value>)
    | Vector(items: seq<Value>)
    | HashMap(items: seq<Value>)
    | Fn(id: nat, body: Value, binds: Value, env: nat)  // MalFunction: value, binds, env
    // host functions
    | Prim(op: Op)
    | Host(id: nat, form: Value, env: nat)  // a step-4 `fn*` closure over its form and frame
  {
    /** `instanceof MalValue`: the object was built by one of the Mal classes. */
    predicate IsMal() {
      Sym? || Keyword? || Str? || Bool? || Nil? || List? || Vector? || HashMap? || Fn?
    }
  }

  /** `ast.value[i]`: the i-th element, or `undefined` past the end. */
  function At(s: seq<Value>, i: nat): (r: Value)
    ensures i < |s| ==> r == s[i]
    ensures i >= |s| ==> r == Undefined
  {
    if i < |s| then s[i] else Undefined
  }

  /** JavaScript truthiness: `undefined`, `null`, `0`, `false` and `""` are falsy, objects never are. */
  predicate Truthy(v: Value) {
    match v
    case Undefined => false
    case Null => false
    case Num(n) => n != 0
    case Flag(b) => b
    case Text(s) => s != ""
    case _ => true
  }

  /**
   * The `.value` property. Reading it from `undefined` or `null` throws;
   * raw values and host functions have no such property. A MalFunction's
   * `.value` is its `(do ...)` body.
   */
  function FieldOf(v: Value): (r: Result<Value>)
    ensures r.Err? <==> v.Undefined? || v.Null?
    ensures r.Ok? && !v.IsMal() ==> r.value == Undefined
  {
    match v
    case Undefined => Err(TypeError("Cannot read properties of undefined (reading 'value')"))
    case Null => Err(TypeError("Cannot read properties of null (reading 'value')"))
    case Sym(s) => Ok(Text(s))
    case Keyword(s) => Ok(Text(s))
    case Str(s) => Ok(Text(s))
    case Bool(b) => Ok(Flag(b))
    case Nil => Ok(Null)
    case List(xs) => Ok(JsArray(xs))
    case Vector(xs) => Ok(JsArray(xs))
    case HashMap(xs) => Ok(JsArray(xs))
    case Fn(_, body, _, _) => Ok(body)
    case _ => Ok(Undefined)
  }

  /** The `.length` property: strings and arrays have one, other values read `undefined`. */
  function LengthOf(v: Value): (r: Result<Value>)
    ensures r.Ok? && r.value.Num? ==> v.Text? || v.JsArray?
  {
    match v
    case Undefined => Err(TypeError("Cannot read properties of undefined (reading 'length')"))
    case Null => Err(TypeError("Cannot read properties of null (reading 'length')"))
    case Text(s) => Ok(Num(|s|))
    case JsArray(xs) => Ok(Num(|xs|))
    case Prim(_) => Err(Unmodelled("arity of a host function"))
    case Host(_, _, _) => Err(Unmodelled("arity of a host function"))
    case _ => Ok(Undefined)
  }

  /** The number of turns `index < v.length` allows: a non-numeric length compares false at once. */
  function LengthBound(v: Value): (r: Result<nat>)
    ensures v.JsArray? ==> r == Ok(|v.elems|)
  {
    var len :- LengthOf(v);
    Ok(if len.Num? && len.n >= 0 then len.n else 0)
  }

  /** Indexing `x[i]` of a string or an array; anything else reads `undefined`. */
  function IndexOf(v: Value, i: nat): Value {
    match v
    case Text(s) => if i < |s| then Text([s[i]]) else Undefined
    case JsArray(xs) => At(xs, i)
    case _ => Undefined
  }

  // ---------------------------------------------------------------------------
  // Text conversions: `toString()` of types.js and the host's ToString.
  // ---------------------------------------------------------------------------

  function DigitChar(d: nat): (c: char)
    requires d < 10
    ensures '0' <= c <= '9' && c as int - '0' as int == d
  {
    ('0' as int + d) as char
  }

  function NatToString(n: nat): (s: string)
    ensures |s| >= 1
    ensures forall i :: 0 <= i < |s| ==> '0' <= s[i] <= '9'
  {
    if n < 10 then [DigitChar(n)] else NatToString(n / 10) + [DigitChar(n % 10)]
  }

  /** Number.prototype.toString on an integer (the model has no floats). */
  function IntToString(n: int): string {
    if n < 0 then "-" + NatToString(-n) else NatToString(n)
  }

  function BoolToString(b: bool): string {
    if b then "true" else "false"
  }

  /** `parts.join(sep)`. */
  function Join(parts: seq<string>, sep: string): (s: string)
    ensures parts == [] ==> s == ""
    ensures |parts| == 1 ==> s == parts[0]
    ensures |parts| >= 1 ==> |s| >= |parts[0]|
  {
    if parts == [] then ""
    else if |parts| == 1 then parts[0]
    else parts[0] + sep + Join(parts[1..], sep)
  }

  /** `s.slice(0, -1)`: drop the final character, if there is one. */
  function DropLastChar(s: string): (r: string)
    ensures |s| > 0 ==> r + [s[|s| - 1]] == s
    ensures |s| == 0 ==> r == ""
  {
    if |s| == 0 then "" else s[..|s| - 1]
  }

  /**
   * `v.toString()`: the method call on a value. The Mal classes render as
   * types.js says; raw values use the host's conversion; calling it on
   * `undefined` or `null` throws.
   */
  function Show(v: Value): Result<string>
    decreases v, 0
  {
    match v
    case Undefined => Err(TypeError("Cannot read properties of undefined (reading 'toString')"))
    case Null => Err(TypeError("Cannot read properties of null (reading 'toString')"))
    case Num(n) => Ok(IntToString(n))
    case Flag(b) => Ok(BoolToString(b))
    case Text(s) => Ok(s)
    case JsArray(xs) =>
      var parts :- JoinParts(xs);
      Ok(Join(parts, ","))
    case Sym(s) => Ok(s)
    case Keyword(s) => Ok(s)
    case Str(s) => Ok("\"" + s + "\"")
    case Bool(b) => Ok(BoolToString(b))
    case Nil => Ok("nil")
    case List(xs) =>
      var parts :- ShowAll(xs);
      Ok("(" + Join(parts, " ") + ")")
    case Vector(xs) =>
      var parts :- ShowAll(xs);
      Ok("[" + Join(parts, " ") + "]")
    case HashMap(xs) =>
      var parts :- DisplayAll(xs, 0);
      Ok("{" + DropLastChar(Join(parts, " ")) + "}")
    case Fn(_, _, _, _) => Ok("#<function>")
    case Prim(_) => Err(Unmodelled("source text of a host function"))
    case Host(_, _, _) => Err(Unmodelled("source text of a host function"))
  }

  /** ToString(v), as a template literal `${v}` applies it. */
  function JsToString(v: Value): (r: Result<string>)
    ensures v.Text? ==> r == Ok(v.text)
    ensures v.Sym? ==> r == Ok(v.name)
    decreases v, 1
  {
    match v
    case Undefined => Ok("undefined")
    case Null => Ok("null")
    case _ => Show(v)
  }

  /** How `Array.prototype.join` renders one element: `undefined` and `null` become "". */
  function JoinPart(v: Value): Result<string>
    decreases v, 2
  {
    if v.Undefined? || v.Null? then Ok("") else JsToString(v)
  }

  /** `xs.map(x => x.toString())`. */
  function ShowAll(xs: seq<Value>): (r: Result<seq<string>>)
    ensures r.Ok? ==> |r.value| == |xs|
    decreases xs, 3
  {
    if xs == [] then Ok([])
    else
      var first :- Show(xs[0]);
      var rest :- ShowAll(xs[1..]);
      Ok([first] + rest)
  }

  /** The element renderings `Array.prototype.join` uses. */
  function JoinParts(xs: seq<Value>): (r: Result<seq<string>>)
    ensures r.Ok? ==> |r.value| == |xs|
    decreases xs, 3
  {
    if xs == [] then Ok([])
    else
      var first :- JoinPart(xs[0]);
      var rest :- JoinParts(xs[1..]);
      Ok([first] + rest)
  }

  /**
   * `xs.map(#displayObject)` followed by the rendering `join` applies:
   * the element at a 0-based odd position `i` (so `(i + 1) % 2 == 0`) becomes
   * the template `${x},`, every other element is rendered as a join part.
   */
  function DisplayAll(xs: seq<Value>, i: nat): (r: Result<seq<string>>)
    ensures r.Ok? ==> |r.value| == |xs|
    decreases xs, 4
  {
    if xs == [] then Ok([])
    else
      var first :- DisplayObject(xs[0], i);
      var rest :- DisplayAll(xs[1..], i + 1);
      Ok([first] + rest)
  }

  /**
   * `#displayObject(x, i)` as `join` then renders it: at an odd position the
   * template literal with a comma after it, elsewhere `x` itself.
   */
  function DisplayObject(x: Value, i: nat): (r: Result<string>)
    ensures i % 2 == 1 ==> (r.Ok? <==> JsToString(x).Ok?) && (r.Ok? ==> r.value == JsToString(x).value + ",")
    ensures i % 2 == 0 ==> r == JoinPart(x)
    decreases x, 3
  {
    if (i + 1) % 2 == 0 then
      var t :- JsToString(x);
      Ok(t + ",")
    else JoinPart(x)
  }

  /**
   * The primitive an operand converts to under loose equality. Raw values are
   * their own; the Mal classes inherit `valueOf` from Object, so their
   * `toString` decides, and MalBoolean's answers its boolean itself. A host
   * function converts to its source text, which the model does not hold.
   */
  function ToPrimitive(x: Value): (r: Result<Value>)
    requires !x.Prim? && !x.Host?
    ensures r.Ok? ==> r.value.Undefined? || r.value.Null? || r.value.Num? || r.value.Flag? || r.value.Text?
    ensures x.Bool? ==> r == Ok(Flag(x.truth))
    ensures x.Nil? ==> r == Ok(Text("nil"))
  {
    match x
    case Undefined => Ok(x)
    case Null => Ok(x)
    case Num(_) => Ok(x)
    case Flag(_) => Ok(x)
    case Text(_) => Ok(x)
    case Bool(b) => Ok(Flag(b))
    case JsArray(_) => var s :- Show(x); Ok(Text(s))
    case Sym(_) => var s :- Show(x); Ok(Text(s))
    case Keyword(_) => var s :- Show(x); Ok(Text(s))
    case Str(_) => var s :- Show(x); Ok(Text(s))
    case Nil => var s :- Show(x); Ok(Text(s))
    case List(_) => var s :- Show(x); Ok(Text(s))
    case Vector(_) => var s :- Show(x); Ok(Text(s))
    case HashMap(_) => var s :- Show(x); Ok(Text(s))
    case Fn(_, _, _, _) => var s :- Show(x); Ok(Text(s))
  }

  /**
   * `x == "nil"` under the host's loose equality. A number or a boolean is
   * compared with the number "nil" converts to, which is NaN; `undefined` and
   * `null` equal no string; an object is first converted to a primitive.
   */
  function LooselyNil(x: Value): (r: Result<bool>)
    ensures x.Text? ==> r == Ok(x.text == "nil")
    ensures x.Undefined? || x.Null? || x.Num? || x.Flag? || x.Bool? ==> r == Ok(false)
    ensures x.Nil? ==> r == Ok(true)
  {
    if x.Prim? || x.Host? then Ok(false)  // the source text of a host function is never "nil"
    else
      var p :- ToPrimitive(x);
      Ok(p == Text("nil"))
  }

  /** JavaScript's `\s`: white space and line terminators. */
  predicate IsJsSpace(c: char) {
    || c == ' ' || c == '\t' || c == '\n' || c == '\r' || c == '\U{000B}' || c == '\U{000C}'
    || c == '\U{00A0}' || c == '\U{1680}' || ('\U{2000}' <= c <= '\U{200A}')
    || c == '\U{2028}' || c == '\U{2029}' || c == '\U{202F}' || c == '\U{205F}'
    || c == '\U{3000}' || c == '\U{FEFF}'
  }

  /** `s.trim()`: white space and line terminators removed from both ends. */
  function Trim(s: string): (t: string)
    ensures |t| <= |s|
    ensures t != [] ==> !IsJsSpace(t[0]) && !IsJsSpace(t[|t| - 1])
  {
    if s != [] && IsJsSpace(s[0]) then Trim(s[1..])
    else if s != [] && IsJsSpace(s[|s| - 1]) then Trim(s[..|s| - 1])
    else s
  }

  /** The characters a string numeric literal can hold: digits, signs, the point, radix and exponent letters, "Infinity". */
  predicate NumericChar(c: char) {
    || ('0' <= c <= '9') || c == '+' || c == '-' || c == '.'
    || ('a' <= c <= 'f') || ('A' <= c <= 'F') || c == 'x' || c == 'X' || c == 'o' || c == 'O'
    || c == 'I' || c == 'n' || c == 'i' || c == 't' || c == 'y'
  }

  /**
   * Whether the number a string converts to is zero. Blank strings and runs
   * of zeros convert to 0; a string holding a character no numeric literal
   * can hold converts to NaN, a run of digits that is not all zeros to a
   * non-zero integer, and a string without digits to NaN or an infinity.
   * Other spellings ("0x0", "1e-400", "-0.0") are left to the host.
   */
  function StringIsZero(s: string): (r: Result<bool>)
    ensures Trim(s) == "" ==> r == Ok(true)
    ensures (exists i :: 0 <= i < |Trim(s)| && !NumericChar(Trim(s)[i])) ==> r == Ok(false)
  {
    var t := Trim(s);
    if forall i :: 0 <= i < |t| ==> t[i] == '0' then Ok(true)
    else if exists i :: 0 <= i < |t| && !NumericChar(t[i]) then Ok(false)
    else if forall i :: 0 <= i < |t| ==> '0' <= t[i] <= '9' then Ok(false)
    else if forall i :: 0 <= i < |t| ==> !('0' <= t[i] <= '9') then Ok(false)
    else Err(Unmodelled("conversion of a numeric string"))
  }

  /**
   * `x == false` under the host's loose equality: `false` converts to 0, and
   * `x`, converted to a primitive, is compared with it as a number;
   * `undefined` and `null` equal only each other.
   */
  function LooselyFalse(x: Value): (r: Result<bool>)
    ensures x.Undefined? || x.Null? ==> r == Ok(false)
    ensures x.Num? ==> r == Ok(x.n == 0)
    ensures x.Flag? ==> r == Ok(!x.flag)
    ensures x.Bool? ==> r == Ok(!x.truth)
  {
    if x.Prim? || x.Host? then Ok(false)  // the source text of a host function is no numeric literal
    else
      var p :- ToPrimitive(x);
      match p
      case Num(n) => Ok(n == 0)
      case Flag(b) => Ok(!b)
      case Text(s) => StringIsZero(s)
      case _ => Ok(false)
  }

  /** `xs.slice(k)`. */
  function SliceFrom(xs: seq<Value>, k: nat): (r: seq<Value>)
    ensures k <= |xs| ==> r == xs[k..]
    ensures k > |xs| ==> r == []
  {
    if k <= |xs| then xs[k..] else []
  }

  /** The TypeError `f.apply(null, args)` raises when `f` is not a function. */
  function NotCallable(f: Value): Error {
    match f
    case Undefined => TypeError("Cannot read properties of undefined (reading 'apply')")
    case Null => TypeError("Cannot read properties of null (reading 'apply')")
    case _ => TypeError("fn.apply is not a function")
  }

  // ---------------------------------------------------------------------------
  // Predicates and per-class methods of types.js
  // ---------------------------------------------------------------------------

  /** MalList.isEmpty: the element array has length 0. */
  function ListIsEmpty(v: Value): (r: bool)
    requires v.List?
    ensures r <==> |v.items| == 0
  {
    |v.items| == 0
  }

  /**
   * The per-class `isEqual` methods. MalKeyword and MalString compare `.value`
   * fields; MalSymbol, MalList, MalVector and MalBoolean compare their `.value`
   * against the other object itself, which is never identical; MalNil refers to
   * the undeclared name `Malnil` and throws; MalHashMap compares the two arrays
   * by identity. MalFunction and the raw values have no such method.
   */
  function MethodIsEqual(self: Value, other: Value): (r: Result<bool>)
    requires self.IsMal()
  {
    match self
    case Sym(_) => Ok(false)
    case List(_) => Ok(false)
    case Vector(_) => Ok(false)
    case Bool(_) => Ok(false)
    case Nil => Err(Thrown("ReferenceError: Malnil is not defined"))
    case Keyword(s) => Ok(other.Keyword? && other.name == s)
    case Str(s) => Ok(other.Str? && other.text == s)
    case HashMap(xs) =>
      if !other.HashMap? || other.items != xs then Ok(false)
      else Err(Unmodelled("identity of two arrays with equal contents"))
    case Fn(_, _, _, _) => Err(TypeError("self.isEqual is not a function"))
  }
}
