/**
 * The primitive functions of impls/dlisp/core.js (the `ns` table), together
 * with the step-4 variant of `=` that compares by identity.
 *
 * Every primitive receives the already evaluated arguments as a sequence.
 * Numbers are integers; an operation that the host would carry out on other
 * kinds of operands by implicit conversion (string concatenation, NaN) is
 * reported as `Unmodelled` instead of being guessed.
 */
module Core {
  import opened Types
  import opened JsEquality

  /** `(a, b) => a + b` and its siblings, on two integers. */
  function Arith(op: Op, a: Value, b: Value): (r: Result<Value>)
    requires op == Add || op == Sub || op == Mul
    ensures a.Num? && b.Num? ==> r.Ok? && r.value.Num?
    ensures !(a.Num? && b.Num?) ==> r.Err?
  {
    if a.Num? && b.Num? then
      Ok(Num(if op == Add then a.n + b.n else if op == Sub then a.n - b.n else a.n * b.n))
    else Err(Unmodelled("arithmetic on operands other than two integers"))
  }

  /** `args.reduce(f)` without an initial value: from the first element, left to right. */
  function Reduce(op: Op, args: seq<Value>): (r: Result<Value>)
    requires op == Add || op == Sub || op == Mul
    ensures args == [] ==> r == Err(TypeError("Reduce of empty array with no initial value"))
    ensures |args| == 1 ==> r == Ok(args[0])
  {
    if args == [] then Err(TypeError("Reduce of empty array with no initial value"))
    else FoldFrom(op, args[0], args[1..])
  }

  /** The accumulator loop of `reduce`. */
  function FoldFrom(op: Op, acc: Value, rest: seq<Value>): Result<Value>
    requires op == Add || op == Sub || op == Mul
    decreases |rest|
  {
    if rest == [] then Ok(acc)
    else
      var next :- Arith(op, acc, rest[0]);
      FoldFrom(op, next, rest[1..])
  }

  /** The host's `a < b` and its siblings: two integers compare; undefined compares as NaN, so always false. */
  function Compare(op: Op, a: Value, b: Value): (r: Result<Value>)
    requires op == Lt || op == Gt || op == Le || op == Ge
  {
    if a.Num? && b.Num? then
      Ok(Flag(match op
        case Lt => a.n < b.n
        case Gt => a.n > b.n
        case Le => a.n <= b.n
        case Ge => a.n >= b.n))
    else if (a.Undefined? || a.Num?) && (b.Undefined? || b.Num?) then Ok(Flag(false))
    else Err(Unmodelled("relational comparison of operands other than integers"))
  }

  /** A three-valued comparison outcome as the boolean the host computes; an open identity question is not decided. */
  function TriToFlag(t: Tri): (r: Result<Value>)
    ensures t == Yes ==> r == Ok(Flag(true))
    ensures t == No ==> r == Ok(Flag(false))
    ensures t == Unknown ==> r.Err?
  {
    match t
    case Yes => Ok(Flag(true))
    case No => Ok(Flag(false))
    case Unknown => Err(Unmodelled("identity of two objects with equal contents"))
  }

  /** `a != undefined`: loose inequality, so null counts as undefined too. */
  predicate Defined(v: Value) {
    !v.Undefined? && !v.Null?
  }

  /**
   * `=` of core.js: deep equality of the two `.value` fields when both are
   * defined, otherwise of the arguments themselves. The second `.value` is
   * read only when the first is defined.
   */
  function EqualValues(a: Value, b: Value): Result<Value> {
    var fa :- FieldOf(a);
    if Defined(fa) then
      var fb :- FieldOf(b);
      if Defined(fb) then TriToFlag(IsEqual(fa, fb)) else TriToFlag(IsEqual(a, b))
    else TriToFlag(IsEqual(a, b))
  }

  /** `x.value ? x.value : x`: the element `str` renders for one argument. */
  function StrPart(x: Value): Result<Value> {
    var f :- FieldOf(x);
    Ok(if Truthy(f) then f else x)
  }

  /** `getValues(args).join('')`: every argument rendered as `join` renders it, without separator. */
  function StrText(args: seq<Value>): Result<string>
    decreases |args|
  {
    if args == [] then Ok("")
    else
      var part :- StrPart(args[0]);
      var text :- JoinPart(part);
      var rest :- StrText(args[1..]);
      Ok(text + rest)
  }

  /**
   * Applying primitive `op` to the evaluated arguments. The evaluators of
   * steps 6 and 8 apply `eval` themselves, since it re-enters the evaluator.
   */
  function ApplyOp(op: Op, args: seq<Value>): (r: Result<Value>)
    ensures op == MakeList ==> r == Ok(List(args))
    ensures op == IsList ==> r == Ok(Flag(|args| > 0 && args[0].List?))
    ensures op == Not ==> r == Ok(Flag(!Truthy(At(args, 0))))
  {
    match op
    case Add => Reduce(op, args)
    case Sub => Reduce(op, args)
    case Mul => Reduce(op, args)
    case Div => Err(Unmodelled("floating-point division"))
    case Lt => Compare(op, At(args, 0), At(args, 1))
    case Gt => Compare(op, At(args, 0), At(args, 1))
    case Le => Compare(op, At(args, 0), At(args, 1))
    case Ge => Compare(op, At(args, 0), At(args, 1))
    case Equal => EqualValues(At(args, 0), At(args, 1))
    case Identical => TriToFlag(StrictEquals(At(args, 0), At(args, 1)))
    case MakeList => Ok(List(args))
    case IsList => Ok(Flag(At(args, 0).List?))
    case IsEmpty =>
      var f :- FieldOf(At(args, 0));
      Ok(Flag(f.Undefined?))
    case Count =>
      var f :- FieldOf(At(args, 0));
      LengthOf(f)
    case Not => Ok(Flag(!Truthy(At(args, 0))))
    case StrOp =>
      var text :- StrText(args);
      Ok(Str(text))
    case Prn => Err(Unmodelled("console output"))
    case PrStr => Err(Unmodelled("console output"))
    case Println => Err(Unmodelled("console output"))
    case EvalOp => Err(Unmodelled("re-entry into the evaluator"))
  }

  // ---------------------------------------------------------------------------
  // Properties
  // ---------------------------------------------------------------------------

  predicate AllNums(xs: seq<Value>) {
    forall i :: 0 <= i < |xs| ==> xs[i].Num?
  }

  /** Reference sums and products, from the right. */
  function SumOf(xs: seq<Value>): int
    requires AllNums(xs)
  {
    if xs == [] then 0 else xs[0].n + SumOf(xs[1..])
  }

  function ProductOf(xs: seq<Value>): int
    requires AllNums(xs)
  {
    if xs == [] then 1 else xs[0].n * ProductOf(xs[1..])
  }

  lemma {:induction false} FoldAdd(acc: int, rest: seq<Value>)
    requires AllNums(rest)
    ensures FoldFrom(Add, Num(acc), rest) == Ok(Num(acc + SumOf(rest)))
    decreases |rest|
  {
    if rest != [] {
      assert FoldFrom(Add, Num(acc), rest) == FoldFrom(Add, Num(acc + rest[0].n), rest[1..]);
      FoldAdd(acc + rest[0].n, rest[1..]);
    }
  }

  lemma {:induction false} FoldSub(acc: int, rest: seq<Value>)
    requires AllNums(rest)
    ensures FoldFrom(Sub, Num(acc), rest) == Ok(Num(acc - SumOf(rest)))
    decreases |rest|
  {
    if rest != [] {
      assert FoldFrom(Sub, Num(acc), rest) == FoldFrom(Sub, Num(acc - rest[0].n), rest[1..]);
      FoldSub(acc - rest[0].n, rest[1..]);
    }
  }

  lemma {:induction false} FoldMul(acc: int, rest: seq<Value>)
    requires AllNums(rest)
    ensures FoldFrom(Mul, Num(acc), rest) == Ok(Num(acc * ProductOf(rest)))
    decreases |rest|
  {
    if rest != [] {
      assert FoldFrom(Mul, Num(acc), rest) == FoldFrom(Mul, Num(acc * rest[0].n), rest[1..]);
      FoldMul(acc * rest[0].n, rest[1..]);
      MulAssociates(acc, rest[0].n, ProductOf(rest[1..]));
    }
  }

  lemma MulAssociates(a: int, b: int, c: int)
    ensures a * b * c == a * (b * c)
  {
  }

  /** `+` and `*` on integers are the sum and the product of all arguments; `-` subtracts the rest from the first. */
  lemma ArithmeticOnIntegers(args: seq<Value>)
    requires args != [] && AllNums(args)
    ensures ApplyOp(Add, args) == Ok(Num(SumOf(args)))
    ensures ApplyOp(Mul, args) == Ok(Num(ProductOf(args)))
    ensures ApplyOp(Sub, args) == Ok(Num(args[0].n - SumOf(args[1..])))
  {
    SumOfArguments(args);
    ProductOfArguments(args);
    DifferenceOfArguments(args);
  }

  lemma SumOfArguments(args: seq<Value>)
    requires args != [] && AllNums(args)
    ensures ApplyOp(Add, args) == Ok(Num(SumOf(args)))
  {
    AllNumsTail(args);
    ReduceStarts(Add, args);
    FoldAdd(args[0].n, args[1..]);
  }

  lemma ProductOfArguments(args: seq<Value>)
    requires args != [] && AllNums(args)
    ensures ApplyOp(Mul, args) == Ok(Num(ProductOf(args)))
  {
    AllNumsTail(args);
    ReduceStarts(Mul, args);
    FoldMul(args[0].n, args[1..]);
  }

  lemma DifferenceOfArguments(args: seq<Value>)
    requires args != [] && AllNums(args)
    ensures AllNums(args[1..])
    ensures ApplyOp(Sub, args) == Ok(Num(args[0].n - SumOf(args[1..])))
  {
    AllNumsTail(args);
    ReduceStarts(Sub, args);
    FoldSub(args[0].n, args[1..]);
  }

  lemma AllNumsTail(xs: seq<Value>)
    requires xs != [] && AllNums(xs)
    ensures xs[0] == Num(xs[0].n) && AllNums(xs[1..])
  {
    forall i | 0 <= i < |xs[1..]| ensures xs[1..][i].Num? {
      assert xs[1..][i] == xs[i + 1];
    }
  }

  lemma ReduceStarts(op: Op, args: seq<Value>)
    requires (op == Add || op == Sub || op == Mul) && args != []
    ensures ApplyOp(op, args) == FoldFrom(op, args[0], args[1..])
  {
    assert ApplyOp(op, args) == Reduce(op, args);
  }

  /** The folds need at least one argument. */
  lemma ArithmeticNeedsArguments(op: Op)
    requires op == Add || op == Sub || op == Mul
    ensures ApplyOp(op, []) == Err(TypeError("Reduce of empty array with no initial value"))
  {
  }

  /** A non-integer operand after the first stops the fold. */
  lemma {:induction false} FoldStopsAtNonInteger(op: Op, acc: Value, rest: seq<Value>, k: nat)
    requires op == Add || op == Sub || op == Mul
    requires acc.Num? && k < |rest| && AllNums(rest[..k]) && !rest[k].Num?
    ensures FoldFrom(op, acc, rest).Err?
    decreases |rest|
  {
    if k == 0 {
    } else {
      var next := Arith(op, acc, rest[0]).value;
      assert rest[1..][..k - 1] == rest[..k][1..];
      FoldStopsAtNonInteger(op, next, rest[1..], k - 1);
    }
  }

  predicate IsComparison(op: Op) {
    op == Lt || op == Gt || op == Le || op == Ge
  }

  /** Comparisons look at exactly the first two arguments. */
  lemma ComparisonReadsTwo(op: Op, a: Value, b: Value, extra: seq<Value>)
    requires IsComparison(op)
    ensures ApplyOp(op, [a, b] + extra) == ApplyOp(op, [a, b]) == Compare(op, a, b)
  {
    CompareReadsAt(op, [a, b] + extra);
    CompareReadsAt(op, [a, b]);
    assert ([a, b] + extra)[0] == a && ([a, b] + extra)[1] == b;
  }

  lemma CompareReadsAt(op: Op, args: seq<Value>)
    requires IsComparison(op)
    ensures ApplyOp(op, args) == Compare(op, At(args, 0), At(args, 1))
  {
  }

  /** On integers, `<`, `>`, `<=` and `>=` are the integer orderings; `<` and `>` are mirror images. */
  lemma ComparisonOnIntegers(a: int, b: int)
    ensures ApplyOp(Lt, [Num(a), Num(b)]) == Ok(Flag(a < b))
    ensures ApplyOp(Gt, [Num(a), Num(b)]) == Ok(Flag(a > b))
    ensures ApplyOp(Le, [Num(a), Num(b)]) == Ok(Flag(a <= b))
    ensures ApplyOp(Ge, [Num(a), Num(b)]) == Ok(Flag(a >= b))
    ensures ApplyOp(Lt, [Num(a), Num(b)]) == ApplyOp(Gt, [Num(b), Num(a)])
  {
  }

  /** A missing operand is undefined, which compares false with everything. */
  lemma ComparisonWithMissingOperand(op: Op, a: int)
    requires IsComparison(op)
    ensures ApplyOp(op, [Num(a)]) == Ok(Flag(false))
    ensures ApplyOp(op, []) == Ok(Flag(false))
  {
  }

  /** `=` on two Mal values with defined `.value` fields compares the fields deeply. */
  lemma EqualComparesFields(a: Value, b: Value)
    requires FieldOf(a).Ok? && Defined(FieldOf(a).value)
    requires FieldOf(b).Ok? && Defined(FieldOf(b).value)
    ensures ApplyOp(Equal, [a, b]) == TriToFlag(IsEqual(FieldOf(a).value, FieldOf(b).value))
  {
  }

  /**
   * Two lists or vectors: `=` is true when their elements are the same plain
   * data, and false exactly when their element sequences differ.
   */
  lemma EqualOnLists(xs: seq<Value>, ys: seq<Value>)
    ensures ApplyOp(Equal, [List(xs), List(ys)]) == Ok(Flag(false)) <==> xs != ys
    ensures xs == ys && (forall i :: 0 <= i < |xs| ==> PlainData(xs[i])) ==>
              ApplyOp(Equal, [List(xs), List(ys)]) == Ok(Flag(true))
  {
    IsEqualNoIffDifferent(JsArray(xs), JsArray(ys));
    if xs == ys && (forall i :: 0 <= i < |xs| ==> PlainData(xs[i])) {
      PlainDataEqualsCopy(JsArray(xs), JsArray(ys));
    }
  }

  /** Raw integers have no `.value`, so `=` compares them with `===`. */
  lemma EqualOnIntegers(a: int, b: int)
    ensures ApplyOp(Equal, [Num(a), Num(b)]) == Ok(Flag(a == b))
  {
  }

  /** `=` with a missing first argument throws, reading `.value` of undefined. */
  lemma EqualNeedsFirstArgument()
    ensures ApplyOp(Equal, []).Err? && ApplyOp(Equal, []).error.TypeError?
  {
  }

  /** Step 4's `=` is `===`: it tells different values apart and never equates two MalLists. */
  lemma IdenticalIsStrict(a: Value, b: Value)
    ensures a != b ==> ApplyOp(Identical, [a, b]) == Ok(Flag(false))
    ensures a == b && a.Num? ==> ApplyOp(Identical, [a, b]) == Ok(Flag(true))
    ensures a == b && a.List? ==> ApplyOp(Identical, [a, b]).Err?
  {
  }

  /** `count` is the length of the element array; of a number it throws, since `undefined` has no length. */
  lemma CountOfCollections(xs: seq<Value>, n: int)
    ensures ApplyOp(Count, [List(xs)]) == Ok(Num(|xs|))
    ensures ApplyOp(Count, [Vector(xs)]) == Ok(Num(|xs|))
    ensures ApplyOp(Count, [Num(n)]).Err?
    ensures ApplyOp(Count, [Nil]).Err?
  {
    CountReadsLength(List(xs));
    CountReadsLength(Vector(xs));
    CountReadsLength(Num(n));
    CountReadsLength(Nil);
  }

  /** `count` of one argument reads its `.value`, then that field's `.length`. */
  lemma CountReadsLength(x: Value)
    ensures FieldOf(x).Ok? ==> ApplyOp(Count, [x]) == LengthOf(FieldOf(x).value)
    ensures FieldOf(x).Err? ==> ApplyOp(Count, [x]).Err?
  {
    assert At([x], 0) == x;
  }

  /** `empty?` asks whether `.value` is undefined: an empty list is not empty, but a number is. */
  lemma EmptyAsksForUndefined(xs: seq<Value>, n: int)
    ensures ApplyOp(IsEmpty, [List(xs)]) == Ok(Flag(false))
    ensures ApplyOp(IsEmpty, [Num(n)]) == Ok(Flag(true))
    ensures ApplyOp(IsEmpty, [Nil]) == Ok(Flag(false))
    ensures ApplyOp(IsEmpty, []).Err?
  {
  }

  /** `not` negates host truthiness: every Mal object, MalNil and MalBoolean false among them, is truthy. */
  lemma NotOfObjects(v: Value)
    requires v.IsMal()
    ensures ApplyOp(Not, [v]) == Ok(Flag(false))
  {
  }

  /** `list?` holds exactly for a MalList first argument; `list` keeps its arguments in order. */
  lemma ListPredicate(args: seq<Value>)
    ensures ApplyOp(IsList, [ApplyOp(MakeList, args).value]) == Ok(Flag(true))
    ensures ApplyOp(IsList, [Vector(args)]) == Ok(Flag(false))
    ensures ApplyOp(MakeList, args).value.items == args
  {
  }

  function Names(xs: seq<Value>): string
    requires forall i :: 0 <= i < |xs| ==> xs[i].Sym?
  {
    if xs == [] then "" else xs[0].name + Names(xs[1..])
  }

  /** `str` of symbols concatenates their names, with no separator. */
  lemma {:induction false} StrOfSymbols(xs: seq<Value>)
    requires forall i :: 0 <= i < |xs| ==> xs[i].Sym?
    ensures StrText(xs) == Ok(Names(xs))
    ensures ApplyOp(StrOp, xs) == Ok(Str(Names(xs)))
  {
    if xs != [] {
      StrOfSymbols(xs[1..]);
    }
  }

  lemma StrOfInteger(n: int)
    ensures StrPart(Num(n)) == Ok(Num(n)) && JoinPart(Num(n)) == Ok(IntToString(n))
  {
    assert FieldOf(Num(n)) == Ok(Undefined);
    assert Show(Num(n)) == Ok(IntToString(n));
  }

  /** The decimal forms of integers written one after another. */
  function Decimals(xs: seq<Value>): string
    requires AllNums(xs)
  {
    if xs == [] then "" else IntToString(xs[0].n) + Decimals(xs[1..])
  }

  /** `str` of any number of integers writes their decimal forms one after another. */
  lemma {:induction false} StrOfIntegers(xs: seq<Value>)
    requires AllNums(xs)
    ensures StrText(xs) == Ok(Decimals(xs))
    ensures ApplyOp(StrOp, xs) == Ok(Str(Decimals(xs)))
  {
    if xs != [] {
      AllNumsTail(xs);
      StrOfInteger(xs[0].n);
      StrOfIntegers(xs[1..]);
    }
  }

  /** `str` reads `.value` of every argument, so an undefined argument throws. */
  lemma {:induction false} StrOfUndefined(args: seq<Value>, k: nat)
    requires k < |args| && args[k].Undefined?
    ensures StrText(args).Err?
    ensures ApplyOp(StrOp, args).Err?
    decreases k
  {
    if k > 0 {
      StrOfUndefined(args[1..], k - 1);
    }
  }
}
