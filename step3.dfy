/**
 * The evaluator of impls/dlisp/step3_env.js: symbols, collections, `def!`,
 * `let*` and application of the arithmetic primitives.
 *
 * `Eval` is the recursive `EVAL`; `fuel` bounds the depth of the recursion,
 * and running out of it is reported as `OutOfFuel`. Frames live in the store
 * of the Frames module; a throw keeps the frames written before it.
 */
module Step3 {
  import opened Types
  import opened Environment
  import opened Frames
  import opened Core

  /** The frame that `new Env()` creates at start-up, with `+`, `*`, `/` and `-` set in that order. */
  function RootState(): (st: State)
    ensures |st.store| == 1 && st.store[0].outer.None? && st.nextId == 0
  {
    var data := map["+" := Prim(Add)]["*" := Prim(Mul)]["/" := Prim(Div)]["-" := Prim(Sub)];
    State([Frame(data, None)], 0, {}, {})
  }

  const Root: nat := 0

  /** `eval_ast`: a symbol is looked up; the elements of a list, vector or hash map are evaluated in order. */
  function EvalAst(fuel: nat, ast: Value, env: nat, st: State): (r: Exec<Value>)
    ensures Kept(st, r.st, {env})
    decreases fuel, 2
  {
    match ast
    case Sym(_) => Exec(Lookup(st, env, ast), st)
    case List(xs) =>
      var (ys, st1) :- EvalEach(fuel, xs, env, st);
      Exec(Ok(List(ys)), st1)
    case Vector(xs) =>
      var (ys, st1) :- EvalEach(fuel, xs, env, st);
      Exec(Ok(Vector(ys)), st1)
    case HashMap(xs) =>
      var (ys, st1) :- EvalEach(fuel, xs, env, st);
      Exec(Ok(HashMap(ys)), st1)
    case _ => Exec(Ok(ast), st)
  }

  /** `xs.map(x => EVAL(x, env))`: left to right, stopping at the first throw. */
  function EvalEach(fuel: nat, xs: seq<Value>, env: nat, st: State): (r: Exec<seq<Value>>)
    ensures Kept(st, r.st, {env})
    ensures r.res.Ok? ==> |r.res.value| == |xs|
    decreases fuel, 1, xs
  {
    if xs == [] then Exec(Ok([]), st)
    else
      var (y, st1) :- Eval(fuel, xs[0], env, st);
      var (ys, st2) :- EvalEach(fuel, xs[1..], env, st1);
      Exec(Ok([y] + ys), st2)
  }

  /** `EVAL(ast, env)`. */
  function Eval(fuel: nat, ast: Value, env: nat, st: State): (r: Exec<Value>)
    ensures Kept(st, r.st, {env})
    decreases fuel, 0
  {
    if fuel == 0 then Exec(Err(OutOfFuel), st)
    else if !ast.List? then EvalAst(fuel - 1, ast, env, st)
    else if ast.items == [] then Exec(Ok(ast), st)
    else
      var (head, _) :- Exec(FieldOf(ast.items[0]), st);
      if head == Text("def!") then EvalDef(fuel - 1, ast.items, env, st)
      else if head == Text("let*") then EvalLet(fuel - 1, ast.items, env, st)
      else EvalApply(fuel - 1, ast, env, st)
  }

  /** `def!`: evaluate the third element, set it under the second, and answer what `get` reads back. */
  function EvalDef(fuel: nat, items: seq<Value>, env: nat, st: State): (r: Exec<Value>)
    ensures Kept(st, r.st, {env})
    decreases fuel, 3
  {
    var (v, st1) :- Eval(fuel, At(items, 2), env, st);
    var (st2, _) :- Exec(Define(st1, env, At(items, 1), v), st1);
    Exec(Lookup(st2, env, At(items, 1)), st2)
  }

  /** `let*`: bind the pairs in a fresh child frame, then evaluate the third element there, or answer MalNil. */
  function EvalLet(fuel: nat, items: seq<Value>, env: nat, st: State): (r: Exec<Value>)
    ensures Kept(st, r.st, {})
    decreases fuel, 3
  {
    var (bindings, _) :- Exec(FieldOf(At(items, 1)), st);
    var (st1, env2) := NewFrame(st, env);
    var (len, _) :- Exec(LengthBound(bindings), st1);
    var (_, st2) :- LetBinds(fuel, bindings, len, 0, env2, st1);
    if |items| < 3 then Exec(Ok(Nil), st2)
    else Eval(fuel, items[2], env2, st2)
  }

  /**
   * The loop of `let*` from `index` on: the value expression of each pair is
   * evaluated in the child frame, so later pairs see earlier ones.
   */
  function LetBinds(fuel: nat, bindings: Value, len: nat, index: nat, env2: nat, st: State): (r: Exec<()>)
    ensures Kept(st, r.st, {env2})
    decreases fuel, 1, len - index
  {
    if index >= len then Exec(Ok(()), st)
    else
      var (v, st1) :- Eval(fuel, IndexOf(bindings, index + 1), env2, st);
      var (st2, _) :- Exec(Define(st1, env2, IndexOf(bindings, index), v), st1);
      LetBinds(fuel, bindings, len, index + 2, env2, st2)
  }

  /** Any other list: evaluate every element, then apply the first to the rest. */
  function EvalApply(fuel: nat, ast: Value, env: nat, st: State): (r: Exec<Value>)
    requires ast.List?
    ensures Kept(st, r.st, {env})
    decreases fuel, 3
  {
    var (evaluated, st1) :- EvalAst(fuel, ast, env, st);
    var ys := if evaluated.List? then evaluated.items else [];
    Exec(Call(At(ys, 0), if ys == [] then [] else ys[1..]), st1)
  }

  /** `fn.apply(null, args)`: only the primitives are functions here. */
  function Call(f: Value, args: seq<Value>): (r: Result<Value>)
    ensures !f.Prim? ==> r == Err(NotCallable(f))
  {
    match f
    case Prim(op) => ApplyOp(op, args)
    case _ => Err(NotCallable(f))
  }

  /** The `for` loop of `let*`, as the program runs it. */
  method BindPairs(fuel: nat, bindings: Value, len: nat, env2: nat, st: State) returns (r: Exec<()>)
    ensures r == LetBinds(fuel, bindings, len, 0, env2, st)
  {
    var index := 0;
    var cur := st;
    while index < len
      invariant LetBinds(fuel, bindings, len, index, env2, cur) == LetBinds(fuel, bindings, len, 0, env2, st)
      decreases len - index
    {
      var e := Eval(fuel, IndexOf(bindings, index + 1), env2, cur);
      if e.res.Err? {
        return Exec(Err(e.res.error), e.st);
      }
      var d := Define(e.st, env2, IndexOf(bindings, index), e.res.value);
      if d.Err? {
        return Exec(Err(d.error), e.st);
      }
      cur := d.value;
      index := index + 2;
    }
    return Exec(Ok(()), cur);
  }

  // ---------------------------------------------------------------------------
  // Properties
  // ---------------------------------------------------------------------------

  /** A list headed by `def!` goes to the `def!` branch. */
  lemma DefDispatch(fuel: nat, items: seq<Value>, env: nat, st: State)
    requires fuel >= 1 && items != [] && items[0] == Sym("def!")
    ensures Eval(fuel, List(items), env, st) == EvalDef(fuel - 1, items, env, st)
  {
  }

  /** A list headed by `let*` goes to the `let*` branch. */
  lemma LetDispatch(fuel: nat, items: seq<Value>, env: nat, st: State)
    requires fuel >= 1 && items != [] && items[0] == Sym("let*")
    ensures Eval(fuel, List(items), env, st) == EvalLet(fuel - 1, items, env, st)
  {
  }

  /** A list headed by any other symbol is an application. */
  lemma ApplyDispatch(fuel: nat, items: seq<Value>, env: nat, st: State)
    requires fuel >= 1 && items != [] && items[0].Sym? && items[0].name != "def!" && items[0].name != "let*"
    ensures Eval(fuel, List(items), env, st) == EvalApply(fuel - 1, List(items), env, st)
  {
  }

  /** Application calls the value of the head on the values of the other elements, in order. */
  lemma ApplyCalls(fuel: nat, ast: Value, env: nat, st: State, ys: seq<Value>, st1: State)
    requires ast.List? && EvalAst(fuel, ast, env, st) == Exec(Ok(List(ys)), st1) && ys != []
    ensures EvalApply(fuel, ast, env, st) == Exec(Call(ys[0], ys[1..]), st1)
  {
  }

  /** Values that `eval_ast` hands back unchanged: neither symbols nor collections. */
  predicate SelfEvaluating(v: Value) {
    !v.Sym? && !v.List? && !v.Vector? && !v.HashMap?
  }

  /**
   * Forms other than lists: a symbol is looked up in the current frame's
   * chain, and anything that is no collection is its own value; neither
   * changes a frame.
   */
  lemma EvalNonList(fuel: nat, ast: Value, env: nat, st: State)
    requires !ast.List?
    ensures ast.Sym? ==> Eval(fuel + 1, ast, env, st) == Exec(Lookup(st, env, ast), st)
    ensures SelfEvaluating(ast) ==> Eval(fuel + 1, ast, env, st) == Exec(Ok(ast), st)
  {
  }

  /** A vector or hash map evaluates to a collection of the same kind, with one value per element. */
  lemma EvalCollection(fuel: nat, ast: Value, env: nat, st: State)
    requires ast.Vector? || ast.HashMap?
    ensures var r := Eval(fuel + 1, ast, env, st);
            r.res.Ok? ==> && (ast.Vector? ==> r.res.value.Vector?)
                          && (ast.HashMap? ==> r.res.value.HashMap?)
                          && |r.res.value.items| == |ast.items|
  {
  }

  /** The empty list evaluates to itself. */
  lemma EvalEmptyList(fuel: nat, env: nat, st: State)
    ensures Eval(fuel + 1, List([]), env, st) == Exec(Ok(List([])), st)
  {
  }

  /** A list of integers evaluates element by element to itself, without touching a frame. */
  lemma {:induction false} EvalEachIntegers(fuel: nat, xs: seq<Value>, env: nat, st: State)
    requires AllNums(xs)
    ensures EvalEach(fuel + 1, xs, env, st) == Exec(Ok(xs), st)
    decreases xs
  {
    if xs != [] {
      assert xs[0].Num? && AllNums(xs[1..]);
      assert Eval(fuel + 1, xs[0], env, st) == Exec(Ok(xs[0]), st);
      EvalEachIntegers(fuel, xs[1..], env, st);
      assert [xs[0]] + xs[1..] == xs;
    }
  }

  /**
   * `def!` with a truthy value: the value is set in the current frame, `get`
   * reads it back, and it is the result.
   */
  lemma DefTruthy(fuel: nat, name: string, e: Value, env: nat, st: State, v: Value, st1: State)
    requires Eval(fuel, e, env, st) == Exec(Ok(v), st1)
    requires env < |st1.store| && Truthy(v)
    ensures var r := Eval(fuel + 1, List([Sym("def!"), Sym(name), e]), env, st);
            && r.res == Ok(v)
            && env < |r.st.store|
            && r.st.store[env].data == st1.store[env].data[name := v]
            && Lookup(r.st, env, Sym(name)) == Ok(v)
  {
    DefineThenLookup(st1, env, name, v);
    assert |Define(st1, env, Sym(name), v).value.store| == |st1.store|;
    DefDispatch(fuel + 1, [Sym("def!"), Sym(name), e], env, st);
  }

  /**
   * `def!` with a falsy value (0, false, undefined): the write happens, but
   * `get` skips it and answers what the outer frames hold for the name, or
   * throws "<name> not found".
   */
  lemma DefFalsy(fuel: nat, name: string, e: Value, env: nat, st: State, v: Value, st1: State)
    requires Eval(fuel, e, env, st) == Exec(Ok(v), st1)
    requires env < |st1.store| && !Truthy(v)
    ensures var r := Eval(fuel + 1, List([Sym("def!"), Sym(name), e]), env, st);
            && r.res == GetIn(ChainOf(st1.store, env)[1..], Sym(name))
            && env < |r.st.store|
            && r.st.store[env].data == st1.store[env].data[name := v]
  {
    DefineFalsyLookup(st1, env, name, v);
    assert |Define(st1, env, Sym(name), v).value.store| == |st1.store|;
    DefDispatch(fuel + 1, [Sym("def!"), Sym(name), e], env, st);
  }

  /** `let*` writes no existing frame: the frame it runs in and its outer frames keep their tables. */
  lemma LetKeepsFrames(fuel: nat, rest: seq<Value>, env: nat, st: State)
    ensures var r := Eval(fuel + 1, List([Sym("let*")] + rest), env, st);
            forall f :: 0 <= f < |st.store| ==> r.st.store[f] == st.store[f]
  {
    var items := [Sym("let*")] + rest;
    assert items[0] == Sym("let*");
    var r := Eval(fuel + 1, List(items), env, st);
    assert Kept(st, r.st, {});
  }

  /** `let*` with bindings but no body answers MalNil. */
  lemma LetWithoutBody(fuel: nat, name: string, n: int, env: nat, st: State)
    requires fuel >= 2 && env < |st.store|
    ensures Eval(fuel, List([Sym("let*"), List([Sym(name), Num(n)])]), env, st).res == Ok(Nil)
  {
    var items := [Sym("let*"), List([Sym(name), Num(n)])];
    var bindings := JsArray([Sym(name), Num(n)]);
    var (st1, env2) := NewFrame(st, env);
    assert LengthBound(bindings) == Ok(2);
    assert EvalAst(fuel - 2, Num(n), env2, st1) == Exec(Ok(Num(n)), st1);
    assert Eval(fuel - 1, Num(n), env2, st1) == Exec(Ok(Num(n)), st1);
    var st2 := Define(st1, env2, Sym(name), Num(n)).value;
    assert LetBinds(fuel - 1, bindings, 2, 2, env2, st2) == Exec(Ok(()), st2);
    assert LetBinds(fuel - 1, bindings, 2, 0, env2, st1) == Exec(Ok(()), st2);
    LetDispatch(fuel, items, env, st);
  }

  /**
   * `let*` binds in order, each value evaluated in the child frame: in
   * `(let* (a n b a) b)` the second binding sees the first.
   */
  lemma LetSequential(fuel: nat, a: string, b: string, n: int, env: nat, st: State)
    requires fuel >= 3 && env < |st.store| && n != 0
    ensures Eval(fuel, List([Sym("let*"), List([Sym(a), Num(n), Sym(b), Sym(a)]), Sym(b)]), env, st).res == Ok(Num(n))
  {
    var bindings := JsArray([Sym(a), Num(n), Sym(b), Sym(a)]);
    var (st1, env2) := NewFrame(st, env);
    assert LengthBound(bindings) == Ok(4);
    assert EvalAst(fuel - 2, Num(n), env2, st1) == Exec(Ok(Num(n)), st1);
    assert Eval(fuel - 1, Num(n), env2, st1) == Exec(Ok(Num(n)), st1);
    var st2 := Define(st1, env2, Sym(a), Num(n)).value;
    DefineThenLookup(st1, env2, a, Num(n));
    assert Eval(fuel - 1, Sym(a), env2, st2) == Exec(Ok(Num(n)), st2);
    var st3 := Define(st2, env2, Sym(b), Num(n)).value;
    DefineThenLookup(st2, env2, b, Num(n));
    assert LetBinds(fuel - 1, bindings, 4, 4, env2, st3) == Exec(Ok(()), st3);
    assert LetBinds(fuel - 1, bindings, 4, 2, env2, st2) == Exec(Ok(()), st3);
    assert LetBinds(fuel - 1, bindings, 4, 0, env2, st1) == Exec(Ok(()), st3);
    assert Eval(fuel - 1, Sym(b), env2, st3) == Exec(Ok(Num(n)), st3);
    var items := [Sym("let*"), List([Sym(a), Num(n), Sym(b), Sym(a)]), Sym(b)];
    assert EvalLet(fuel - 1, items, env, st).res == Ok(Num(n));
    LetDispatch(fuel, items, env, st);
  }

  /** The root frame holds the four arithmetic primitives. */
  lemma RootBindings()
    ensures Lookup(RootState(), Root, Sym("+")) == Ok(Prim(Add))
    ensures Lookup(RootState(), Root, Sym("-")) == Ok(Prim(Sub))
    ensures Lookup(RootState(), Root, Sym("*")) == Ok(Prim(Mul))
    ensures Lookup(RootState(), Root, Sym("/")) == Ok(Prim(Div))
  {
    var st := RootState();
    LookupOutermost(st, Root, "+");
    LookupOutermost(st, Root, "-");
    LookupOutermost(st, Root, "*");
    LookupOutermost(st, Root, "/");
  }

  /** `eval_ast` of `(+ n1 n2 ...)` where `+` names the addition primitive: the primitive followed by the integers. */
  lemma SumArguments(fuel: nat, nums: seq<Value>, env: nat, st: State)
    requires AllNums(nums) && Lookup(st, env, Sym("+")) == Ok(Prim(Add))
    ensures EvalAst(fuel + 2, List([Sym("+")] + nums), env, st) == Exec(Ok(List([Prim(Add)] + nums)), st)
  {
    var items := [Sym("+")] + nums;
    assert items[0] == Sym("+") && items[1..] == nums;
    assert Eval(fuel + 2, Sym("+"), env, st) == Exec(Ok(Prim(Add)), st);
    EvalEachIntegers(fuel + 1, nums, env, st);
  }

  /** `(+ n1 n2 ...)`, where `+` names the addition primitive, evaluates its integer arguments and answers their sum. */
  lemma SumForm(fuel: nat, nums: seq<Value>, env: nat, st: State)
    requires fuel >= 3 && nums != [] && AllNums(nums) && Lookup(st, env, Sym("+")) == Ok(Prim(Add))
    ensures Eval(fuel, List([Sym("+")] + nums), env, st) == Exec(Ok(Num(SumOf(nums))), st)
  {
    var items := [Sym("+")] + nums;
    var ys := [Prim(Add)] + nums;
    SumArguments(fuel - 3, nums, env, st);
    assert ys[1..] == nums;
    ApplyCalls(fuel - 1, List(items), env, st, ys, st);
    SumCall(nums);
    ApplyDispatch(fuel, items, env, st);
  }

  /** The addition primitive called on integers answers their sum. */
  lemma SumCall(nums: seq<Value>)
    requires nums != [] && AllNums(nums)
    ensures Call(Prim(Add), nums) == Ok(Num(SumOf(nums)))
  {
    ArithmeticOnIntegers(nums);
  }

  /** At start-up, `(+ n1 n2 ...)` answers the sum of the integers. */
  lemma RootSum(fuel: nat, nums: seq<Value>)
    requires fuel >= 3 && nums != [] && AllNums(nums)
    ensures Eval(fuel, List([Sym("+")] + nums), Root, RootState()) == Exec(Ok(Num(SumOf(nums))), RootState())
  {
    RootBindings();
    SumForm(fuel, nums, Root, RootState());
  }
}
