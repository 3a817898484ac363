/**
 * The evaluator of impls/dlisp/step4_if_fn_do.js: step 3's forms plus `do`,
 * `if` and `fn*`, and a root frame with comparison and list primitives.
 *
 * `fn*` answers a host closure over its form and the frame it was evaluated
 * in (`Host`); calling it binds the parameters in a fresh child of that frame
 * and evaluates the body there. Closures are distinct objects: each gets the
 * next allocation id of the state.
 */
module Step4 {
  import opened Types
  import opened JsEquality
  import opened Frames
  import opened Core

  /** The frame that `new Env()` creates at start-up, with the thirteen primitives set in it. */
  function RootState(): (st: State)
    ensures |st.store| == 1 && st.store[0].outer.None?
  {
    var data := map[
      "+" := Prim(Add), "*" := Prim(Mul), "/" := Prim(Div), "-" := Prim(Sub),
      "<" := Prim(Lt), ">" := Prim(Gt), "<=" := Prim(Le), ">=" := Prim(Ge),
      "=" := Prim(Identical), "list" := Prim(MakeList), "list?" := Prim(IsList),
      "empty?" := Prim(IsEmpty), "count" := Prim(Count)];
    State([Frame(data, None)], 0, {}, {})
  }

  const Root: nat := 0

  /** `eval_ast`: a symbol is looked up; the elements of a list, vector or hash map are evaluated in order. */
  function EvalAst(fuel: nat, ast: Value, env: nat, st: State): (r: Exec<Value>)
    ensures Kept(st, r.st, {env})
    decreases fuel, 2
  {
    match ast
    case Sym(_) => Exec(Lookup(st, env, ast), st)
    case List(xs) =>
      var (ys, st1) :- EvalEach(fuel, xs, env, st);
      Exec(Ok(List(ys)), st1)
    case Vector(xs) =>
      var (ys, st1) :- EvalEach(fuel, xs, env, st);
      Exec(Ok(Vector(ys)), st1)
    case HashMap(xs) =>
      var (ys, st1) :- EvalEach(fuel, xs, env, st);
      Exec(Ok(HashMap(ys)), st1)
    case _ => Exec(Ok(ast), st)
  }

  /** `xs.map(x => EVAL(x, env))`: left to right, stopping at the first throw. */
  function EvalEach(fuel: nat, xs: seq<Value>, env: nat, st: State): (r: Exec<seq<Value>>)
    ensures Kept(st, r.st, {env})
    ensures r.res.Ok? ==> |r.res.value| == |xs|
    decreases fuel, 1, xs
  {
    if xs == [] then Exec(Ok([]), st)
    else
      var (y, st1) :- Eval(fuel, xs[0], env, st);
      var (ys, st2) :- EvalEach(fuel, xs[1..], env, st1);
      Exec(Ok([y] + ys), st2)
  }

  /** `EVAL(ast, env)`: the special forms are chosen by the `.value` of the head. */
  function Eval(fuel: nat, ast: Value, env: nat, st: State): (r: Exec<Value>)
    ensures Kept(st, r.st, {env})
    decreases fuel, 0
  {
    if fuel == 0 then Exec(Err(OutOfFuel), st)
    else if !ast.List? then EvalAst(fuel - 1, ast, env, st)
    else if ast.items == [] then Exec(Ok(ast), st)
    else
      var (head, _) :- Exec(FieldOf(ast.items[0]), st);
      if head == Text("def!") then EvalDef(fuel - 1, ast.items, env, st)
      else if head == Text("let*") then EvalLet(fuel - 1, ast.items, env, st)
      else if head == Text("do") then EvalDo(fuel - 1, ast.items, env, st)
      else if head == Text("if") then EvalIf(fuel - 1, ast.items, env, st)
      else if head == Text("fn*") then MakeClosure(ast, env, st)
      else EvalApply(fuel - 1, ast, env, st)
  }

  /** `handleDef`: evaluate the third element, set it under the second, and answer what `get` reads back. */
  function EvalDef(fuel: nat, items: seq<Value>, env: nat, st: State): (r: Exec<Value>)
    ensures Kept(st, r.st, {env})
    decreases fuel, 3
  {
    var (v, st1) :- Eval(fuel, At(items, 2), env, st);
    var (st2, _) :- Exec(Define(st1, env, At(items, 1), v), st1);
    Exec(Lookup(st2, env, At(items, 1)), st2)
  }

  /** `handleLet`: bind the pairs in a fresh child frame, then evaluate the last element there, or answer MalNil. */
  function EvalLet(fuel: nat, items: seq<Value>, env: nat, st: State): (r: Exec<Value>)
    ensures Kept(st, r.st, {})
    decreases fuel, 3
  {
    var (bindings, _) :- Exec(FieldOf(At(items, 1)), st);
    var (st1, env2) := NewFrame(st, env);
    var (len, _) :- Exec(LengthBound(bindings), st1);
    var (_, st2) :- LetBinds(fuel, bindings, len, 0, env2, st1);
    if |items| < 3 then Exec(Ok(Nil), st2)
    else Eval(fuel, items[|items| - 1], env2, st2)
  }

  /** The loop of `handleLet` from `index` on: each value expression is evaluated in the child frame. */
  function LetBinds(fuel: nat, bindings: Value, len: nat, index: nat, env2: nat, st: State): (r: Exec<()>)
    ensures Kept(st, r.st, {env2})
    decreases fuel, 1, len - index
  {
    if index >= len then Exec(Ok(()), st)
    else
      var (v, st1) :- Eval(fuel, IndexOf(bindings, index + 1), env2, st);
      var (st2, _) :- Exec(Define(st1, env2, IndexOf(bindings, index), v), st1);
      LetBinds(fuel, bindings, len, index + 2, env2, st2)
  }

  /** `handleDo`: evaluate every form after the head and answer the last value (`undefined` when there is none). */
  function EvalDo(fuel: nat, items: seq<Value>, env: nat, st: State): (r: Exec<Value>)
    ensures Kept(st, r.st, {env})
    decreases fuel, 3
  {
    var (ys, st1) :- EvalEach(fuel, if items == [] then [] else items[1..], env, st);
    Exec(Ok(if ys == [] then Undefined else ys[|ys| - 1]), st1)
  }

  /**
   * The test of `handleIf`: the `.value` of the condition's result must be
   * loosely different from "nil" and strictly different from `false`.
   */
  function IfTest(cond: Value): (r: Result<bool>)
    ensures cond.Undefined? || cond.Null? ==> r.Err?
  {
    var f :- FieldOf(cond);
    var nil :- LooselyNil(f);
    Ok(!nil && f != Flag(false))
  }

  /** `handleIf`: the third element when the test passes, else the fourth if it is present, else MalNil. */
  function EvalIf(fuel: nat, items: seq<Value>, env: nat, st: State): (r: Exec<Value>)
    ensures Kept(st, r.st, {env})
    decreases fuel, 3
  {
    var (cond, st1) :- Eval(fuel, At(items, 1), env, st);
    var (pass, _) :- Exec(IfTest(cond), st1);
    if pass then Eval(fuel, At(items, 2), env, st1)
    else if Truthy(At(items, 3)) then Eval(fuel, At(items, 3), env, st1)
    else Exec(Ok(Nil), st1)
  }

  /** `handleFn`: a new closure over the form and the current frame. */
  function MakeClosure(ast: Value, env: nat, st: State): (r: Exec<Value>)
    ensures r.res == Ok(Host(st.nextId, ast, env))
    ensures r.st == st.(nextId := st.nextId + 1)
  {
    Exec(Ok(Host(st.nextId, ast, env)), st.(nextId := st.nextId + 1))
  }

  /** The rest of `EVAL`: evaluate every element, then apply the first to the rest. */
  function EvalApply(fuel: nat, ast: Value, env: nat, st: State): (r: Exec<Value>)
    requires ast.List?
    ensures Kept(st, r.st, {env})
    decreases fuel, 3
  {
    var (evaluated, st1) :- EvalAst(fuel, ast, env, st);
    var ys := if evaluated.List? then evaluated.items else [];
    Call(fuel, At(ys, 0), if ys == [] then [] else ys[1..], st1)
  }

  /** `fn.apply(null, args)`: a primitive or a closure; calling it writes no frame that existed before. */
  function Call(fuel: nat, f: Value, args: seq<Value>, st: State): (r: Exec<Value>)
    ensures Kept(st, r.st, {})
    ensures !f.Prim? && !f.Host? ==> r == Exec(Err(NotCallable(f)), st)
    decreases fuel, 2
  {
    match f
    case Prim(op) => Exec(ApplyOp(op, args), st)
    case Host(_, form, defEnv) => CallClosure(fuel, form, defEnv, args, st)
    case _ => Exec(Err(NotCallable(f)), st)
  }

  /**
   * The closure of `handleFn`, called with `exprs`: a child of the defining
   * frame, each parameter set to the argument at its position, then the third
   * element of the form evaluated there.
   */
  function CallClosure(fuel: nat, form: Value, defEnv: nat, exprs: seq<Value>, st: State): (r: Exec<Value>)
    ensures Kept(st, r.st, {})
    decreases fuel, 1
  {
    var (st1, newEnv) := NewFrame(st, defEnv);
    var (fields, _) :- Exec(FieldOf(form), st1);
    var (variables, _) :- Exec(FieldOf(IndexOf(fields, 1)), st1);
    var (len, _) :- Exec(LengthBound(variables), st1);
    var (_, st2) :- BindParams(variables, exprs, len, 0, newEnv, st1);
    Eval(fuel, IndexOf(fields, 2), newEnv, st2)
  }

  /** The parameter loop from `index` on: `newEnv.set(variables[index], exprs[index])`. */
  function BindParams(variables: Value, exprs: seq<Value>, len: nat, index: nat, env: nat, st: State): (r: Exec<()>)
    ensures Kept(st, r.st, {env})
    ensures r.st.nextId == st.nextId && |r.st.store| == |st.store|
    decreases len - index
  {
    if index >= len then Exec(Ok(()), st)
    else
      var (st1, _) :- Exec(Define(st, env, IndexOf(variables, index), At(exprs, index)), st);
      BindParams(variables, exprs, len, index + 1, env, st1)
  }

  /** The `for` loop that binds a closure's parameters, as the program runs it. */
  method BindParamsLoop(variables: Value, exprs: seq<Value>, len: nat, env: nat, st: State) returns (r: Exec<()>)
    ensures r == BindParams(variables, exprs, len, 0, env, st)
  {
    var index := 0;
    var cur := st;
    while index < len
      invariant BindParams(variables, exprs, len, index, env, cur) == BindParams(variables, exprs, len, 0, env, st)
      decreases len - index
    {
      var d := Define(cur, env, IndexOf(variables, index), At(exprs, index));
      if d.Err? {
        return Exec(Err(d.error), cur);
      }
      cur := d.value;
      index := index + 1;
    }
    return Exec(Ok(()), cur);
  }

  // ---------------------------------------------------------------------------
  // Properties
  // ---------------------------------------------------------------------------

  /** A list headed by `if` goes to `handleIf`. */
  lemma IfDispatch(fuel: nat, items: seq<Value>, env: nat, st: State)
    requires fuel >= 1 && items != [] && items[0] == Sym("if")
    ensures Eval(fuel, List(items), env, st) == EvalIf(fuel - 1, items, env, st)
  {
  }

  /** A list headed by `do` goes to `handleDo`. */
  lemma DoDispatch(fuel: nat, items: seq<Value>, env: nat, st: State)
    requires fuel >= 1 && items != [] && items[0] == Sym("do")
    ensures Eval(fuel, List(items), env, st) == EvalDo(fuel - 1, items, env, st)
  {
  }

  /** A list headed by `let*` goes to `handleLet`. */
  lemma LetDispatch(fuel: nat, items: seq<Value>, env: nat, st: State)
    requires fuel >= 1 && items != [] && items[0] == Sym("let*")
    ensures Eval(fuel, List(items), env, st) == EvalLet(fuel - 1, items, env, st)
  {
  }

  /** A list headed by `fn*` answers a closure at once, evaluating nothing. */
  lemma FnDispatch(fuel: nat, items: seq<Value>, env: nat, st: State)
    requires fuel >= 1 && items != [] && items[0] == Sym("fn*")
    ensures Eval(fuel, List(items), env, st) == Exec(Ok(Host(st.nextId, List(items), env)), st.(nextId := st.nextId + 1))
  {
  }

  /** A list headed by any other symbol is an application. */
  lemma ApplyDispatch(fuel: nat, items: seq<Value>, env: nat, st: State)
    requires fuel >= 1 && items != [] && items[0].Sym?
    requires items[0].name !in {"def!", "let*", "do", "if", "fn*"}
    ensures Eval(fuel, List(items), env, st) == EvalApply(fuel - 1, List(items), env, st)
  {
  }

  /**
   * The test of `if` on the atoms: only `false` and a string or keyword
   * spelled "nil" fail it. MalNil's `.value` is `null`, which is loosely
   * different from "nil", so `nil` passes, and so does every number, 0
   * included, whose `.value` is `undefined`.
   */
  lemma IfTestAtoms(b: bool, n: int, s: string)
    ensures IfTest(Bool(b)) == Ok(b)
    ensures IfTest(Nil) == Ok(true)
    ensures IfTest(Num(n)) == Ok(true)
    ensures IfTest(Str(s)) == Ok(s != "nil")
    ensures IfTest(Keyword(s)) == Ok(s != "nil")
    ensures IfTest(Undefined).Err? && IfTest(Null).Err?
  {
    IfTestText(s);
  }

  lemma IfTestText(s: string)
    ensures IfTest(Str(s)) == Ok(s != "nil")
    ensures IfTest(Keyword(s)) == Ok(s != "nil")
  {
  }

  /**
   * A list fails the test exactly when its elements joined with commas read
   * "nil": the empty list passes, the list holding MalNil alone fails.
   */
  lemma IfTestLists()
    ensures IfTest(List([])) == Ok(true)
    ensures IfTest(List([Nil])) == Ok(false)
  {
    var xs := [Nil];
    assert JoinPart(xs[0]) == Ok("nil");
    assert xs[1..] == [] && ["nil"] + [] == ["nil"];
    assert JoinParts(xs) == Ok(["nil"]);
    assert Join(["nil"], ",") == "nil";
  }

  /** When the test passes, `if` answers the evaluation of the third element in the state the test left. */
  lemma IfThen(fuel: nat, items: seq<Value>, env: nat, st: State, cond: Value, st1: State)
    requires fuel >= 1 && items != [] && items[0] == Sym("if")
    requires Eval(fuel - 1, At(items, 1), env, st) == Exec(Ok(cond), st1) && IfTest(cond) == Ok(true)
    ensures Eval(fuel, List(items), env, st) == Eval(fuel - 1, At(items, 2), env, st1)
  {
    IfDispatch(fuel, items, env, st);
  }

  /**
   * When the test fails, `if` answers the evaluation of the fourth element if
   * that element is truthy as a host value, else MalNil: an else-branch
   * written as the number 0 is never evaluated.
   */
  lemma IfElse(fuel: nat, items: seq<Value>, env: nat, st: State, cond: Value, st1: State)
    requires fuel >= 1 && items != [] && items[0] == Sym("if")
    requires Eval(fuel - 1, At(items, 1), env, st) == Exec(Ok(cond), st1) && IfTest(cond) == Ok(false)
    ensures |items| > 3 && Truthy(items[3]) ==> Eval(fuel, List(items), env, st) == Eval(fuel - 1, items[3], env, st1)
    ensures |items| <= 3 || !Truthy(items[3]) ==> Eval(fuel, List(items), env, st) == Exec(Ok(Nil), st1)
  {
    IfDispatch(fuel, items, env, st);
  }

  /** `(do)` answers `undefined`. */
  lemma DoEmpty(fuel: nat, env: nat, st: State)
    ensures Eval(fuel + 1, List([Sym("do")]), env, st) == Exec(Ok(Undefined), st)
  {
    DoDispatch(fuel + 1, [Sym("do")], env, st);
  }

  /** `(do e)` is exactly `e`, result and state alike. */
  lemma DoSingle(fuel: nat, e: Value, env: nat, st: State)
    ensures Eval(fuel + 1, List([Sym("do"), e]), env, st) == Eval(fuel, e, env, st)
  {
    DoDispatch(fuel + 1, [Sym("do"), e], env, st);
    var r := Eval(fuel, e, env, st);
    assert [Sym("do"), e][1..] == [e] && [e][1..] == [];
    assert EvalEach(fuel, [], env, r.st) == Exec(Ok([]), r.st);
  }

  /**
   * Evaluating `xs + [x]` left to right: the elements of `xs` first, then
   * `x` in the state they leave; the first throw stops it.
   */
  lemma {:induction false} EvalEachSnoc(fuel: nat, xs: seq<Value>, x: Value, env: nat, st: State)
    ensures var pre := EvalEach(fuel, xs, env, st);
            var last := Eval(fuel, x, env, pre.st);
            EvalEach(fuel, xs + [x], env, st) ==
              if pre.res.Err? then pre
              else if last.res.Err? then Exec(Err(last.res.error), last.st)
              else Exec(Ok(pre.res.value + [last.res.value]), last.st)
    decreases xs
  {
    if xs == [] {
      var last := Eval(fuel, x, env, st);
      assert xs + [x] == [x] && [x][1..] == [] && [x][0] == x;
      if last.res.Ok? {
        assert EvalEach(fuel, [], env, last.st) == Exec(Ok([]), last.st);
        assert [] + [last.res.value] == [last.res.value] + [] == [last.res.value];
      }
    } else {
      var first := Eval(fuel, xs[0], env, st);
      assert (xs + [x])[0] == xs[0] && (xs + [x])[1..] == xs[1..] + [x];
      if first.res.Ok? {
        EvalEachSnoc(fuel, xs[1..], x, env, first.st);
        var rest := EvalEach(fuel, xs[1..], env, first.st);
        var last := Eval(fuel, x, env, rest.st);
        if rest.res.Ok? && last.res.Ok? {
          assert [first.res.value] + (rest.res.value + [last.res.value])
              == ([first.res.value] + rest.res.value) + [last.res.value];
        }
      }
    }
  }

  /**
   * `(do f1 ... fn)` evaluates `f1` to `f(n-1)` in order and then answers
   * `fn` evaluated in the state they leave, result and state alike; a throw
   * among the first forms is the answer.
   */
  lemma DoForms(fuel: nat, forms: seq<Value>, env: nat, st: State)
    requires forms != []
    ensures var n := |forms|;
            var pre := EvalEach(fuel, forms[..n - 1], env, st);
            Eval(fuel + 1, List([Sym("do")] + forms), env, st) ==
              if pre.res.Err? then Exec(Err(pre.res.error), pre.st) else Eval(fuel, forms[n - 1], env, pre.st)
  {
    var n := |forms|;
    var items := [Sym("do")] + forms;
    DoDispatch(fuel + 1, items, env, st);
    assert items[1..] == forms[..n - 1] + [forms[n - 1]];
    DoLast(fuel, items, forms[..n - 1], forms[n - 1], env, st);
  }

  /** `handleDo` over `first` followed by `last`: the answer is `last`'s, after `first`. */
  lemma DoLast(fuel: nat, items: seq<Value>, first: seq<Value>, last: Value, env: nat, st: State)
    requires items != [] && items[1..] == first + [last]
    ensures var pre := EvalEach(fuel, first, env, st);
            EvalDo(fuel, items, env, st) ==
              if pre.res.Err? then Exec(Err(pre.res.error), pre.st) else Eval(fuel, last, env, pre.st)
  {
    EvalEachSnoc(fuel, first, last, env, st);
    var pre := EvalEach(fuel, first, env, st);
    if pre.res.Ok? {
      var r := Eval(fuel, last, env, pre.st);
      if r.res.Ok? {
        var ys := pre.res.value + [r.res.value];
        assert ys[|ys| - 1] == r.res.value;
      }
    }
  }

  /** Two evaluations of one `fn*` form answer two closures that `===` tells apart. */
  lemma ClosuresDistinct(fuel: nat, items: seq<Value>, env: nat, st: State)
    requires fuel >= 1 && items != [] && items[0] == Sym("fn*")
    ensures var r1 := Eval(fuel, List(items), env, st);
            var r2 := Eval(fuel, List(items), env, r1.st);
            && r1.res.Ok? && r2.res.Ok?
            && ApplyOp(Identical, [r1.res.value, r2.res.value]) == Ok(Flag(false))
  {
    var st1 := st.(nextId := st.nextId + 1);
    FnDispatch(fuel, items, env, st);
    FnDispatch(fuel, items, env, st1);
    IdenticalIsStrict(Host(st.nextId, List(items), env), Host(st1.nextId, List(items), env));
  }

  /** `(let* bindings e1 e2)` evaluates only the last form, in the child frame; `e1` is skipped. */
  lemma LetEvaluatesLastForm(fuel: nat, e1: Value, e2: Value, env: nat, st: State)
    requires fuel >= 1
    ensures var (st1, env2) := NewFrame(st, env);
            Eval(fuel, List([Sym("let*"), List([]), e1, e2]), env, st) == Eval(fuel - 1, e2, env2, st1)
  {
    var items := [Sym("let*"), List([]), e1, e2];
    LetDispatch(fuel, items, env, st);
    assert LengthBound(JsArray([])) == Ok(0);
  }

  /** The one-parameter identity closure `(fn* (p) p)`. */
  function IdentityForm(p: string): Value {
    List([Sym("fn*"), List([Sym(p)]), Sym(p)])
  }

  /** A call whose parameter loop completes evaluates the third element of the form in the new frame. */
  lemma CallClosureSteps(fuel: nat, form: Value, defEnv: nat, args: seq<Value>, st: State, variables: Value, len: nat, st2: State)
    requires FieldOf(form).Ok? && FieldOf(IndexOf(FieldOf(form).value, 1)) == Ok(variables)
    requires LengthBound(variables) == Ok(len)
    requires BindParams(variables, args, len, 0, NewFrame(st, defEnv).1, NewFrame(st, defEnv).0) == Exec(Ok(()), st2)
    ensures CallClosure(fuel, form, defEnv, args, st) == Eval(fuel, IndexOf(FieldOf(form).value, 2), NewFrame(st, defEnv).1, st2)
  {
  }

  /** Calling `(fn* (p) p)` sets `p` in a child of the defining frame to the first argument, then looks `p` up there. */
  lemma IdentityCall(fuel: nat, p: string, defEnv: nat, args: seq<Value>, st: State, st1: State, newEnv: nat)
    requires defEnv < |st.store| && NewFrame(st, defEnv) == (st1, newEnv)
    ensures CallClosure(fuel, IdentityForm(p), defEnv, args, st) == Eval(fuel, Sym(p), newEnv, Define(st1, newEnv, Sym(p), At(args, 0)).value)
  {
    var fields := JsArray([Sym("fn*"), List([Sym(p)]), Sym(p)]);
    var variables := JsArray([Sym(p)]);
    assert FieldOf(IdentityForm(p)) == Ok(fields);
    assert IndexOf(fields, 2) == Sym(p);
    assert FieldOf(IndexOf(fields, 1)) == Ok(variables);
    assert LengthBound(variables) == Ok(1);
    BindOne(p, args, newEnv, st1);
    CallClosureSteps(fuel, IdentityForm(p), defEnv, args, st, variables, 1, Define(st1, newEnv, Sym(p), At(args, 0)).value);
  }

  /** The parameter loop over the single parameter `p` is one `set`. */
  lemma BindOne(p: string, args: seq<Value>, env: nat, st: State)
    ensures BindParams(JsArray([Sym(p)]), args, 1, 0, env, st) == Exec(Ok(()), Define(st, env, Sym(p), At(args, 0)).value)
  {
    var st2 := Define(st, env, Sym(p), At(args, 0)).value;
    assert BindParams(JsArray([Sym(p)]), args, 1, 1, env, st2) == Exec(Ok(()), st2);
  }

  /** Calling `(fn* (p) p)` with a truthy argument answers the argument. */
  lemma ClosureBindsParameter(fuel: nat, p: string, defEnv: nat, v: Value, st: State)
    requires fuel >= 1 && defEnv < |st.store| && Truthy(v)
    ensures CallClosure(fuel, IdentityForm(p), defEnv, [v], st).res == Ok(v)
  {
    var (st1, newEnv) := NewFrame(st, defEnv);
    IdentityCall(fuel, p, defEnv, [v], st, st1, newEnv);
    DefineThenLookup(st1, newEnv, p, v);
  }

  /**
   * Calling `(fn* (p) p)` with no argument sets `p` to `undefined`, which
   * `get` skips: the call answers what the defining frame's chain holds for
   * `p`, or throws "p not found".
   */
  lemma ClosureMissingArgument(fuel: nat, p: string, defEnv: nat, st: State)
    requires fuel >= 1 && defEnv < |st.store|
    ensures CallClosure(fuel, IdentityForm(p), defEnv, [], st).res == Lookup(st, defEnv, Sym(p))
  {
    var (st1, newEnv) := NewFrame(st, defEnv);
    IdentityCall(fuel, p, defEnv, [], st, st1, newEnv);
    DefineFalsyLookup(st1, newEnv, p, Undefined);
    NewFrameChain(st, defEnv, defEnv);
    assert ChainOf(st1.store, newEnv)[1..] == ChainOf(st.store, defEnv);
  }

  /** The root frame holds `=` as strict identity and `list` as the list constructor. */
  lemma RootBindings()
    ensures Lookup(RootState(), Root, Sym("=")) == Ok(Prim(Identical))
    ensures Lookup(RootState(), Root, Sym("list")) == Ok(Prim(MakeList))
  {
    LookupOutermost(RootState(), Root, "=");
    LookupOutermost(RootState(), Root, "list");
  }
}
