/**
 * Properties of the step 8 evaluator: macro expansion, `defmacro!`, the
 * forms that answer without evaluating their operand, and the `if` test.
 *
 * Fuel is stated as `fuel + k`: each turn of the `EVAL` loop spends one
 * unit, and so does each expansion of a macro.
 */
module Step8Props {
  import opened Types
  import opened Frames
  import opened Core
  import opened QuasiquoteForms
  import opened Step8

  // ---------------------------------------------------------------------------
  // macroExpand
  // ---------------------------------------------------------------------------

  /** Expanding what an expansion answered changes nothing, with any fuel. */
  lemma ExpandIdempotent(fuel: nat, fuel2: nat, ast: Value, env: nat, st: State)
    ensures var e := MacroExpand(fuel, ast, env, st);
            e.res.Ok? ==> MacroExpand(fuel2, e.res.value, env, e.st) == e
  {
    var e := MacroExpand(fuel, ast, env, st);
    if e.res.Ok? {
      assert !IsMacroCall(e.res.value, env, e.st);
    }
  }

  /** With nothing marked `isMacro`, expansion answers the form itself and changes nothing. */
  lemma NoMacrosNoExpansion(fuel: nat, ast: Value, env: nat, st: State)
    requires st.macros == {} && st.macroOps == {}
    ensures MacroExpand(fuel, ast, env, st) == Exec(Ok(ast), st)
  {
    assert !IsMacroCall(ast, env, st);
  }

  /** A head symbol that `get` cannot find makes no macro call: the `try` answers false. */
  lemma UnboundHeadNoExpansion(fuel: nat, name: string, args: seq<Value>, env: nat, st: State)
    requires Lookup(st, env, Sym(name)).Err?
    ensures MacroExpand(fuel, List([Sym(name)] + args), env, st) == Exec(Ok(List([Sym(name)] + args)), st)
  {
    assert ([Sym(name)] + args)[0] == Sym(name);
    assert !IsMacroCall(List([Sym(name)] + args), env, st);
  }

  /** A macro made with `fn*` is a MalFunction, which has no `apply`: expanding a call to it throws. */
  lemma FnMacroThrows(fuel: nat, name: string, args: seq<Value>, env: nat, st: State, f: Value)
    requires Lookup(st, env, Sym(name)) == Ok(f) && f.Fn? && f.id in st.macros
    ensures MacroExpand(fuel + 1, List([Sym(name)] + args), env, st) ==
              Exec(Err(TypeError("macro.apply is not a function")), st)
  {
    var ast := List([Sym(name)] + args);
    assert ast.items[0] == Sym(name);
    ExpandOnce(fuel, ast, env, st);
  }

  /**
   * A marked primitive expands a call to it by applying it to the
   * unevaluated arguments; marked `list`, `(m a b)` expands as `(a b)` does.
   */
  lemma ListMacroExpands(fuel: nat, name: string, args: seq<Value>, env: nat, st: State)
    requires Lookup(st, env, Sym(name)) == Ok(Prim(MakeList)) && MakeList in st.macroOps
    ensures MacroExpand(fuel + 1, List([Sym(name)] + args), env, st) == MacroExpand(fuel, List(args), env, st)
  {
    var ast := List([Sym(name)] + args);
    assert ast.items[0] == Sym(name) && ast.items[1..] == args;
    ExpandOnce(fuel, ast, env, st);
  }

  // ---------------------------------------------------------------------------
  // defmacro!
  // ---------------------------------------------------------------------------

  /**
   * `(defmacro! name form)`: the value of `form`, a MalFunction, is marked
   * `isMacro`, bound under `name` in the current frame, and answered.
   */
  lemma DefMacroMarks(fuel: nat, items: seq<Value>, name: string, env: nat, st: State, f: Value, st1: State)
    requires |items| >= 3 && items[1] == Sym(name)
    requires EvalF(fuel, items[2], env, st) == Exec(Ok(f), st1) && f.Fn? && env < |st1.store|
    ensures var r := EvalDefMacro(fuel, items, env, st);
            && r.res == Ok(f)
            && f.id in r.st.macros
            && Lookup(r.st, env, Sym(name)) == Ok(f)
            && IsMacroCall(List([Sym(name)] + items[3..]), env, r.st)
  {
    var st2 := st1.(macros := st1.macros + {f.id});
    assert MarkMacro(f, st1) == Ok(st2);
    assert At(items, 1) == Sym(name) && At(items, 2) == items[2];
    DefineThenLookup(st2, env, name, f);
    var st3 := Define(st2, env, Sym(name), f).value;
    assert EvalDefMacro(fuel, items, env, st) == Exec(Lookup(st3, env, Sym(name)), st3);
    assert ([Sym(name)] + items[3..])[0] == Sym(name);
  }

  // ---------------------------------------------------------------------------
  // Turns of the loop on forms that are no macro call
  // ---------------------------------------------------------------------------

  /** A non-empty list that is no macro call is dispatched as it stands. */
  lemma PlainTurn(fuel: nat, items: seq<Value>, env: nat, st: State)
    requires items != [] && !IsMacroCall(List(items), env, st)
    ensures Step(fuel, List(items), env, st) == Dispatch(fuel, List(items), env, st)
  {
  }

  /** A turn that answers ends the loop with that answer. */
  lemma TurnDone(fuel: nat, ast: Value, env: nat, st: State, r: Exec<Value>)
    requires Step(fuel, ast, env, st) == Done(r)
    ensures EvalF(fuel + 1, ast, env, st) == r
  {
  }

  /** A turn that continues leaves the rest of the work to the next turn. */
  lemma TurnContinue(fuel: nat, ast: Value, env: nat, st: State, ast2: Value, env2: nat, st2: State)
    requires Step(fuel, ast, env, st) == Continue(ast2, env2, st2)
    ensures EvalF(fuel + 1, ast, env, st) == EvalF(fuel, ast2, env2, st2)
  {
  }

  /** `(quote x)` answers `x` without evaluating it. */
  lemma QuoteAnswers(fuel: nat, x: Value, env: nat, st: State)
    requires !IsMacroCall(List([Sym("quote"), x]), env, st)
    ensures EvalF(fuel + 1, List([Sym("quote"), x]), env, st) == Exec(Ok(x), st)
  {
    var items := [Sym("quote"), x];
    PlainTurn(fuel, items, env, st);
    assert FieldOf(At(items, 0)) == Ok(Text("quote")) && At(items, 1) == x;
    assert Dispatch(fuel, List(items), env, st) == Done(Exec(Ok(x), st));
    TurnDone(fuel, List(items), env, st, Exec(Ok(x), st));
  }

  /** `(quasiquoteexpand x)` answers the rewrite of `x` without evaluating it. */
  lemma QuasiquoteExpandAnswers(fuel: nat, x: Value, env: nat, st: State)
    requires !IsMacroCall(List([Sym("quasiquoteexpand"), x]), env, st)
    ensures EvalF(fuel + 1, List([Sym("quasiquoteexpand"), x]), env, st) == Exec(Ok(Quasiquote(x)), st)
  {
    var items := [Sym("quasiquoteexpand"), x];
    PlainTurn(fuel, items, env, st);
    assert FieldOf(At(items, 0)) == Ok(Text("quasiquoteexpand")) && At(items, 1) == x;
    assert Dispatch(fuel, List(items), env, st) == Done(Exec(Ok(Quasiquote(x)), st));
    TurnDone(fuel, List(items), env, st, Exec(Ok(Quasiquote(x)), st));
  }

  /** `(macroexpand x)` answers the expansion of `x` without evaluating it. */
  lemma MacroexpandAnswers(fuel: nat, x: Value, env: nat, st: State)
    requires !IsMacroCall(List([Sym("macroexpand"), x]), env, st)
    ensures EvalF(fuel + 1, List([Sym("macroexpand"), x]), env, st) == MacroExpand(fuel, x, env, st)
  {
    var items := [Sym("macroexpand"), x];
    PlainTurn(fuel, items, env, st);
    assert FieldOf(At(items, 0)) == Ok(Text("macroexpand")) && At(items, 1) == x;
    MacroexpandDispatch(fuel, items, env, st);
    TurnDone(fuel, List(items), env, st, MacroExpand(fuel, x, env, st));
  }

  /** The `switch` sends a list headed by `macroexpand` to `macroExpand` of its second element. */
  lemma MacroexpandDispatch(fuel: nat, items: seq<Value>, env: nat, st: State)
    requires FieldOf(At(items, 0)) == Ok(Text("macroexpand"))
    ensures Dispatch(fuel, List(items), env, st) == Done(MacroExpand(fuel, At(items, 1), env, st))
  {
    var head := Text("macroexpand");
    assert head != Text("def!") && head != Text("defmacro!") && head != Text("let*") && head != Text("do");
    assert head != Text("if") && head != Text("fn*") && head != Text("quote") && head != Text("unquote");
    assert head != Text("quasiquote") && head != Text("quasiquoteexpand");
  }

  /** `(quasiquote x)` goes round the loop with the rewrite of `x`, in the same frame. */
  lemma QuasiquoteContinues(fuel: nat, x: Value, env: nat, st: State)
    requires !IsMacroCall(List([Sym("quasiquote"), x]), env, st)
    ensures EvalF(fuel + 1, List([Sym("quasiquote"), x]), env, st) == EvalF(fuel, Quasiquote(x), env, st)
  {
    var items := [Sym("quasiquote"), x];
    PlainTurn(fuel, items, env, st);
    assert FieldOf(At(items, 0)) == Ok(Text("quasiquote")) && At(items, 1) == x;
    assert Dispatch(fuel, List(items), env, st) == Continue(Quasiquote(x), env, st);
    TurnContinue(fuel, List(items), env, st, Quasiquote(x), env, st);
  }

  /** `(unquote x)` outside a quasiquote evaluates `x`. */
  lemma UnquoteContinues(fuel: nat, x: Value, env: nat, st: State)
    requires !IsMacroCall(List([Sym("unquote"), x]), env, st)
    ensures EvalF(fuel + 1, List([Sym("unquote"), x]), env, st) == EvalF(fuel, x, env, st)
  {
    var items := [Sym("unquote"), x];
    PlainTurn(fuel, items, env, st);
    assert FieldOf(At(items, 0)) == Ok(Text("unquote")) && At(items, 1) == x;
    assert Dispatch(fuel, List(items), env, st) == Continue(x, env, st);
    TurnContinue(fuel, List(items), env, st, x, env, st);
  }

  /** A macro call whose expansion is no list is evaluated by `eval_ast` in the state the expansion left. */
  lemma NonListExpansion(fuel: nat, ast: Value, env: nat, st: State, v: Value, st1: State)
    requires ast.List? && ast.items != []
    requires MacroExpand(fuel, ast, env, st) == Exec(Ok(v), st1) && !v.List?
    ensures EvalF(fuel + 1, ast, env, st) == EvalAst(fuel, v, env, st1)
  {
    assert Step(fuel, ast, env, st) == Dispatch(fuel, v, env, st1);
  }

  // ---------------------------------------------------------------------------
  // if
  // ---------------------------------------------------------------------------

  /**
   * The test of `if`: MalBoolean false and MalNil fail it. Every other Mal
   * value passes, and so does a raw `false` (a `<` result), whose `.value`
   * is `undefined`; a raw `undefined` or `null` throws.
   */
  lemma IfTestValues(b: bool, n: int, s: string, xs: seq<Value>)
    ensures IfTest(Bool(b)) == Ok(b)
    ensures IfTest(Nil) == Ok(false)
    ensures IfTest(Flag(b)) == Ok(true)
    ensures IfTest(Num(n)) == Ok(true)
    ensures IfTest(Str(s)) == Ok(true) && IfTest(Sym(s)) == Ok(true)
    ensures IfTest(List(xs)) == Ok(true) && IfTest(Vector(xs)) == Ok(true)
    ensures IfTest(Undefined).Err? && IfTest(Null).Err?
  {
  }

  /** A turn on a list headed by `if` that is no macro call goes to `handleIf`. */
  lemma IfDispatch(fuel: nat, items: seq<Value>, env: nat, st: State)
    requires items != [] && items[0] == Sym("if") && !IsMacroCall(List(items), env, st)
    ensures Step(fuel, List(items), env, st) == IfStep(fuel, items, env, st)
  {
    PlainTurn(fuel, items, env, st);
    assert FieldOf(At(items, 0)) == Ok(Text("if"));
  }

  /**
   * `if` goes round the loop with the chosen branch, unevaluated, in the same
   * frame: the third element when the test passes (MalNil when it is
   * missing), else the fourth when there is one, else MalNil.
   */
  lemma IfBranches(fuel: nat, items: seq<Value>, env: nat, st: State, cond: Value, st1: State, pass: bool)
    requires items != [] && items[0] == Sym("if") && !IsMacroCall(List(items), env, st)
    requires EvalF(fuel, At(items, 1), env, st) == Exec(Ok(cond), st1) && IfTest(cond) == Ok(pass)
    ensures pass && |items| > 2 ==> EvalF(fuel + 1, List(items), env, st) == EvalF(fuel, OrNil(items[2]), env, st1)
    ensures pass && |items| <= 2 ==> EvalF(fuel + 1, List(items), env, st) == EvalF(fuel, Nil, env, st1)
    ensures !pass && |items| > 3 && !items[3].Undefined? ==>
              EvalF(fuel + 1, List(items), env, st) == EvalF(fuel, items[3], env, st1)
    ensures !pass && |items| <= 3 ==> EvalF(fuel + 1, List(items), env, st) == EvalF(fuel, Nil, env, st1)
  {
    IfDispatch(fuel, items, env, st);
  }
}
