/**
 * The evaluator of impls/dlisp/step8_macros.js: the tail-call loop of step 6
 * with macros, `quote` and the quasiquote rewrite.
 *
 * Before a non-empty list is dispatched it is macro-expanded: while its head
 * symbol names a value marked `isMacro`, that value is applied to the
 * unevaluated rest. The mark is a property the program writes on the value;
 * the model keeps the marked MalFunctions (by allocation id) and the marked
 * primitives in the state. A MalFunction has no `apply` method, so expanding
 * a macro made with `fn*` throws; a marked primitive expands.
 *
 * The root frame is the one of step 6 (the same namespace, `eval` and
 * `*ARGV*`).
 */
module Step8 {
  import opened Types
  import opened Frames
  import opened Core
  import opened QuasiquoteForms
  import Step6

  const Root: nat := Step6.Root

  /** The outcome of one turn of the loop: a final answer, or the form and frame of the next turn. */
  datatype Next = Done(r: Exec<Value>) | Continue(ast: Value, env: nat, st: State)

  /** What a turn in frame `env` may change: the tables of `env` and the root frame; the next frame is `env` or a new one. */
  ghost predicate StepKept(st: State, n: Next, env: nat) {
    match n
    case Done(r) => Kept(st, r.st, {env, Root})
    case Continue(_, env2, st2) => Kept(st, st2, {env, Root}) && (env2 == env || env2 >= |st.store|)
  }

  // ---------------------------------------------------------------------------
  // Macros
  // ---------------------------------------------------------------------------

  /** `v.isMacro`: the value was marked by `defmacro!`. */
  predicate IsMacro(v: Value, st: State) {
    (v.Fn? && v.id in st.macros) || (v.Prim? && v.op in st.macroOps)
  }

  /**
   * `isMacroCall`: a non-empty list whose head is a symbol that `get` finds,
   * bound to a marked value. A failed lookup throws inside the `try`, which
   * answers false.
   */
  predicate IsMacroCall(ast: Value, env: nat, st: State) {
    && ast.List? && ast.items != [] && ast.items[0].Sym?
    && var v := Lookup(st, env, ast.items[0]);
       v.Ok? && IsMacro(v.value, st)
  }

  /**
   * `macro.isMacro = true`. Writing a property of `undefined` or `null`
   * throws; on a number, boolean or string the write is silently dropped.
   * MalFunctions and primitives are tracked; other objects are not.
   */
  function MarkMacro(m: Value, st: State): (r: Result<State>)
    ensures m.Fn? ==> r == Ok(st.(macros := st.macros + {m.id}))
    ensures m.Prim? ==> r == Ok(st.(macroOps := st.macroOps + {m.op}))
    ensures m.Num? || m.Flag? || m.Text? ==> r == Ok(st)
    ensures r.Err? ==> !(m.Fn? || m.Prim? || m.Num? || m.Flag? || m.Text?)
    ensures m.Undefined? || m.Null? ==> r.Err? && r.error.TypeError?
    ensures r.Ok? ==> Kept(st, r.value, {})
  {
    if m.Fn? then Ok(st.(macros := st.macros + {m.id}))
    else if m.Prim? then Ok(st.(macroOps := st.macroOps + {m.op}))
    else if m.Num? || m.Flag? || m.Text? then Ok(st)
    else if m.Undefined? then Err(TypeError("Cannot set properties of undefined (setting 'isMacro')"))
    else if m.Null? then Err(TypeError("Cannot set properties of null (setting 'isMacro')"))
    else Err(Unmodelled("isMacro on an object whose identity the model does not track"))
  }

  /**
   * `macro.apply(null, args)`. A MalFunction is no host function and has no
   * `apply`; `eval` evaluates its argument in the root frame; any other
   * primitive is applied to the unevaluated arguments.
   */
  function ApplyMacro(fuel: nat, m: Value, args: seq<Value>, st: State): (r: Exec<Value>)
    ensures Kept(st, r.st, {Root})
    ensures !m.Prim? ==> r == Exec(Err(TypeError("macro.apply is not a function")), st)
    decreases fuel, 3
  {
    match m
    case Prim(EvalOp) => EvalF(fuel, At(args, 0), Root, st)
    case Prim(op) => Exec(ApplyOp(op, args), st)
    case _ => Exec(Err(TypeError("macro.apply is not a function")), st)
  }

  /**
   * `macroExpand`: apply the macro at the head until the form is no macro
   * call. Each expansion spends one unit of fuel; a form that is no macro
   * call needs none.
   */
  function MacroExpand(fuel: nat, ast: Value, env: nat, st: State): (r: Exec<Value>)
    ensures Kept(st, r.st, {Root})
    ensures r.res.Ok? ==> !IsMacroCall(r.res.value, env, r.st)
    ensures !IsMacroCall(ast, env, st) ==> r == Exec(Ok(ast), st)
    decreases fuel, 4
  {
    if !IsMacroCall(ast, env, st) then Exec(Ok(ast), st)
    else if fuel == 0 then Exec(Err(OutOfFuel), st)
    else
      var m := Lookup(st, env, ast.items[0]).value;
      var (ast2, st2) :- ApplyMacro(fuel - 1, m, ast.items[1..], st);
      MacroExpand(fuel - 1, ast2, env, st2)
  }

  /** One expansion: the macro at the head applied to the unevaluated rest, then the expansion of what it answers. */
  lemma ExpandOnce(fuel: nat, ast: Value, env: nat, st: State)
    requires IsMacroCall(ast, env, st)
    ensures var e := ApplyMacro(fuel, Lookup(st, env, ast.items[0]).value, ast.items[1..], st);
            MacroExpand(fuel + 1, ast, env, st) ==
              if e.res.Err? then Exec(Err(e.res.error), e.st) else MacroExpand(fuel, e.res.value, env, e.st)
  {
  }

  /** The `while (isMacroCall(ast, env))` loop of `macroExpand`. */
  method MacroExpandLoop(fuel: nat, ast: Value, env: nat, st: State) returns (r: Exec<Value>)
    ensures r == MacroExpand(fuel, ast, env, st)
  {
    var f, a, s := fuel, ast, st;
    while IsMacroCall(a, env, s)
      invariant MacroExpand(f, a, env, s) == MacroExpand(fuel, ast, env, st)
      decreases f
    {
      if f == 0 {
        return Exec(Err(OutOfFuel), s);
      }
      var m := Lookup(s, env, a.items[0]).value;
      var e := ApplyMacro(f - 1, m, a.items[1..], s);
      ExpandOnce(f - 1, a, env, s);
      if e.res.Err? {
        return Exec(Err(e.res.error), e.st);
      }
      f, a, s := f - 1, e.res.value, e.st;
    }
    return Exec(Ok(a), s);
  }

  // ---------------------------------------------------------------------------
  // The evaluator
  // ---------------------------------------------------------------------------

  /** `EVAL(ast, env)`: turns of the loop until one answers. */
  function EvalF(fuel: nat, ast: Value, env: nat, st: State): (r: Exec<Value>)
    ensures Kept(st, r.st, {env, Root})
    decreases fuel, 0
  {
    if fuel == 0 then Exec(Err(OutOfFuel), st)
    else match Step(fuel - 1, ast, env, st)
      case Done(r) => r
      case Continue(ast2, env2, st2) => EvalF(fuel - 1, ast2, env2, st2)
  }

  /** `eval_ast`: a symbol is looked up; the elements of a list, vector or hash map are evaluated in order. */
  function EvalAst(fuel: nat, ast: Value, env: nat, st: State): (r: Exec<Value>)
    ensures Kept(st, r.st, {env, Root})
    decreases fuel, 2
  {
    match ast
    case Sym(_) => Exec(Lookup(st, env, ast), st)
    case List(xs) =>
      var (ys, st1) :- EvalEach(fuel, xs, env, st);
      Exec(Ok(List(ys)), st1)
    case Vector(xs) =>
      var (ys, st1) :- EvalEach(fuel, xs, env, st);
      Exec(Ok(Vector(ys)), st1)
    case HashMap(xs) =>
      var (ys, st1) :- EvalEach(fuel, xs, env, st);
      Exec(Ok(HashMap(ys)), st1)
    case _ => Exec(Ok(ast), st)
  }

  /** `xs.map(x => EVAL(x, env))`: left to right, stopping at the first throw. */
  function EvalEach(fuel: nat, xs: seq<Value>, env: nat, st: State): (r: Exec<seq<Value>>)
    ensures Kept(st, r.st, {env, Root})
    ensures r.res.Ok? ==> |r.res.value| == |xs|
    decreases fuel, 1, xs
  {
    if xs == [] then Exec(Ok([]), st)
    else
      var (y, st1) :- EvalF(fuel, xs[0], env, st);
      var (ys, st2) :- EvalEach(fuel, xs[1..], env, st1);
      Exec(Ok([y] + ys), st2)
  }

  /** One turn of the `while (true)` loop: a non-empty list is macro-expanded, then dispatched. */
  function Step(fuel: nat, ast: Value, env: nat, st: State): (n: Next)
    ensures StepKept(st, n, env)
    decreases fuel, 6
  {
    if !ast.List? then Done(EvalAst(fuel, ast, env, st))
    else if ast.items == [] then Done(Exec(Ok(ast), st))
    else
      var e := MacroExpand(fuel, ast, env, st);
      if e.res.Err? then Done(e)
      else
        var n := Dispatch(fuel, e.res.value, env, e.st);
        StepKeptAfter(st, e.st, n, env);
        n
  }

  /** A turn that follows a macro expansion keeps what the expansion and the rest of the turn both keep. */
  lemma StepKeptAfter(st: State, st1: State, n: Next, env: nat)
    requires Kept(st, st1, {Root}) && StepKept(st1, n, env)
    ensures StepKept(st, n, env)
  {
    match n
    case Done(r) => KeptTransitive(st, st1, r.st, {Root}, {env, Root});
    case Continue(_, _, st2) => KeptTransitive(st, st1, st2, {Root}, {env, Root});
  }

  /** The rest of the turn on the expanded form, chosen by the `.value` of its head. */
  function Dispatch(fuel: nat, ast: Value, env: nat, st: State): (n: Next)
    ensures StepKept(st, n, env)
    decreases fuel, 5
  {
    if !ast.List? then Done(EvalAst(fuel, ast, env, st))
    else match FieldOf(At(ast.items, 0))
      case Err(e) => Done(Exec(Err(e), st))
      case Ok(head) =>
        if head == Text("def!") then Done(EvalDef(fuel, ast.items, env, st))
        else if head == Text("defmacro!") then Done(EvalDefMacro(fuel, ast.items, env, st))
        else if head == Text("let*") then LetStep(fuel, ast.items, env, st)
        else if head == Text("do") then DoStep(fuel, ast.items, env, st)
        else if head == Text("if") then IfStep(fuel, ast.items, env, st)
        else if head == Text("fn*") then Continue(FnValue(ast.items, env, st.nextId), env, st.(nextId := st.nextId + 1))
        else if head == Text("quote") then Done(Exec(Ok(At(ast.items, 1)), st))
        else if head == Text("unquote") then Continue(At(ast.items, 1), env, st)
        else if head == Text("quasiquote") then Continue(Quasiquote(At(ast.items, 1)), env, st)
        else if head == Text("quasiquoteexpand") then Done(Exec(Ok(Quasiquote(At(ast.items, 1))), st))
        else if head == Text("macroexpand") then Done(MacroExpand(fuel, At(ast.items, 1), env, st))
        else ApplyStep(fuel, ast, env, st)
  }

  /** `handleDef`: evaluate the third element, set it under the second, and answer what `get` reads back. */
  function EvalDef(fuel: nat, items: seq<Value>, env: nat, st: State): (r: Exec<Value>)
    ensures Kept(st, r.st, {env, Root})
    decreases fuel, 3
  {
    var (v, st1) :- EvalF(fuel, At(items, 2), env, st);
    var (st2, _) :- Exec(Define(st1, env, At(items, 1), v), st1);
    Exec(Lookup(st2, env, At(items, 1)), st2)
  }

  /** `handleDefMacro`: evaluate the third element, mark it, set it under the second, and answer what `get` reads back. */
  function EvalDefMacro(fuel: nat, items: seq<Value>, env: nat, st: State): (r: Exec<Value>)
    ensures Kept(st, r.st, {env, Root})
    decreases fuel, 3
  {
    var (m, st1) :- EvalF(fuel, At(items, 2), env, st);
    var (st2, _) :- Exec(MarkMacro(m, st1), st1);
    var (st3, _) :- Exec(Define(st2, env, At(items, 1), m), st2);
    Exec(Lookup(st3, env, At(items, 1)), st3)
  }

  /**
   * `handleLet`: bind the pairs in a fresh child frame; the next turn runs
   * the remaining forms as a `do` in that frame.
   */
  function LetStep(fuel: nat, items: seq<Value>, env: nat, st: State): (n: Next)
    ensures StepKept(st, n, env)
    ensures n.Continue? ==> n.env == |st.store| && n.ast == List([Sym("do")] + SliceFrom(items, 2))
    decreases fuel, 3
  {
    var bindings := At(items, 1);
    var (st1, env2) := NewFrame(st, env);
    match FieldOf(bindings)
    case Err(e) => Done(Exec(Err(e), st1))
    case Ok(pairs) =>
      match LengthBound(pairs)
      case Err(e) => Done(Exec(Err(e), st1))
      case Ok(len) =>
        var b := LetBinds(fuel, pairs, len, 0, env2, st1);
        if b.res.Err? then Done(Exec(Err(b.res.error), b.st))
        else Continue(List([Sym("do")] + SliceFrom(items, 2)), env2, b.st)
  }

  /** The loop of `handleLet` from `index` on: each value expression is evaluated in the child frame. */
  function LetBinds(fuel: nat, bindings: Value, len: nat, index: nat, env2: nat, st: State): (r: Exec<()>)
    ensures Kept(st, r.st, {env2, Root})
    decreases fuel, 1, len - index
  {
    if index >= len then Exec(Ok(()), st)
    else
      var (v, st1) :- EvalF(fuel, IndexOf(bindings, index + 1), env2, st);
      var (st2, _) :- Exec(Define(st1, env2, IndexOf(bindings, index), v), st1);
      LetBinds(fuel, bindings, len, index + 2, env2, st2)
  }

  /** `handleDo`: evaluate all forms after the head but the last; the next turn is the last form (`undefined` when there is none). */
  function DoStep(fuel: nat, items: seq<Value>, env: nat, st: State): (n: Next)
    ensures StepKept(st, n, env)
    ensures n.Continue? ==> n.env == env
    decreases fuel, 3
  {
    var lists := SliceFrom(items, 1);
    var e := EvalEach(fuel, if lists == [] then [] else lists[..|lists| - 1], env, st);
    if e.res.Err? then Done(Exec(Err(e.res.error), e.st))
    else Continue(if lists == [] then Undefined else lists[|lists| - 1], env, e.st)
  }

  /** The test of `handleIf`: the condition's `.value` must not be `false`, and the condition no MalNil. */
  function IfTest(cond: Value): (r: Result<bool>)
    ensures r.Err? <==> cond.Undefined? || cond.Null?
  {
    var f :- FieldOf(cond);
    Ok(f != Flag(false) && !cond.Nil?)
  }

  /** `ast.value[i] ?? new MalNil()`. */
  function OrNil(v: Value): (r: Value)
    ensures r.Nil? || r == v
  {
    if v.Undefined? || v.Null? then Nil else v
  }

  /**
   * `handleIf`: the next turn is the third element (MalNil when it is
   * missing) when the test passes, else the fourth element if there is one,
   * else MalNil.
   */
  function IfStep(fuel: nat, items: seq<Value>, env: nat, st: State): (n: Next)
    ensures StepKept(st, n, env)
    ensures n.Continue? ==> n.env == env
    decreases fuel, 3
  {
    var c := EvalF(fuel, At(items, 1), env, st);
    if c.res.Err? then Done(c)
    else match IfTest(c.res.value)
      case Err(e) => Done(Exec(Err(e), c.st))
      case Ok(pass) =>
        Continue(if pass then OrNil(At(items, 2)) else if !At(items, 3).Undefined? then At(items, 3) else Nil, env, c.st)
  }

  /** `handleFn`: a MalFunction whose body is the remaining forms as a `do`, with the parameter list and the current frame. */
  function FnValue(items: seq<Value>, env: nat, id: nat): (f: Value)
    ensures f.Fn? && f.id == id && f.env == env && f.binds == At(items, 1)
    ensures f.body == List([Sym("do")] + SliceFrom(items, 2))
  {
    Fn(id, List([Sym("do")] + SliceFrom(items, 2)), At(items, 1), env)
  }

  /**
   * The default branch: evaluate every element. A MalFunction at the head
   * continues with its body in a new frame whose outer frame is the one it
   * was made in; `new Env` takes no bindings, so the parameters are not set.
   * Anything else is applied to the rest.
   */
  function ApplyStep(fuel: nat, ast: Value, env: nat, st: State): (n: Next)
    requires ast.List?
    ensures StepKept(st, n, env)
    ensures n.Continue? ==> n.env >= |st.store|
    decreases fuel, 3
  {
    var e := EvalAst(fuel, ast, env, st);
    if e.res.Err? then Done(e)
    else
      var ys := if e.res.value.List? then e.res.value.items else [];
      var f := At(ys, 0);
      var args := SliceFrom(ys, 1);
      if f.Fn? then
        match FieldOf(f.binds)
        case Err(err) => Done(Exec(Err(err), e.st))
        case Ok(_) =>
          var (st2, env2) := NewFrame(e.st, f.env);
          Continue(f.body, env2, st2)
      else Done(CallPrim(fuel, f, args, e.st))
  }

  /** `fn.apply(null, args)` for a value that is not a MalFunction; `eval` evaluates its argument in the root frame. */
  function CallPrim(fuel: nat, f: Value, args: seq<Value>, st: State): (r: Exec<Value>)
    ensures Kept(st, r.st, {Root})
    ensures !f.Prim? ==> r == Exec(Err(NotCallable(f)), st)
    decreases fuel, 2
  {
    match f
    case Prim(EvalOp) => EvalF(fuel, At(args, 0), Root, st)
    case Prim(op) => Exec(ApplyOp(op, args), st)
    case _ => Exec(Err(NotCallable(f)), st)
  }

  /** The `while (true)` loop of `EVAL`, as the program runs it. */
  method EvalLoop(fuel: nat, ast: Value, env: nat, st: State) returns (r: Exec<Value>)
    ensures r == EvalF(fuel, ast, env, st)
  {
    var f, a, e, s := fuel, ast, env, st;
    while f > 0
      invariant EvalF(f, a, e, s) == EvalF(fuel, ast, env, st)
      decreases f
    {
      var n := Step(f - 1, a, e, s);
      if n.Done? {
        return n.r;
      }
      f, a, e, s := f - 1, n.ast, n.env, n.st;
    }
    return Exec(Err(OutOfFuel), s);
  }
}
