/**
 * The evaluator of impls/dlisp/step6_file.js: the tail-call loop.
 *
 * `EVAL` is a `while (true)` loop. `let*`, `do`, `if`, `fn*` and the call of a
 * MalFunction do not evaluate their last form themselves: they replace the
 * form (and, for `let*` and calls, the frame) and go round the loop again.
 * `Step` is one turn of the loop; `EvalF` runs turns until one is final,
 * spending one unit of fuel per turn and per nested evaluation.
 * `EvalLoop` is the loop itself.
 */
module Step6 {
  import opened Types
  import opened Frames
  import opened Core

  /** `process.argv.slice(2)`: the command-line arguments, as host strings. */
  function ArgvList(argv: seq<string>): (r: Value)
    ensures r.List? && |r.items| == |argv|
    ensures forall i :: 0 <= i < |argv| ==> r.items[i] == Text(argv[i])
  {
    List(seq(|argv|, i requires 0 <= i < |argv| => Text(argv[i])))
  }

  /**
   * The root frame: every primitive of core.js under its name, `eval`, and
   * `*ARGV*`. The start-up definition of `load-file` is not part of it (its
   * source holds string literals, which the reader rejects).
   */
  function RootState(argv: seq<string>): (st: State)
    ensures |st.store| == 1 && st.store[0].outer.None?
  {
    var data := map[
      "+" := Prim(Add), "-" := Prim(Sub), "*" := Prim(Mul), "/" := Prim(Div),
      "<" := Prim(Lt), ">" := Prim(Gt), "<=" := Prim(Le), ">=" := Prim(Ge),
      "=" := Prim(Equal), "list" := Prim(MakeList), "list?" := Prim(IsList),
      "empty?" := Prim(IsEmpty), "count" := Prim(Count), "not" := Prim(Not),
      "prn" := Prim(Prn), "pr-str" := Prim(PrStr), "println" := Prim(Println),
      "str" := Prim(StrOp), "eval" := Prim(EvalOp), "*ARGV*" := ArgvList(argv)];
    State([Frame(data, None)], 0, {}, {})
  }

  const Root: nat := 0

  /** The outcome of one turn of the loop: a final answer, or the form and frame of the next turn. */
  datatype Next = Done(r: Exec<Value>) | Continue(ast: Value, env: nat, st: State)

  /** What a turn in frame `env` may change: the tables of `env` and the root frame; the next frame is `env` or a new one. */
  ghost predicate StepKept(st: State, n: Next, env: nat) {
    match n
    case Done(r) => Kept(st, r.st, {env, Root})
    case Continue(_, env2, st2) => Kept(st, st2, {env, Root}) && (env2 == env || env2 >= |st.store|)
  }

  /** `EVAL(ast, env)`: turns of the loop until one answers. */
  function EvalF(fuel: nat, ast: Value, env: nat, st: State): (r: Exec<Value>)
    ensures Kept(st, r.st, {env, Root})
    decreases fuel, 0
  {
    if fuel == 0 then Exec(Err(OutOfFuel), st)
    else match Step(fuel - 1, ast, env, st)
      case Done(r) => r
      case Continue(ast2, env2, st2) => EvalF(fuel - 1, ast2, env2, st2)
  }

  /** `eval_ast`: a symbol is looked up; the elements of a list, vector or hash map are evaluated in order. */
  function EvalAst(fuel: nat, ast: Value, env: nat, st: State): (r: Exec<Value>)
    ensures Kept(st, r.st, {env, Root})
    decreases fuel, 2
  {
    match ast
    case Sym(_) => Exec(Lookup(st, env, ast), st)
    case List(xs) =>
      var (ys, st1) :- EvalEach(fuel, xs, env, st);
      Exec(Ok(List(ys)), st1)
    case Vector(xs) =>
      var (ys, st1) :- EvalEach(fuel, xs, env, st);
      Exec(Ok(Vector(ys)), st1)
    case HashMap(xs) =>
      var (ys, st1) :- EvalEach(fuel, xs, env, st);
      Exec(Ok(HashMap(ys)), st1)
    case _ => Exec(Ok(ast), st)
  }

  /** `xs.map(x => EVAL(x, env))`: left to right, stopping at the first throw. */
  function EvalEach(fuel: nat, xs: seq<Value>, env: nat, st: State): (r: Exec<seq<Value>>)
    ensures Kept(st, r.st, {env, Root})
    ensures r.res.Ok? ==> |r.res.value| == |xs|
    decreases fuel, 1, xs
  {
    if xs == [] then Exec(Ok([]), st)
    else
      var (y, st1) :- EvalF(fuel, xs[0], env, st);
      var (ys, st2) :- EvalEach(fuel, xs[1..], env, st1);
      Exec(Ok([y] + ys), st2)
  }

  /** One turn of the `while (true)` loop, chosen by the `.value` of the head. */
  function Step(fuel: nat, ast: Value, env: nat, st: State): (n: Next)
    ensures StepKept(st, n, env)
    decreases fuel, 4
  {
    if !ast.List? then Done(EvalAst(fuel, ast, env, st))
    else if ast.items == [] then Done(Exec(Ok(ast), st))
    else match FieldOf(ast.items[0])
      case Err(e) => Done(Exec(Err(e), st))
      case Ok(head) =>
        if head == Text("def!") then Done(EvalDef(fuel, ast.items, env, st))
        else if head == Text("let*") then LetStep(fuel, ast.items, env, st)
        else if head == Text("do") then DoStep(fuel, ast.items, env, st)
        else if head == Text("if") then IfStep(fuel, ast.items, env, st)
        else if head == Text("fn*") then Continue(FnValue(ast.items, env, st.nextId), env, st.(nextId := st.nextId + 1))
        else ApplyStep(fuel, ast, env, st)
  }

  /** `handleDef`: evaluate the third element, set it under the second, and answer what `get` reads back. */
  function EvalDef(fuel: nat, items: seq<Value>, env: nat, st: State): (r: Exec<Value>)
    ensures Kept(st, r.st, {env, Root})
    decreases fuel, 3
  {
    var (v, st1) :- EvalF(fuel, At(items, 2), env, st);
    var (st2, _) :- Exec(Define(st1, env, At(items, 1), v), st1);
    Exec(Lookup(st2, env, At(items, 1)), st2)
  }

  /**
   * `handleLet`: bind the pairs in a fresh child frame; the next turn runs
   * the remaining forms as a `do` in that frame.
   */
  function LetStep(fuel: nat, items: seq<Value>, env: nat, st: State): (n: Next)
    ensures StepKept(st, n, env)
    ensures n.Continue? ==> n.env == |st.store| && n.ast == List([Sym("do")] + SliceFrom(items, 2))
    decreases fuel, 3
  {
    var bindings := At(items, 1);
    var (st1, env2) := NewFrame(st, env);
    match FieldOf(bindings)
    case Err(e) => Done(Exec(Err(e), st1))
    case Ok(pairs) =>
      match LengthBound(pairs)
      case Err(e) => Done(Exec(Err(e), st1))
      case Ok(len) =>
        var b := LetBinds(fuel, pairs, len, 0, env2, st1);
        if b.res.Err? then Done(Exec(Err(b.res.error), b.st))
        else Continue(List([Sym("do")] + SliceFrom(items, 2)), env2, b.st)
  }

  /** The loop of `handleLet` from `index` on: each value expression is evaluated in the child frame. */
  function LetBinds(fuel: nat, bindings: Value, len: nat, index: nat, env2: nat, st: State): (r: Exec<()>)
    ensures Kept(st, r.st, {env2, Root})
    decreases fuel, 1, len - index
  {
    if index >= len then Exec(Ok(()), st)
    else
      var (v, st1) :- EvalF(fuel, IndexOf(bindings, index + 1), env2, st);
      var (st2, _) :- Exec(Define(st1, env2, IndexOf(bindings, index), v), st1);
      LetBinds(fuel, bindings, len, index + 2, env2, st2)
  }

  /** `handleDo`: evaluate all forms after the head but the last; the next turn is the last form (`undefined` when there is none). */
  function DoStep(fuel: nat, items: seq<Value>, env: nat, st: State): (n: Next)
    ensures StepKept(st, n, env)
    ensures n.Continue? ==> n.env == env
    decreases fuel, 3
  {
    var lists := SliceFrom(items, 1);
    var e := EvalEach(fuel, if lists == [] then [] else lists[..|lists| - 1], env, st);
    if e.res.Err? then Done(Exec(Err(e.res.error), e.st))
    else Continue(if lists == [] then Undefined else lists[|lists| - 1], env, e.st)
  }

  /** The test of `handleIf`: the condition's value must be loosely different from "nil" and from `false`. */
  function IfTest(cond: Value): (r: Result<bool>)
    ensures LooselyNil(cond) == Ok(true) ==> r == Ok(false)
  {
    var nil :- LooselyNil(cond);
    if nil then Ok(false)
    else
      var falsy :- LooselyFalse(cond);
      Ok(!falsy)
  }

  /** `handleIf`: the next turn is the third element when the test passes, else the fourth if it is truthy, else MalNil. */
  function IfStep(fuel: nat, items: seq<Value>, env: nat, st: State): (n: Next)
    ensures StepKept(st, n, env)
    ensures n.Continue? ==> n.env == env
    decreases fuel, 3
  {
    var c := EvalF(fuel, At(items, 1), env, st);
    if c.res.Err? then Done(c)
    else match IfTest(c.res.value)
      case Err(e) => Done(Exec(Err(e), c.st))
      case Ok(pass) =>
        Continue(if pass then At(items, 2) else if Truthy(At(items, 3)) then At(items, 3) else Nil, env, c.st)
  }

  /** `handleFn`: a MalFunction whose body is the remaining forms as a `do`, with the parameter list and the current frame. */
  function FnValue(items: seq<Value>, env: nat, id: nat): (f: Value)
    ensures f.Fn? && f.id == id && f.env == env && f.binds == At(items, 1)
    ensures f.body == List([Sym("do")] + SliceFrom(items, 2))
  {
    Fn(id, List([Sym("do")] + SliceFrom(items, 2)), At(items, 1), env)
  }

  /**
   * The default branch: evaluate every element. A MalFunction at the head
   * continues with its body in a new frame whose outer frame is the one it
   * was made in; `new Env` takes no bindings, so the parameters are not set.
   * Anything else is applied to the rest.
   */
  function ApplyStep(fuel: nat, ast: Value, env: nat, st: State): (n: Next)
    requires ast.List?
    ensures StepKept(st, n, env)
    ensures n.Continue? ==> n.env >= |st.store|
    decreases fuel, 3
  {
    var e := EvalAst(fuel, ast, env, st);
    if e.res.Err? then Done(e)
    else
      var ys := if e.res.value.List? then e.res.value.items else [];
      var f := At(ys, 0);
      var args := SliceFrom(ys, 1);
      if f.Fn? then
        match FieldOf(f.binds)
        case Err(err) => Done(Exec(Err(err), e.st))
        case Ok(_) =>
          var (st2, env2) := NewFrame(e.st, f.env);
          Continue(f.body, env2, st2)
      else Done(CallPrim(fuel, f, args, e.st))
  }

  /** `fn.apply(null, args)` for a value that is not a MalFunction; `eval` evaluates its argument in the root frame. */
  function CallPrim(fuel: nat, f: Value, args: seq<Value>, st: State): (r: Exec<Value>)
    ensures Kept(st, r.st, {Root})
    ensures !f.Prim? ==> r == Exec(Err(NotCallable(f)), st)
    decreases fuel, 2
  {
    match f
    case Prim(EvalOp) => EvalF(fuel, At(args, 0), Root, st)
    case Prim(op) => Exec(ApplyOp(op, args), st)
    case _ => Exec(Err(NotCallable(f)), st)
  }

  /** The `while (true)` loop of `EVAL`, as the program runs it. */
  method EvalLoop(fuel: nat, ast: Value, env: nat, st: State) returns (r: Exec<Value>)
    ensures r == EvalF(fuel, ast, env, st)
  {
    var f, a, e, s := fuel, ast, env, st;
    while f > 0
      invariant EvalF(f, a, e, s) == EvalF(fuel, ast, env, st)
      decreases f
    {
      var n := Step(f - 1, a, e, s);
      if n.Done? {
        return n.r;
      }
      f, a, e, s := f - 1, n.ast, n.env, n.st;
    }
    return Exec(Err(OutOfFuel), s);
  }

  // ---------------------------------------------------------------------------
  // Properties
  // ---------------------------------------------------------------------------

  /** A value that is not a list takes one turn: `eval_ast` answers it. */
  lemma EvalNonList(fuel: nat, ast: Value, env: nat, st: State)
    requires !ast.List?
    ensures EvalF(fuel + 1, ast, env, st) == EvalAst(fuel, ast, env, st)
  {
    assert Step(fuel, ast, env, st) == Done(EvalAst(fuel, ast, env, st));
  }

  /** A turn on a list headed by `if` goes to `handleIf`. */
  lemma IfDispatch(fuel: nat, items: seq<Value>, env: nat, st: State)
    requires items != [] && items[0] == Sym("if")
    ensures Step(fuel, List(items), env, st) == IfStep(fuel, items, env, st)
  {
    assert FieldOf(items[0]) == Ok(Text("if"));
  }

  /** A turn on a list headed by `do` goes to `handleDo`. */
  lemma DoDispatch(fuel: nat, items: seq<Value>, env: nat, st: State)
    requires items != [] && items[0] == Sym("do")
    ensures Step(fuel, List(items), env, st) == DoStep(fuel, items, env, st)
  {
    assert FieldOf(items[0]) == Ok(Text("do"));
  }

  /** A turn on a list headed by `let*` goes to `handleLet`. */
  lemma LetDispatch(fuel: nat, items: seq<Value>, env: nat, st: State)
    requires items != [] && items[0] == Sym("let*")
    ensures Step(fuel, List(items), env, st) == LetStep(fuel, items, env, st)
  {
    assert FieldOf(items[0]) == Ok(Text("let*"));
  }

  /** A turn on a list headed by `fn*` goes round again with a new MalFunction, taking a fresh id. */
  lemma FnDispatch(fuel: nat, items: seq<Value>, env: nat, st: State)
    requires items != [] && items[0] == Sym("fn*")
    ensures Step(fuel, List(items), env, st) == Continue(FnValue(items, env, st.nextId), env, st.(nextId := st.nextId + 1))
  {
    assert FieldOf(items[0]) == Ok(Text("fn*"));
  }

  /** A turn on a list headed by any other symbol is an application. */
  lemma ApplyDispatch(fuel: nat, items: seq<Value>, env: nat, st: State)
    requires items != [] && items[0].Sym? && items[0].name !in {"def!", "let*", "do", "if", "fn*"}
    ensures Step(fuel, List(items), env, st) == ApplyStep(fuel, List(items), env, st)
  {
    assert FieldOf(items[0]) == Ok(Text(items[0].name));
  }

  /**
   * The test of `if` compares the whole value loosely with "nil" and with
   * `false`: MalNil, MalBoolean `false`, the host's `false` and the number 0
   * fail it; `true`, every other number, `undefined`, `null` and every
   * MalString (rendered in quotes) pass.
   */
  lemma IfTestValues(b: bool, n: int, s: string)
    ensures IfTest(Nil) == Ok(false)
    ensures IfTest(Bool(b)) == Ok(b) && IfTest(Flag(b)) == Ok(b)
    ensures IfTest(Num(n)) == Ok(n != 0)
    ensures IfTest(Undefined) == Ok(true) && IfTest(Null) == Ok(true)
    ensures IfTest(Str(s)) == Ok(true)
  {
    var q := "\"" + s + "\"";
    assert q[0] == '"' && !NumericChar(q[0]) && !IsJsSpace(q[0]) && !IsJsSpace(q[|q| - 1]);
    assert Trim(q) == q;
    assert Show(Str(s)) == Ok(q);
    assert LooselyFalse(Str(s)) == StringIsZero(q);
  }

  /** `if` goes round the loop with the chosen branch, unevaluated, in the same frame. */
  lemma IfTail(fuel: nat, items: seq<Value>, env: nat, st: State, cond: Value, st1: State, pass: bool)
    requires items != [] && items[0] == Sym("if")
    requires EvalF(fuel, At(items, 1), env, st) == Exec(Ok(cond), st1) && IfTest(cond) == Ok(pass)
    ensures pass ==> EvalF(fuel + 1, List(items), env, st) == EvalF(fuel, At(items, 2), env, st1)
    ensures !pass && Truthy(At(items, 3)) ==> EvalF(fuel + 1, List(items), env, st) == EvalF(fuel, At(items, 3), env, st1)
    ensures !pass && !Truthy(At(items, 3)) ==> EvalF(fuel + 1, List(items), env, st) == EvalF(fuel, Nil, env, st1)
  {
    IfDispatch(fuel, items, env, st);
  }

  /** `do` evaluates all forms but the last, then goes round the loop with the last one in the same frame. */
  lemma DoTail(fuel: nat, items: seq<Value>, env: nat, st: State, vs: seq<Value>, st1: State)
    requires |items| >= 2 && items[0] == Sym("do")
    requires EvalEach(fuel, items[1..|items| - 1], env, st) == Exec(Ok(vs), st1)
    ensures EvalF(fuel + 1, List(items), env, st) == EvalF(fuel, items[|items| - 1], env, st1)
  {
    DoDispatch(fuel, items, env, st);
    var lists := SliceFrom(items, 1);
    assert lists[..|lists| - 1] == items[1..|items| - 1];
    assert lists[|lists| - 1] == items[|items| - 1];
  }

  /** `(let* () e1 ... en)` goes round the loop with `(do e1 ... en)` in a new child frame. */
  lemma LetTail(fuel: nat, body: seq<Value>, env: nat, st: State)
    ensures var (st1, env2) := NewFrame(st, env);
            EvalF(fuel + 1, List([Sym("let*"), List([])] + body), env, st) == EvalF(fuel, List([Sym("do")] + body), env2, st1)
  {
    var items := [Sym("let*"), List([])] + body;
    assert items[0] == Sym("let*") && At(items, 1) == List([]) && SliceFrom(items, 2) == body;
    LetDispatch(fuel, items, env, st);
    var (st1, env2) := NewFrame(st, env);
    assert FieldOf(List([])) == Ok(JsArray([]));
    assert LengthBound(JsArray([])) == Ok(0);
    assert LetBinds(fuel, JsArray([]), 0, 0, env2, st1) == Exec(Ok(()), st1);
    assert LetStep(fuel, items, env, st) == Continue(List([Sym("do")] + body), env2, st1);
  }

  /** `fn*` answers a MalFunction, with a fresh id, over the remaining forms as a `do`, the parameter list and the current frame. */
  lemma FnForm(fuel: nat, items: seq<Value>, env: nat, st: State)
    requires items != [] && items[0] == Sym("fn*")
    ensures EvalF(fuel + 2, List(items), env, st) ==
              Exec(Ok(Fn(st.nextId, List([Sym("do")] + SliceFrom(items, 2)), At(items, 1), env)), st.(nextId := st.nextId + 1))
  {
    FnDispatch(fuel + 1, items, env, st);
    EvalNonList(fuel, FnValue(items, env, st.nextId), env, st.(nextId := st.nextId + 1));
  }

  /**
   * Calling a MalFunction goes round the loop with its body in a new, empty
   * child of the frame it was made in: the arguments are dropped.
   */
  lemma CallDropsArguments(fuel: nat, ast: Value, env: nat, st: State, f: Value, args: seq<Value>, st1: State)
    requires ast.List? && f.Fn? && FieldOf(f.binds).Ok?
    requires EvalAst(fuel, ast, env, st) == Exec(Ok(List([f] + args)), st1)
    ensures var (st2, env2) := NewFrame(st1, f.env);
            && ApplyStep(fuel, ast, env, st) == Continue(f.body, env2, st2)
            && st2.store[env2].data == map[]
  {
    assert At([f] + args, 0) == f;
  }

  /** A list whose head is itself a list, and evaluates to a MalFunction, goes round the loop with that function's body. */
  lemma CallTail(fuel: nat, items: seq<Value>, env: nat, st: State, f: Value, args: seq<Value>, st1: State)
    requires items != [] && items[0].List? && f.Fn? && FieldOf(f.binds).Ok?
    requires EvalAst(fuel, List(items), env, st) == Exec(Ok(List([f] + args)), st1)
    ensures var (st2, env2) := NewFrame(st1, f.env);
            EvalF(fuel + 1, List(items), env, st) == EvalF(fuel, f.body, env2, st2)
  {
    assert FieldOf(items[0]) == Ok(JsArray(items[0].items));
    assert Step(fuel, List(items), env, st) == ApplyStep(fuel, List(items), env, st);
    CallDropsArguments(fuel, List(items), env, st, f, args, st1);
  }

  /** The one-parameter identity function `(fn* (p) p)`. */
  function IdentityForm(p: string): Value {
    List([Sym("fn*"), List([Sym(p)]), Sym(p)])
  }

  /**
   * `((fn* (p) p) n)` does not answer `n`: the body looks `p` up in a frame
   * where it was never set, so the answer is what the calling frame's chain
   * holds for `p`, or the throw "p not found".
   */
  lemma ParametersUnbound(fuel: nat, p: string, n: int, env: nat, st: State)
    requires env < |st.store|
    ensures EvalF(fuel + 3, List([IdentityForm(p), Num(n)]), env, st).res == Lookup(st, env, Sym(p))
  {
    IdentityArguments(fuel, p, n, env, st);
    ApplyIdentity(fuel, [IdentityForm(p), Num(n)], p, env, st, [Num(n)], st.(nextId := st.nextId + 1));
  }

  /** The elements of `((fn* (p) p) n)` evaluate to a fresh MalFunction with body `(do p)`, and `n`. */
  lemma IdentityArguments(fuel: nat, p: string, n: int, env: nat, st: State)
    ensures EvalAst(fuel + 2, List([IdentityForm(p), Num(n)]), env, st) ==
              Exec(Ok(List([Fn(st.nextId, List([Sym("do"), Sym(p)]), List([Sym(p)]), env)] + [Num(n)])), st.(nextId := st.nextId + 1))
  {
    IdentityValue(fuel, p, env, st);
    ArgumentsEvaluated(fuel, IdentityForm(p), Fn(st.nextId, List([Sym("do"), Sym(p)]), List([Sym(p)]), env), n, env, st, st.(nextId := st.nextId + 1));
  }

  /** A list whose elements evaluate to the identity MalFunction and its arguments answers the lookup of the parameter. */
  lemma ApplyIdentity(fuel: nat, app: seq<Value>, p: string, env: nat, st: State, args: seq<Value>, st1: State)
    requires env < |st.store| && app != [] && app[0].List? && st1.store == st.store
    requires EvalAst(fuel + 2, List(app), env, st) ==
               Exec(Ok(List([Fn(st.nextId, List([Sym("do"), Sym(p)]), List([Sym(p)]), env)] + args)), st1)
    ensures EvalF(fuel + 3, List(app), env, st).res == Lookup(st, env, Sym(p))
  {
    var f := Fn(st.nextId, List([Sym("do"), Sym(p)]), List([Sym(p)]), env);
    assert FieldOf(f.binds).Ok?;
    CallTail(fuel + 2, app, env, st, f, args, st1);
    BodyLooksUp(fuel, p, env, st1);
    assert Lookup(st1, env, Sym(p)) == Lookup(st, env, Sym(p));
  }

  /** `(fn* (p) p)` answers a MalFunction whose body is `(do p)`. */
  lemma IdentityValue(fuel: nat, p: string, env: nat, st: State)
    ensures EvalF(fuel + 2, IdentityForm(p), env, st) ==
              Exec(Ok(Fn(st.nextId, List([Sym("do"), Sym(p)]), List([Sym(p)]), env)), st.(nextId := st.nextId + 1))
  {
    var items := [Sym("fn*"), List([Sym(p)]), Sym(p)];
    assert SliceFrom(items, 2) == [Sym(p)] && At(items, 1) == List([Sym(p)]);
    assert [Sym("do")] + SliceFrom(items, 2) == [Sym("do"), Sym(p)];
    FnForm(fuel, items, env, st);
  }

  /** The elements of `(form n)` evaluate to the value of `form` and `n`. */
  lemma ArgumentsEvaluated(fuel: nat, form: Value, f: Value, n: int, env: nat, st: State, st1: State)
    requires EvalF(fuel + 2, form, env, st) == Exec(Ok(f), st1)
    ensures EvalAst(fuel + 2, List([form, Num(n)]), env, st) == Exec(Ok(List([f] + [Num(n)])), st1)
  {
    var app := [form, Num(n)];
    assert app[0] == form && app[1..] == [Num(n)];
    EvalNonList(fuel + 1, Num(n), env, st1);
    assert EvalEach(fuel + 2, [Num(n)][1..], env, st1) == Exec(Ok([]), st1);
    assert EvalEach(fuel + 2, [Num(n)], env, st1) == Exec(Ok([Num(n)] + []), st1);
    assert [Num(n)] + [] == [Num(n)];
  }

  /** The body `(do p)` of `(fn* (p) p)`, run in a new empty child of `env`, answers `env`'s lookup of `p`. */
  lemma BodyLooksUp(fuel: nat, p: string, env: nat, st: State)
    requires env < |st.store|
    ensures var (st2, env2) := NewFrame(st, env);
            EvalF(fuel + 2, List([Sym("do"), Sym(p)]), env2, st2).res == Lookup(st, env, Sym(p))
  {
    var (st2, env2) := NewFrame(st, env);
    var items := [Sym("do"), Sym(p)];
    assert items[1..|items| - 1] == [];
    DoTail(fuel + 1, items, env2, st2, [], st2);
    EvalNonList(fuel, Sym(p), env2, st2);
    NewFrameLookup(st, env, Sym(p));
  }

  /** `eval` evaluates its argument in the root frame, whatever frame it is called from. */
  lemma EvalUsesRoot(fuel: nat, x: Value, rest: seq<Value>, st: State)
    ensures CallPrim(fuel, Prim(EvalOp), [x] + rest, st) == EvalF(fuel, x, Root, st)
  {
    assert At([x] + rest, 0) == x;
  }

  /** The root frame holds `eval` and the command-line arguments under `*ARGV*`. */
  lemma RootBindings(argv: seq<string>)
    ensures Lookup(RootState(argv), Root, Sym("eval")) == Ok(Prim(EvalOp))
    ensures Lookup(RootState(argv), Root, Sym("*ARGV*")) == Ok(ArgvList(argv))
  {
    LookupOutermost(RootState(argv), Root, "eval");
    LookupOutermost(RootState(argv), Root, "*ARGV*");
  }
}
