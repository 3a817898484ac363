/**
 * The quasiquote rewrite of impls/dlisp/step8_macros.js (`quasiquote` and
 * `handleMalSequence`).
 *
 * As written, both functions rely on names types.js does not define: the
 * class `MalSequence` (not exported, so the destructured binding is
 * `undefined`) and the method `MalList.beginsWith`. Every call of
 * `quasiquote` therefore throws a TypeError; `QuasiquoteAsWritten` is that
 * behaviour. `Quasiquote` is the rewrite the code evidently intends, with
 * `MalSequence` standing for lists and vectors and `beginsWith(name)` for
 * "the first element is the symbol `name`"; the evaluator of step 8 uses it.
 *
 * `RewriteEval` and `Meaning` give the rewrite a yardstick: evaluating the
 * `cons`/`concat`/`vec`/`quote` forms it produces rebuilds the quoted
 * structure with the unquoted parts evaluated and the spliced parts spliced.
 */
module QuasiquoteForms {
  import opened Types

  /** `list.beginsWith(name)`, as the code intends it: the first element is the symbol `name`. */
  predicate BeginsWith(items: seq<Value>, name: string) {
    |items| > 0 && items[0] == Sym(name)
  }

  /**
   * `quasiquote(ast)` as written: on a MalList the call `ast.beginsWith`
   * finds no such method; on anything else `ast instanceof MalSequence`
   * has `undefined` on its right-hand side.
   */
  function QuasiquoteAsWritten(ast: Value): (r: Result<Value>)
    ensures r.Err? && r.error.TypeError?
  {
    if ast.List? then Err(TypeError("ast.beginsWith is not a function"))
    else Err(TypeError("Right-hand side of 'instanceof' is not callable"))
  }

  /**
   * The intended `quasiquote(ast)`: `(unquote x)` gives `x`; a list gives the
   * rewrite of its elements, a vector that rewrite under `vec`; a symbol is
   * quoted; anything else is its own rewrite.
   */
  function Quasiquote(ast: Value): (r: Value)
    decreases ast, 1
  {
    if ast.List? && BeginsWith(ast.items, "unquote") then At(ast.items, 1)
    else if ast.List? then SeqRewrite(ast.items)
    else if ast.Vector? then List([Sym("vec"), SeqRewrite(ast.items)])
    else if ast.Sym? then List([Sym("quote"), ast])
    else ast
  }

  /**
   * The intended `handleMalSequence` on the elements `xs`, as a right fold:
   * the last element is wrapped first around the empty list; a
   * `(splice-unquote e)` element becomes `(concat e acc)`, any other element
   * `el` becomes `(cons <rewrite of el> acc)`.
   */
  function SeqRewrite(xs: seq<Value>): (r: Value)
    ensures r.List?
    decreases xs, 0
  {
    if xs == [] then List([])
    else if xs[0].List? && BeginsWith(xs[0].items, "splice-unquote") then
      List([Sym("concat"), At(xs[0].items, 1), SeqRewrite(xs[1..])])
    else List([Sym("cons"), Quasiquote(xs[0]), SeqRewrite(xs[1..])])
  }

  /** The `for` loop of `handleMalSequence`, from the last element down to the first. */
  method HandleMalSequence(items: seq<Value>) returns (result: Value)
    ensures result == SeqRewrite(items)
  {
    result := List([]);
    var index := |items|;
    while index > 0
      invariant 0 <= index <= |items|
      invariant result == SeqRewrite(items[index..])
    {
      index := index - 1;
      var element := items[index];
      assert items[index..][1..] == items[index + 1..];
      if element.List? && BeginsWith(element.items, "splice-unquote") {
        result := List([Sym("concat"), At(element.items, 1), result]);
      } else {
        result := List([Sym("cons"), Quasiquote(element), result]);
      }
    }
    assert items[0..] == items;
  }

  // ---------------------------------------------------------------------------
  // What the rewrite means
  // ---------------------------------------------------------------------------

  /** The elements of a list or vector; nothing for any other value. */
  function Elems(v: Value): (r: seq<Value>)
    ensures v.List? || v.Vector? ==> r == v.items
  {
    if v.List? || v.Vector? then v.items else []
  }

  /**
   * Evaluation of the forms the rewrite produces, as the mal language defines
   * `quote`, `cons`, `concat` and `vec`; the empty list is its own value, and
   * every other form is evaluated by `leaf`.
   */
  function RewriteEval(leaf: Value -> Value, f: Value): (r: Value)
    decreases f
  {
    if f.List? && f.items == [] then f
    else if f.List? && |f.items| == 2 && f.items[0] == Sym("quote") then f.items[1]
    else if f.List? && |f.items| == 2 && f.items[0] == Sym("vec") then
      Vector(Elems(RewriteEval(leaf, f.items[1])))
    else if f.List? && |f.items| == 3 && f.items[0] == Sym("cons") then
      List([RewriteEval(leaf, f.items[1])] + Elems(RewriteEval(leaf, f.items[2])))
    else if f.List? && |f.items| == 3 && f.items[0] == Sym("concat") then
      List(Elems(RewriteEval(leaf, f.items[1])) + Elems(RewriteEval(leaf, f.items[2])))
    else leaf(f)
  }

  /**
   * What a quasiquoted form stands for: its own structure, with every
   * `(unquote x)` replaced by the value of `x` and the elements of every
   * `(splice-unquote x)` spliced in place; symbols stand for themselves.
   */
  function Meaning(leaf: Value -> Value, ast: Value): (r: Value)
    decreases ast, 1
  {
    if ast.List? && BeginsWith(ast.items, "unquote") then RewriteEval(leaf, At(ast.items, 1))
    else if ast.List? then List(MeaningAll(leaf, ast.items))
    else if ast.Vector? then Vector(MeaningAll(leaf, ast.items))
    else if ast.Sym? then ast
    else RewriteEval(leaf, ast)
  }

  /** `Meaning` over the elements of a list or vector, splicing where asked. */
  function MeaningAll(leaf: Value -> Value, xs: seq<Value>): (r: seq<Value>)
    decreases xs, 0
  {
    if xs == [] then []
    else if xs[0].List? && BeginsWith(xs[0].items, "splice-unquote") then
      Elems(RewriteEval(leaf, At(xs[0].items, 1))) + MeaningAll(leaf, xs[1..])
    else [Meaning(leaf, xs[0])] + MeaningAll(leaf, xs[1..])
  }

  // ---------------------------------------------------------------------------
  // Properties
  // ---------------------------------------------------------------------------

  /** The direct cases: `(unquote x)` gives `x`, a symbol is quoted, any other non-sequence is kept. */
  lemma QuasiquoteDirect(ast: Value)
    ensures ast.List? && BeginsWith(ast.items, "unquote") ==> Quasiquote(ast) == At(ast.items, 1)
    ensures ast.Sym? ==> Quasiquote(ast) == List([Sym("quote"), ast])
    ensures !ast.List? && !ast.Vector? && !ast.Sym? ==> Quasiquote(ast) == ast
    ensures ast.Vector? ==> Quasiquote(ast) == List([Sym("vec"), SeqRewrite(ast.items)])
  {
  }

  /**
   * Evaluating the rewrite of a quasiquoted form gives what the form stands
   * for, whatever the unquoted forms evaluate to.
   */
  lemma {:induction false} QuasiquoteMeaning(leaf: Value -> Value, ast: Value)
    ensures RewriteEval(leaf, Quasiquote(ast)) == Meaning(leaf, ast)
    decreases ast, 1
  {
    if ast.List? && BeginsWith(ast.items, "unquote") {
    } else if ast.List? {
      SeqRewriteMeaning(leaf, ast.items);
    } else if ast.Vector? {
      var q := List([Sym("vec"), SeqRewrite(ast.items)]);
      assert |q.items| == 2 && q.items[0] == Sym("vec");
      SeqRewriteMeaning(leaf, ast.items);
    } else if ast.Sym? {
      var q := List([Sym("quote"), ast]);
      assert |q.items| == 2 && q.items[0] == Sym("quote");
    }
  }

  /** Evaluating the rewrite of a sequence's elements gives the list of what they stand for. */
  lemma {:induction false} SeqRewriteMeaning(leaf: Value -> Value, xs: seq<Value>)
    ensures RewriteEval(leaf, SeqRewrite(xs)) == List(MeaningAll(leaf, xs))
    decreases xs, 0
  {
    if xs == [] {
    } else if xs[0].List? && BeginsWith(xs[0].items, "splice-unquote") {
      var f := List([Sym("concat"), At(xs[0].items, 1), SeqRewrite(xs[1..])]);
      assert |f.items| == 3 && f.items[0] == Sym("concat") && f.items[0] != Sym("cons");
      SeqRewriteMeaning(leaf, xs[1..]);
    } else {
      var f := List([Sym("cons"), Quasiquote(xs[0]), SeqRewrite(xs[1..])]);
      assert |f.items| == 3 && f.items[0] == Sym("cons");
      QuasiquoteMeaning(leaf, xs[0]);
      SeqRewriteMeaning(leaf, xs[1..]);
    }
  }

  /** A form built from symbols, lists and vectors alone, with no `unquote` or `splice-unquote` in it. */
  predicate Plain(ast: Value)
    decreases ast, 1
  {
    match ast
    case Sym(_) => true
    case List(xs) => !BeginsWith(xs, "unquote") && PlainAll(xs)
    case Vector(xs) => PlainAll(xs)
    case _ => false
  }

  /** Every element is plain and none is a `(splice-unquote ...)` form. */
  predicate PlainAll(xs: seq<Value>)
    decreases xs, 0
  {
    xs != [] ==> Plain(xs[0]) && !(xs[0].List? && BeginsWith(xs[0].items, "splice-unquote")) && PlainAll(xs[1..])
  }

  /** Without unquoting, a quasiquoted form stands for itself, as a quoted one does. */
  lemma {:induction false} PlainMeaning(leaf: Value -> Value, ast: Value)
    requires Plain(ast)
    ensures Meaning(leaf, ast) == ast
    decreases ast, 1
  {
    match ast
    case Sym(_) =>
    case List(xs) => PlainMeaningAll(leaf, xs);
    case Vector(xs) => PlainMeaningAll(leaf, xs);
  }

  /** `MeaningAll` keeps plain elements as they are. */
  lemma {:induction false} PlainMeaningAll(leaf: Value -> Value, xs: seq<Value>)
    requires PlainAll(xs)
    ensures MeaningAll(leaf, xs) == xs
    decreases xs, 0
  {
    if xs != [] {
      PlainMeaning(leaf, xs[0]);
      PlainMeaningAll(leaf, xs[1..]);
      assert [xs[0]] + xs[1..] == xs;
    }
  }

  /**
   * The defect: `(quasiquoteexpand a)` throws as written, where the intended
   * rewrite answers `(quote a)`.
   */
  lemma QuasiquoteFinding(s: string)
    ensures QuasiquoteAsWritten(Sym(s)) == Err(TypeError("Right-hand side of 'instanceof' is not callable"))
    ensures QuasiquoteAsWritten(List([Sym("unquote"), Sym(s)])) == Err(TypeError("ast.beginsWith is not a function"))
    ensures Quasiquote(Sym(s)) == List([Sym("quote"), Sym(s)])
    ensures Quasiquote(List([Sym("unquote"), Sym(s)])) == Sym(s)
  {
  }
}
