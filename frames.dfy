/**
 * The frames the evaluators create and update, kept in one store.
 *
 * Each `new Env(...)` of the steps appends a frame to the store and is
 * referred to by its position; a frame's `#outer` link is the position of an
 * earlier frame. Several frames (and closures) can share one outer frame, and
 * a write into a frame is seen through every chain that passes through it,
 * exactly as with the shared objects of env.js. Lookups in a frame follow
 * `FindIn`/`GetIn` of the Environment module over `ChainOf`.
 */
module Frames {
  import opened Types
  import opened Environment

  datatype Frame = Frame(data: Table, outer: Option<nat>)

  /** The tables seen from frame `ref`, innermost first. A link that does not point to an earlier frame ends the chain. */
  function ChainOf(store: seq<Frame>, ref: nat): (c: seq<Table>)
    ensures ref < |store| ==> |c| >= 1 && c[0] == store[ref].data
    ensures ref >= |store| ==> c == []
    decreases ref
  {
    if ref >= |store| then []
    else [store[ref].data] + match store[ref].outer
      case Some(o) => if o < ref then ChainOf(store, o) else []
      case None => []
  }

  /** Every link points to an earlier frame: what appending frames with existing outer frames yields. */
  ghost predicate WellFormed(store: seq<Frame>) {
    forall i :: 0 <= i < |store| && store[i].outer.Some? ==> store[i].outer.value < i
  }

  /**
   * The mutable state the evaluators thread: the frame store, the next
   * allocation id for function objects, and the objects whose `isMacro`
   * property has been set (MalFunctions by id, primitives by operation).
   */
  datatype State = State(store: seq<Frame>, nextId: nat, macros: set<nat>, macroOps: set<Op>)

  /** An outcome together with the state it leaves; a throw keeps the effects made before it. */
  datatype Exec<T> = Exec(res: Result<T>, st: State) {
    predicate IsFailure() { res.Err? }
    function PropagateFailure<U>(): Exec<U>
      requires res.Err?
    {
      Exec(Err(res.error), st)
    }
    function Extract(): (T, State)
      requires res.Ok?
    {
      (res.value, st)
    }
  }

  /**
   * From `st` to `st2` no frame disappeared or changed its outer link, and
   * only the frames in `writable` may hold a different table; allocation ids
   * and the `isMacro` marks only grow.
   */
  ghost predicate Kept(st: State, st2: State, writable: set<nat>) {
    && |st.store| <= |st2.store| && st.nextId <= st2.nextId
    && st.macros <= st2.macros && st.macroOps <= st2.macroOps
    && forall f :: 0 <= f < |st.store| ==>
         && st2.store[f].outer == st.store[f].outer
         && (f !in writable ==> st2.store[f].data == st.store[f].data)
  }

  /** `new Env(outer)`: a fresh, empty frame linked to `outer`. */
  function NewFrame(st: State, outer: nat): (r: (State, nat))
    ensures r.1 == |st.store| && r.0 == st.(store := st.store + [Frame(map[], Some(outer))])
    ensures Kept(st, r.0, {})
  {
    (st.(store := st.store + [Frame(map[], Some(outer))]), |st.store|)
  }

  /** `env.get(symbol)` in frame `env`. */
  function Lookup(st: State, env: nat, symbol: Value): Result<Value> {
    GetIn(ChainOf(st.store, env), symbol)
  }

  /**
   * `env.set(symbol, v)`: write into frame `env`'s table only. Every frame
   * the evaluators pass lies in the store; for a reference past its end,
   * which env.js has no counterpart for, the store is left as it is.
   */
  function Define(st: State, env: nat, symbol: Value, v: Value): (r: Result<State>)
    ensures r.Err? <==> KeyOf(symbol).Err?
    ensures r.Ok? ==> r.value.nextId == st.nextId && r.value.macros == st.macros && r.value.macroOps == st.macroOps
    ensures r.Ok? ==> |r.value.store| == |st.store|
    ensures r.Ok? ==> Kept(st, r.value, {env})
  {
    var key :- KeyOf(symbol);
    if env < |st.store| then
      var f := st.store[env];
      Ok(st.(store := st.store[env := Frame(f.data[key := v], f.outer)]))
    else Ok(st)
  }

  lemma {:induction false} ChainOfAppend(store: seq<Frame>, extra: seq<Frame>, ref: nat)
    requires ref < |store|
    ensures ChainOf(store + extra, ref) == ChainOf(store, ref)
    decreases ref
  {
    assert (store + extra)[ref] == store[ref];
    match store[ref].outer
    case Some(o) => if o < ref { ChainOfAppend(store, extra, o); }
    case None =>
  }

  lemma {:induction false} ChainOfUpdateBelow(store: seq<Frame>, env: nat, f: Frame, ref: nat)
    requires ref < env < |store|
    ensures ChainOf(store[env := f], ref) == ChainOf(store, ref)
    decreases ref
  {
    match store[ref].outer
    case Some(o) => if o < ref { ChainOfUpdateBelow(store, env, f, o); }
    case None =>
  }

  /** A new frame starts with an empty table in front of its outer frame's chain; no existing chain changes. */
  lemma NewFrameChain(st: State, outer: nat, ref: nat)
    requires outer < |st.store| && ref < |st.store|
    ensures ChainOf(NewFrame(st, outer).0.store, NewFrame(st, outer).1) == [map[]] + ChainOf(st.store, outer)
    ensures ChainOf(NewFrame(st, outer).0.store, ref) == ChainOf(st.store, ref)
  {
    var s2 := st.store + [Frame(map[], Some(outer))];
    ChainOfAppend(st.store, [Frame(map[], Some(outer))], outer);
    ChainOfAppend(st.store, [Frame(map[], Some(outer))], ref);
    assert s2[|st.store|] == Frame(map[], Some(outer));
  }

  /** Appending a frame whose outer frame exists keeps the store well formed, and so does any write. */
  lemma WellFormedPreserved(st: State, outer: nat, env: nat, symbol: Value, v: Value)
    requires WellFormed(st.store) && outer < |st.store|
    ensures WellFormed(NewFrame(st, outer).0.store)
    ensures Define(st, env, symbol, v).Ok? ==> WellFormed(Define(st, env, symbol, v).value.store)
  {
  }

  /**
   * `set` changes the innermost table of frame `env` and nothing else seen
   * from it: the rest of its chain is the chain it had.
   */
  lemma DefineChain(st: State, env: nat, name: string, v: Value)
    requires env < |st.store|
    ensures Define(st, env, Sym(name), v).Ok?
    ensures ChainOf(Define(st, env, Sym(name), v).value.store, env) ==
              [st.store[env].data[name := v]] + ChainOf(st.store, env)[1..]
  {
    var f := st.store[env];
    var f' := Frame(f.data[name := v], f.outer);
    match f.outer
    case Some(o) =>
      if o < env { ChainOfUpdateBelow(st.store, env, f', o); }
    case None =>
  }

  /** Frames created before frame `env` (its outer chain among them) answer exactly as before a `set` in it. */
  lemma DefineKeepsEarlier(st: State, env: nat, symbol: Value, v: Value, ref: nat)
    requires env < |st.store| && ref < env && Define(st, env, symbol, v).Ok?
    ensures ChainOf(Define(st, env, symbol, v).value.store, ref) == ChainOf(st.store, ref)
  {
    var f := st.store[env];
    var f' := Frame(f.data[KeyOf(symbol).value := v], f.outer);
    ChainOfUpdateBelow(st.store, env, f', ref);
  }

  /** After `set(k, v)` with a truthy `v`, `get(k)` in that frame returns `v`. */
  lemma DefineThenLookup(st: State, env: nat, name: string, v: Value)
    requires env < |st.store| && Truthy(v)
    ensures Define(st, env, Sym(name), v).Ok?
    ensures Lookup(Define(st, env, Sym(name), v).value, env, Sym(name)) == Ok(v)
  {
    var f := st.store[env];
    var s2 := st.store[env := Frame(f.data[name := v], f.outer)];
    assert ChainOf(s2, env)[0] == f.data[name := v];
    assert ChainOf(s2, env) == [f.data[name := v]] + ChainOf(s2, env)[1..];
    SetThenGet(f.data, ChainOf(s2, env)[1..], name, v);
  }

  /** After `set(k, v)` with a falsy `v`, `get(k)` in that frame answers as the outer frames do. */
  lemma DefineFalsyLookup(st: State, env: nat, name: string, v: Value)
    requires env < |st.store| && !Truthy(v)
    ensures Define(st, env, Sym(name), v).Ok?
    ensures Lookup(Define(st, env, Sym(name), v).value, env, Sym(name)) ==
              GetIn(ChainOf(st.store, env)[1..], Sym(name))
  {
    var f := st.store[env];
    var s2 := st.store[env := Frame(f.data[name := v], f.outer)];
    DefineChain(st, env, name, v);
    SetFalsyFallsThrough(f.data, ChainOf(st.store, env)[1..], name, v);
  }

  /** In a frame without an outer frame, `get` answers from that frame's own table alone. */
  lemma LookupOutermost(st: State, env: nat, name: string)
    requires env < |st.store| && st.store[env].outer.None?
    ensures var t := st.store[env].data;
            Lookup(st, env, Sym(name)) == if Holds(t, name) then Ok(t[name]) else Err(Thrown(name + " not found"))
  {
    assert ChainOf(st.store, env) == [st.store[env].data];
  }

  /** A new frame holds nothing yet: looking anything up in it answers as its outer frame does. */
  lemma NewFrameLookup(st: State, outer: nat, symbol: Value)
    requires outer < |st.store|
    ensures Lookup(NewFrame(st, outer).0, NewFrame(st, outer).1, symbol) == Lookup(st, outer, symbol)
  {
    NewFrameChain(st, outer, outer);
    EmptyFrameTransparent(ChainOf(st.store, outer), symbol);
  }

  /** `Kept` composes: frames written in either stretch may differ at the end. */
  lemma KeptTransitive(st1: State, st2: State, st3: State, w1: set<nat>, w2: set<nat>)
    requires Kept(st1, st2, w1) && Kept(st2, st3, w2)
    ensures Kept(st1, st3, w1 + w2)
  {
  }
}
