/**
 * Environment frames of impls/dlisp/env.js.
 *
 * A frame is a JavaScript object used as a name -> value table, plus a
 * private link to its enclosing frame. `find` treats a name whose entry is
 * falsy (false, 0, undefined) as absent and keeps searching outward.
 *
 * The lookup rules are stated once, as functions over the chain of tables
 * seen from a frame (`FindIn`, `GetIn`); the class `Env` below and the
 * frame store the evaluators use are both proved against them.
 */
module Environment {
  import opened Types

  type Table = map<string, Value>

  /** The property key `data[symbol.value]` uses; reading `.value` of undefined or null throws. */
  function KeyOf(symbol: Value): (r: Result<string>)
    ensures symbol.Sym? ==> r == Ok(symbol.name)
    ensures symbol.Undefined? || symbol.Null? ==> r.Err?
  {
    var f :- FieldOf(symbol);
    JsToString(f)
  }

  /** `if (this.data[key])`: the table holds a truthy value for the key. */
  predicate Holds(t: Table, key: string) {
    key in t && Truthy(t[key])
  }

  /** The position of the nearest table, from the innermost outward, that holds the key. */
  function FindIn(chain: seq<Table>, key: string): (r: Option<nat>)
    ensures r.Some? ==> r.value < |chain| && Holds(chain[r.value], key)
    ensures r.Some? ==> forall j :: 0 <= j < r.value ==> !Holds(chain[j], key)
    ensures r.None? ==> forall j :: 0 <= j < |chain| ==> !Holds(chain[j], key)
  {
    if chain == [] then None
    else if Holds(chain[0], key) then Some(0)
    else match FindIn(chain[1..], key)
      case None => None
      case Some(i) => Some(i + 1)
  }

  /** `get`: the value in the frame `find` locates, or the thrown "<name> not found". */
  function GetIn(chain: seq<Table>, symbol: Value): (r: Result<Value>)
    ensures r.Ok? ==> Truthy(r.value)
    ensures KeyOf(symbol).Ok? && FindIn(chain, KeyOf(symbol).value).None? ==>
              r == Err(Thrown(KeyOf(symbol).value + " not found"))
  {
    var key :- KeyOf(symbol);
    match FindIn(chain, key)
    case None => Err(Thrown(key + " not found"))
    case Some(i) => Ok(chain[i][key])
  }

  /** After writing a truthy value into the innermost table, `get` returns it, whatever outer tables hold. */
  lemma SetThenGet(t: Table, rest: seq<Table>, name: string, v: Value)
    requires Truthy(v)
    ensures GetIn([t[name := v]] + rest, Sym(name)) == Ok(v)
  {
    assert Holds(([t[name := v]] + rest)[0], name);
  }

  /** Writing a falsy value makes the name invisible in that frame: `get` answers as the outer frames do. */
  lemma {:induction false} SetFalsyFallsThrough(t: Table, rest: seq<Table>, name: string, v: Value)
    requires !Truthy(v)
    ensures GetIn([t[name := v]] + rest, Sym(name)) == GetIn(rest, Sym(name))
  {
    var chain := [t[name := v]] + rest;
    assert !Holds(chain[0], name);
    assert chain[1..] == rest;
    match FindIn(rest, name)
    case None =>
    case Some(i) =>
      assert FindIn(chain, name) == Some(i + 1);
  }

  /** A write under another name changes nothing `get` can see for this one. */
  lemma SetOtherName(t: Table, rest: seq<Table>, name: string, other: string, v: Value)
    requires other != name
    ensures GetIn([t[other := v]] + rest, Sym(name)) == GetIn([t] + rest, Sym(name))
  {
    var c1, c2 := [t[other := v]] + rest, [t] + rest;
    assert c1[1..] == c2[1..] == rest;
    assert Holds(c1[0], name) == Holds(c2[0], name);
  }

  /** A frame with an empty table is transparent: `get` answers as its outer frames do. */
  lemma {:induction false} EmptyFrameTransparent(rest: seq<Table>, symbol: Value)
    ensures GetIn([map[]] + rest, symbol) == GetIn(rest, symbol)
  {
    var chain: seq<Table> := [map[]] + rest;
    assert chain[1..] == rest;
    match KeyOf(symbol)
    case Err(_) =>
    case Ok(key) =>
      assert !Holds(chain[0], key);
      match FindIn(rest, key)
      case None =>
      case Some(i) =>
        assert FindIn(chain, key) == Some(i + 1);
  }

  /**
   * One frame of env.js. `Frames` lists this frame and its enclosing frames
   * from the inside out; `Repr` is the set of them. Frames are only ever
   * linked to an existing frame when created, so the chain is finite and acyclic.
   */
  class Env {
    var data: Table
    var outer: Env?
    ghost var Frames: seq<Env>
    ghost var Repr: set<Env>

    ghost predicate Valid()
      reads this, Repr
      decreases Repr
    {
      && this in Repr
      && |Frames| >= 1 && Frames[0] == this
      && (outer == null ==> Frames == [this] && Repr == {this})
      && (outer != null ==>
            && outer in Repr && outer.Repr <= Repr && this !in outer.Repr
            && Frames == [this] + outer.Frames
            && Repr == {this} + outer.Repr
            && outer.Valid())
    }

    /** The tables of the chain, innermost first. */
    ghost function Chain(): (c: seq<Table>)
      reads this, Repr
      requires Valid()
      ensures |c| == |Frames| && c[0] == data
      decreases Repr
    {
      if outer == null then [data] else [data] + outer.Chain()
    }

    /** `new Env(outer)`: an empty table linked to `outer`. */
    constructor (outer: Env?)
      requires outer != null ==> outer.Valid()
      ensures Valid() && fresh(this)
      ensures this.outer == outer && data == map[]
      ensures Chain() == [map[]] + (if outer == null then [] else outer.Chain())
    {
      this.data := map[];
      this.outer := outer;
      if outer == null {
        Frames := [this];
        Repr := {this};
      } else {
        Frames := [this] + outer.Frames;
        Repr := {this} + outer.Repr;
      }
    }

    /**
     * `new Env(outer, binds, exprs)` as steps 6 and 8 write it: the
     * constructor declares only `outer`, so the parameter names and the
     * argument values are dropped and the new table is empty.
     */
    constructor WithBindings(outer: Env?, binds: Value, exprs: seq<Value>)
      requires outer != null ==> outer.Valid()
      ensures Valid() && fresh(this)
      ensures this.outer == outer && data == map[]
      ensures Chain() == [map[]] + (if outer == null then [] else outer.Chain())
    {
      this.data := map[];
      this.outer := outer;
      if outer == null {
        Frames := [this];
        Repr := {this};
      } else {
        Frames := [this] + outer.Frames;
        Repr := {this} + outer.Repr;
      }
    }

    /** `set(symbolKey, value)`: write into this frame's table only. */
    method Set(symbol: Value, v: Value) returns (r: Result<()>)
      requires Valid()
      modifies this`data
      ensures Valid()
      ensures r.Err? <==> KeyOf(symbol).Err?
      ensures r.Err? ==> r.error == KeyOf(symbol).error
      ensures r.Ok? ==> data == old(data)[KeyOf(symbol).value := v]
      ensures r.Err? ==> data == old(data)
      ensures Chain() == [data] + old(Chain())[1..]
    {
      var key := KeyOf(symbol);
      if key.Err? {
        return Err(key.error);
      }
      data := data[key.value := v];
      r := Ok(());
    }

    /** `find(symbol)`: the nearest frame whose table holds a truthy value for the name, or none. */
    method Find(symbol: Value) returns (r: Result<Env?>)
      requires Valid()
      ensures r.Err? <==> KeyOf(symbol).Err?
      ensures r.Err? ==> r.error == KeyOf(symbol).error
      ensures r.Ok? ==> (r.value == null <==> FindIn(Chain(), KeyOf(symbol).value).None?)
      ensures r.Ok? && r.value != null ==>
                var i := FindIn(Chain(), KeyOf(symbol).value).value;
                r.value == Frames[i] && r.value.Valid() && r.value.Chain() == Chain()[i..]
      decreases Repr
    {
      var key := KeyOf(symbol);
      if key.Err? {
        return Err(key.error);
      }
      if key.value in data && Truthy(data[key.value]) {
        return Ok(this);
      }
      if outer != null {
        r := outer.Find(symbol);
        assert Chain()[1..] == outer.Chain();
        return r;
      }
      return Ok(null);
    }

    /** `get(symbol)`: the value `find` locates, or the thrown "<name> not found". */
    method Get(symbol: Value) returns (r: Result<Value>)
      requires Valid()
      ensures r == GetIn(Chain(), symbol)
    {
      var found := Find(symbol);
      if found.Err? {
        return Err(found.error);
      }
      var env := found.value;
      var key := KeyOf(symbol).value;
      if env == null {
        return Err(Thrown(key + " not found"));
      }
      r := Ok(env.data[key]);
    }
  }
}
