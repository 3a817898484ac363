/**
 * Properties of the value classes of impls/dlisp/types.js: what their
 * constructors store, how they print, and what their `isEqual` methods answer.
 */
module TypeProperties {
  import opened Types

  /** Each constructor stores its argument unchanged as `.value`; a MalFunction's is its body, beside `binds` and `env`. */
  lemma ConstructorsStoreValue(s: string, xs: seq<Value>, b: bool, id: nat, body: Value, binds: Value, env: nat)
    ensures FieldOf(Sym(s)) == Ok(Text(s)) && FieldOf(Keyword(s)) == Ok(Text(s)) && FieldOf(Str(s)) == Ok(Text(s))
    ensures FieldOf(List(xs)) == Ok(JsArray(xs)) && FieldOf(Vector(xs)) == Ok(JsArray(xs))
    ensures FieldOf(HashMap(xs)) == Ok(JsArray(xs))
    ensures FieldOf(Bool(b)) == Ok(Flag(b))
    ensures FieldOf(Nil) == Ok(Null)
    ensures var f := Fn(id, body, binds, env); FieldOf(f) == Ok(body) && f.binds == binds && f.env == env
  {
  }

  /** `xs.map(x => x.toString())` succeeds exactly when every element prints, and keeps each rendering in place. */
  lemma {:induction false} ShowAllElementwise(xs: seq<Value>)
    ensures ShowAll(xs).Ok? <==> forall i :: 0 <= i < |xs| ==> Show(xs[i]).Ok?
    ensures ShowAll(xs).Ok? ==> forall i :: 0 <= i < |xs| ==> ShowAll(xs).value[i] == Show(xs[i]).value
  {
    if xs != [] {
      ShowAllElementwise(xs[1..]);
      assert forall i :: 1 <= i < |xs| ==> xs[i] == xs[1..][i - 1];
    }
  }

  /**
   * A MalList prints its elements' renderings joined by single spaces in
   * parentheses; a MalVector prints the same text in brackets.
   */
  lemma ListAndVectorShow(xs: seq<Value>)
    ensures Show(List(xs)).Ok? <==> forall i :: 0 <= i < |xs| ==> Show(xs[i]).Ok?
    ensures Show(List(xs)).Ok? <==> Show(Vector(xs)).Ok?
    ensures Show(List(xs)).Ok? ==>
              var s := Show(List(xs)).value;
              && |s| >= 2 && s[0] == '(' && s[|s| - 1] == ')'
              && Show(Vector(xs)) == Ok("[" + s[1..|s| - 1] + "]")
  {
    ShowAllElementwise(xs);
    if ShowAll(xs).Ok? {
      var inner := Join(ShowAll(xs).value, " ");
      var s := "(" + inner + ")";
      assert s[1..|s| - 1] == inner;
    }
  }

  /** Two elements print separated by one space. */
  lemma ShowPair(x: Value, y: Value)
    requires Show(x).Ok? && Show(y).Ok?
    ensures Show(List([x, y])) == Ok("(" + Show(x).value + " " + Show(y).value + ")")
  {
    assert [x, y][0] == x && [x, y][1..] == [y];
    assert [y][0] == y && [y][1..] == [];
    assert ShowAll([y]) == Ok([Show(y).value] + []);
    assert [Show(y).value] + [] == [Show(y).value];
    assert [Show(x).value] + [Show(y).value] == [Show(x).value, Show(y).value];
    assert ShowAll([x, y]) == Ok([Show(x).value, Show(y).value]);
    var parts := [Show(x).value, Show(y).value];
    assert parts[1..] == [Show(y).value];
    assert Join(parts, " ") == Show(x).value + " " + Show(y).value;
    assert Show(List([x, y])) == Ok("(" + Join(parts, " ") + ")");
    assert "(" + (Show(x).value + " " + Show(y).value) + ")" == "(" + Show(x).value + " " + Show(y).value + ")";
  }

  /** Fixed renderings: MalNil prints "nil" and a MalFunction "#<function>", whatever it holds; empty collections print their brackets. */
  lemma FixedRenderings(id: nat, body: Value, binds: Value, env: nat)
    ensures Show(Nil) == Ok("nil")
    ensures Show(Fn(id, body, binds, env)) == Ok("#<function>")
    ensures Show(List([])) == Ok("()") && Show(Vector([])) == Ok("[]") && Show(HashMap([])) == Ok("{}")
  {
    assert ShowAll([]) == Ok([]) && DisplayAll([], 0) == Ok([]);
    assert Join([], " ") == "";
    assert DropLastChar("") == "";
    assert "(" + "" + ")" == "()" && "[" + "" + "]" == "[]" && "{" + "" + "}" == "{}";
  }

  /**
   * `#displayObject` over the elements, counting from position `k`: the map
   * succeeds exactly when every element's rendering does, and keeps each
   * rendering in place. With `DisplayObject`'s contract this puts a comma
   * after every element at an odd position.
   */
  lemma {:induction false} HashMapParts(xs: seq<Value>, k: nat)
    ensures DisplayAll(xs, k).Ok? <==> forall i :: 0 <= i < |xs| ==> DisplayObject(xs[i], k + i).Ok?
    ensures DisplayAll(xs, k).Ok? ==>
              forall i :: 0 <= i < |xs| ==> DisplayAll(xs, k).value[i] == DisplayObject(xs[i], k + i).value
    decreases xs
  {
    if xs != [] {
      HashMapParts(xs[1..], k + 1);
      forall i | 1 <= i < |xs| ensures xs[i] == xs[1..][i - 1] && k + i == (k + 1) + (i - 1) {
      }
    }
  }

  /** A joined text is at least as long as its last part. */
  lemma {:induction false} JoinEndsWithLast(parts: seq<string>, sep: string)
    requires parts != []
    ensures |Join(parts, sep)| >= |parts[|parts| - 1]|
  {
    if |parts| > 1 {
      JoinEndsWithLast(parts[1..], sep);
    }
  }

  lemma DropLastOfAppend(a: string, b: string)
    requires b != ""
    ensures DropLastChar(a + b) == a + DropLastChar(b)
  {
    assert (a + b)[..|a + b| - 1] == a + b[..|b| - 1];
  }

  lemma JoinCons(parts: seq<string>, sep: string)
    requires |parts| > 1
    ensures Join(parts, sep) == parts[0] + sep + Join(parts[1..], sep)
  {
  }

  /** Dropping the last character of a joined text drops it from the last part, when that part has one. */
  lemma {:induction false} JoinDropLast(parts: seq<string>, sep: string)
    requires parts != [] && parts[|parts| - 1] != ""
    ensures DropLastChar(Join(parts, sep)) == Join(parts[..|parts| - 1] + [DropLastChar(parts[|parts| - 1])], sep)
    decreases |parts|
  {
    var n := |parts|;
    if n == 1 {
      assert parts[..0] + [DropLastChar(parts[0])] == [DropLastChar(parts[0])];
    } else {
      var tail := parts[1..];
      assert tail[|tail| - 1] == parts[n - 1];
      JoinDropLast(tail, sep);
      JoinDropLastStep(parts, sep);
    }
  }

  /** The step of `JoinDropLast`: the first part and separator stay in front. */
  lemma JoinDropLastStep(parts: seq<string>, sep: string)
    requires |parts| > 1 && parts[|parts| - 1] != ""
    requires var tail := parts[1..];
             DropLastChar(Join(tail, sep)) == Join(tail[..|tail| - 1] + [DropLastChar(tail[|tail| - 1])], sep)
    ensures DropLastChar(Join(parts, sep)) == Join(parts[..|parts| - 1] + [DropLastChar(parts[|parts| - 1])], sep)
  {
    var n, tail := |parts|, parts[1..];
    var last := DropLastChar(parts[n - 1]);
    ReplaceLastShape(parts, last);
    var shorter := parts[..n - 1] + [last];
    var joined := Join(tail, sep);
    JoinEndsWithLast(tail, sep);
    JoinCons(parts, sep);
    DropLastOfAppend(parts[0] + sep, joined);
    JoinCons(shorter, sep);
  }

  /** Replacing the last element keeps the head and replaces the tail's last element. */
  lemma ReplaceLastShape<T>(xs: seq<T>, last: T)
    requires |xs| > 1
    ensures var ys, tail := xs[..|xs| - 1] + [last], xs[1..];
            && ys[0] == xs[0] && ys[1..] == tail[..|tail| - 1] + [last]
            && tail[|tail| - 1] == xs[|xs| - 1]
  {
    var ys, tail := xs[..|xs| - 1] + [last], xs[1..];
    assert ys[1..] == tail[..|tail| - 1] + [last];
  }



  /**
   * A MalHashMap prints its element renderings joined by single spaces, with
   * the last character dropped, in braces. With an even number of elements
   * that character is the comma after the last element; with an odd number
   * it is the last character of the last element's own text.
   */
  lemma HashMapShow(xs: seq<Value>)
    ensures Show(HashMap(xs)).Ok? <==> DisplayAll(xs, 0).Ok?
    ensures Show(HashMap(xs)).Ok? && xs != [] && |xs| % 2 == 0 ==>
              var n, parts := |xs|, DisplayAll(xs, 0).value;
              && JsToString(xs[n - 1]).Ok?
              && Show(HashMap(xs)).value == "{" + Join(parts[..n - 1] + [JsToString(xs[n - 1]).value], " ") + "}"
    ensures Show(HashMap(xs)).Ok? && |xs| % 2 == 1 ==>
              var n, parts := |xs|, DisplayAll(xs, 0).value;
              && JoinPart(xs[n - 1]).Ok? && parts[n - 1] == JoinPart(xs[n - 1]).value
              && (parts[n - 1] != "" ==>
                    Show(HashMap(xs)).value == "{" + Join(parts[..n - 1] + [DropLastChar(parts[n - 1])], " ") + "}")
  {
    ShowHashMapUnfold(xs);
    if DisplayAll(xs, 0).Ok? && xs != [] {
      var parts := DisplayAll(xs, 0).value;
      LastPart(xs, parts);
      if |xs| % 2 == 0 {
        JoinDropComma(parts, JsToString(xs[|xs| - 1]).value);
      } else if parts[|xs| - 1] != "" {
        JoinDropLast(parts, " ");
      }
    }
  }

  /** The last rendering is the last element's `#displayObject`. */
  lemma LastPart(xs: seq<Value>, parts: seq<string>)
    requires xs != [] && DisplayAll(xs, 0) == Ok(parts)
    ensures DisplayObject(xs[|xs| - 1], |xs| - 1) == Ok(parts[|xs| - 1])
  {
    LastPartFrom(xs, 0);
  }

  lemma {:induction false} LastPartFrom(xs: seq<Value>, k: nat)
    requires xs != [] && DisplayAll(xs, k).Ok?
    ensures DisplayObject(xs[|xs| - 1], k + |xs| - 1) == Ok(DisplayAll(xs, k).value[|xs| - 1])
    decreases xs
  {
    if |xs| > 1 {
      LastPartFrom(xs[1..], k + 1);
      assert xs[1..][|xs[1..]| - 1] == xs[|xs| - 1];
    }
  }




  lemma ShowHashMapUnfold(xs: seq<Value>)
    ensures DisplayAll(xs, 0).Err? ==> Show(HashMap(xs)).Err?
    ensures DisplayAll(xs, 0).Ok? ==> Show(HashMap(xs)) == Ok("{" + DropLastChar(Join(DisplayAll(xs, 0).value, " ")) + "}")
  {
  }

  lemma JoinDropComma(parts: seq<string>, t: string)
    requires parts != [] && parts[|parts| - 1] == t + ","
    ensures DropLastChar(Join(parts, " ")) == Join(parts[..|parts| - 1] + [t], " ")
  {
    assert DropLastChar(t + ",") == t;
    JoinDropLast(parts, " ");
  }



  /** The renderings `#displayObject` gives four symbols: a comma after the second and the fourth. */
  lemma FourSymbolParts(a: string, b: string, c: string, d: string)
    ensures DisplayAll([Sym(a), Sym(b), Sym(c), Sym(d)], 0) == Ok([a, b + ",", c, d + ","])
  {
    assert [Sym(a), Sym(b), Sym(c), Sym(d)][1..] == [Sym(b), Sym(c), Sym(d)];
    assert [Sym(b), Sym(c), Sym(d)][1..] == [Sym(c), Sym(d)];
    assert [Sym(c), Sym(d)][1..] == [Sym(d)] && [Sym(d)][1..] == [];
    assert DisplayAll([], 4) == Ok([]);
    assert DisplayAll([Sym(d)], 3) == Ok([d + ","] + []);
    assert [d + ","] + [] == [d + ","];
    assert DisplayAll([Sym(c), Sym(d)], 2) == Ok([c] + [d + ","]);
    assert [c] + [d + ","] == [c, d + ","];
    assert DisplayAll([Sym(b), Sym(c), Sym(d)], 1) == Ok([b + ","] + [c, d + ","]);
    assert [b + ","] + [c, d + ","] == [b + ",", c, d + ","];
    assert [a] + [b + ",", c, d + ","] == [a, b + ",", c, d + ","];
  }

  /** Four parts joined by single spaces. */
  lemma JoinFour(p: string, q: string, r: string, s: string)
    ensures Join([p, q, r, s], " ") == p + " " + q + " " + r + " " + s
  {
    var parts := [p, q, r, s];
    assert parts[1..] == [q, r, s] && parts[1..][1..] == [r, s] && parts[1..][1..][1..] == [s];
    assert Join([r, s], " ") == r + " " + s;
    assert Join([q, r, s], " ") == q + " " + (r + " " + s);
  }

  /** The four-symbol map `{a b c d}` prints "{a b, c d}". */
  lemma HashMapFourSymbols(a: string, b: string, c: string, d: string)
    ensures Show(HashMap([Sym(a), Sym(b), Sym(c), Sym(d)])) == Ok("{" + a + " " + b + ", " + c + " " + d + "}")
  {
    FourSymbolParts(a, b, c, d);
    JoinFour(a, b + ",", c, d + ",");
    var body := a + " " + b + ", " + c + " " + d;
    var joined := a + " " + (b + ",") + " " + c + " " + (d + ",");
    assert joined == body + ",";
    assert DropLastChar(joined) == body;
    assert "{" + body + "}" == "{" + a + " " + b + ", " + c + " " + d + "}";
  }

  /**
   * The `isEqual` methods: MalKeyword and MalString answer true exactly for
   * an instance of the same class with the same `.value`; MalSymbol, MalList,
   * MalVector and MalBoolean never answer true; MalNil's throws.
   */
  lemma MethodIsEqualCases(self: Value, other: Value)
    requires self.IsMal()
    ensures self.Keyword? ==> MethodIsEqual(self, other) == Ok(other.Keyword? && other.name == self.name)
    ensures self.Str? ==> MethodIsEqual(self, other) == Ok(other.Str? && other.text == self.text)
    ensures self.Sym? || self.List? || self.Vector? || self.Bool? ==> MethodIsEqual(self, other) == Ok(false)
    ensures self.Nil? ==> MethodIsEqual(self, other).Err?
    ensures self == other && self.HashMap? ==> MethodIsEqual(self, other).Err?
  {
  }
}
