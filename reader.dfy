/**
 * The reader of impls/dlisp/reader.js: a tokenizer and a recursive-descent
 * parser over the token array with a moving cursor.
 *
 * The tokenizer is a scanner that matches the token pattern of reader.js
 * (separators `[\s,]*`, then the first alternative that applies: `~@`, one
 * special character, a string literal, a comment, or a run of plain
 * characters). The parser is stated twice: as the functions `ParseForm` and
 * `ParseSeq` over a token sequence and a position, and as the methods over a
 * `Reader` object that reader.js runs, which are proved to agree with them.
 */
module Reader {
  import opened Types

  // ---------------------------------------------------------------------------
  // Character classes
  // ---------------------------------------------------------------------------

  /** The separators skipped before each token: white space and commas. */
  predicate IsSeparator(c: char) {
    IsJsSpace(c) || c == ','
  }

  /** The characters a regular-expression `.` does not match. */
  predicate IsLineTerminator(c: char) {
    c == '\n' || c == '\r' || c == '\U{2028}' || c == '\U{2029}'
  }

  /** The characters that form a token on their own. */
  predicate IsSpecial(c: char) {
    || c == '[' || c == ']' || c == '{' || c == '}' || c == '(' || c == ')'
    || c == '\'' || c == '`' || c == '~' || c == '^' || c == '@'
  }

  /** The characters a plain token (symbol, number, keyword) is made of. */
  predicate IsPlainChar(c: char) {
    && !IsJsSpace(c)
    && c != '[' && c != ']' && c != '{' && c != '}' && c != '(' && c != ')'
    && c != '\'' && c != '"' && c != '`' && c != ',' && c != ';'
  }

  // ---------------------------------------------------------------------------
  // Tokenizer
  // ---------------------------------------------------------------------------

  /** The end of the run of separators that starts at `i`. */
  function SeparatorsEnd(s: string, i: nat): (k: nat)
    requires i <= |s|
    ensures i <= k <= |s|
    ensures k < |s| ==> !IsSeparator(s[k])
    decreases |s| - i
  {
    if i < |s| && IsSeparator(s[i]) then SeparatorsEnd(s, i + 1) else i
  }

  /** The end of the run of plain characters that starts at `i`. */
  function PlainEnd(s: string, i: nat): (k: nat)
    requires i <= |s|
    ensures i <= k <= |s|
    decreases |s| - i
  {
    if i < |s| && IsPlainChar(s[i]) then PlainEnd(s, i + 1) else i
  }

  /**
   * The end of a string literal whose body starts at `i`: escapes `\x` (x not
   * a line terminator) and characters other than `\` and `"`, then an
   * optional closing quote.
   */
  function StringEnd(s: string, i: nat): (k: nat)
    requires i <= |s|
    ensures i <= k <= |s|
    decreases |s| - i
  {
    if i + 1 < |s| && s[i] == '\\' && !IsLineTerminator(s[i + 1]) then StringEnd(s, i + 2)
    else if i < |s| && s[i] != '\\' && s[i] != '"' then StringEnd(s, i + 1)
    else if i < |s| && s[i] == '"' then i + 1
    else i
  }

  /** The end of a comment body that starts at `i`: everything up to the next line terminator. */
  function CommentEnd(s: string, i: nat): (k: nat)
    requires i <= |s|
    ensures i <= k <= |s|
    decreases |s| - i
  {
    if i < |s| && !IsLineTerminator(s[i]) then CommentEnd(s, i + 1) else i
  }

  /** The end of the token that starts at `i`, by the first alternative that applies. */
  function TokenEnd(s: string, i: nat): (k: nat)
    requires i <= |s|
    ensures i <= k <= |s|
    ensures i < |s| && !IsSeparator(s[i]) ==> k > i
  {
    if i == |s| then i
    else if i + 1 < |s| && s[i] == '~' && s[i + 1] == '@' then i + 2
    else if IsSpecial(s[i]) then i + 1
    else if s[i] == '"' then StringEnd(s, i + 1)
    else if s[i] == ';' then CommentEnd(s, i + 1)
    else PlainEnd(s, i)
  }

  /**
   * Every match of the token pattern from position `i` on, as `matchAll`
   * yields them: separators are skipped, the token after them is the match;
   * after a non-empty match the search resumes where it ended, and the empty
   * match at the end of the input is the last one.
   */
  function ScanFrom(s: string, i: nat): (r: seq<string>)
    requires i <= |s|
    ensures |r| >= 1 && r[|r| - 1] == ""
    decreases |s| - i
  {
    var j := SeparatorsEnd(s, i);
    var k := TokenEnd(s, j);
    if k == i then [""] else [s[j..k]] + ScanFrom(s, k)
  }

  function Scan(s: string): (r: seq<string>)
    ensures |r| >= 1
  {
    ScanFrom(s, 0)
  }

  predicate IsComment(t: string) {
    |t| > 0 && t[0] == ';'
  }

  /** `filter(token => !token.startsWith(';'))`. */
  function DropComments(ts: seq<string>): (r: seq<string>)
    ensures forall i :: 0 <= i < |r| ==> !IsComment(r[i])
  {
    if ts == [] then []
    else if IsComment(ts[0]) then DropComments(ts[1..])
    else [ts[0]] + DropComments(ts[1..])
  }

  /** `tokenize`: the matched tokens without the final empty match and without comments. */
  function Tokenize(s: string): seq<string> {
    var all := Scan(s);
    DropComments(all[..|all| - 1])
  }

  // ---------------------------------------------------------------------------
  // Atoms
  // ---------------------------------------------------------------------------

  predicate AllDigits(s: string) {
    forall i :: 0 <= i < |s| ==> '0' <= s[i] <= '9'
  }

  /** A token that matches `^-?[0-9]+$`. */
  predicate IsIntToken(t: string) {
    if |t| > 0 && t[0] == '-' then |t| > 1 && AllDigits(t[1..]) else |t| > 0 && AllDigits(t)
  }

  /** The decimal value of a digit string. */
  function DigitsValue(s: string): nat
    requires AllDigits(s)
  {
    if s == "" then 0 else DigitsValue(s[..|s| - 1]) * 10 + (s[|s| - 1] as int - '0' as int)
  }

  /** `parseInt` of an integer token. */
  function ParseInteger(t: string): int
    requires IsIntToken(t)
  {
    if t[0] == '-' then -(DigitsValue(t[1..]) as int) else DigitsValue(t)
  }

  /**
   * `read_atom` on the token `next()` returned (None past the end). The
   * string-literal case calls `createMalString`, which types.js does not
   * export, so it throws.
   */
  function Atom(token: Option<string>): (r: Result<Value>)
    ensures token.None? ==> r.Err?
    ensures token.Some? && IsIntToken(token.value) ==> r == Ok(Num(ParseInteger(token.value)))
    ensures token.Some? && |token.value| > 0 && token.value[0] == ':' ==> r == Ok(Keyword(token.value))
    ensures token == Some("true") ==> r == Ok(Bool(true))
    ensures token == Some("false") ==> r == Ok(Bool(false))
    ensures token == Some("nil") ==> r == Ok(Nil)
    ensures token.Some? && |token.value| > 0 && token.value[0] == '"' && token.value[|token.value| - 1] == '"' ==> r.Err?
  {
    match token
    case None => Err(TypeError("Cannot read properties of undefined (reading 'match')"))
    case Some(t) =>
      if IsIntToken(t) then Ok(Num(ParseInteger(t)))
      else if t == "true" then Ok(Bool(true))
      else if t == "false" then Ok(Bool(false))
      else if t == "nil" then Ok(Nil)
      else if |t| > 0 && t[0] == '@' then Ok(List([Sym("deref"), Sym(t[1..])]))
      else if |t| > 0 && t[0] == '"' && t[|t| - 1] == '"' then Err(TypeError("createMalString is not a function"))
      else if |t| > 0 && t[0] == ':' then Ok(Keyword(t))
      else Ok(Sym(t))
  }

  // ---------------------------------------------------------------------------
  // Forms, as functions of the token sequence and a position
  // ---------------------------------------------------------------------------

  /** The symbol a reader-macro token stands for, if it is one. */
  function PrefixName(t: string): Option<string> {
    if t == "@" then Some("deref")
    else if t == "'" then Some("quote")
    else if t == "`" then Some("quasiquote")
    else if t == "~" then Some("unquote")
    else if t == "~@" then Some("splice-unquote")
    else None
  }

  /** The closing delimiter of an opening one. */
  function Closer(t: string): Option<string> {
    if t == "(" then Some(")") else if t == "[" then Some("]") else if t == "{" then Some("}") else None
  }

  /** The collection a delimited sequence builds. */
  function Collection(open: string, xs: seq<Value>): Value {
    if open == "(" then List(xs) else if open == "[" then Vector(xs) else HashMap(xs)
  }

  /** `read_form` at position `pos`: the form read and the position after it. */
  function ParseForm(toks: seq<string>, pos: nat): (r: Result<(Value, nat)>)
    requires pos <= |toks|
    ensures r.Ok? ==> pos < r.value.1 <= |toks|
    decreases |toks| - pos, 0
  {
    if pos == |toks| then Err(Atom(None).error)
    else
      var t := toks[pos];
      match Closer(t)
      case Some(close) =>
        var (xs, next) :- ParseSeq(toks, pos + 1, close, []);
        Ok((Collection(t, xs), next))
      case None =>
        match PrefixName(t)
        case Some(name) =>
          var (v, next) :- ParseForm(toks, pos + 1);
          Ok((List([Sym(name), v]), next))
        case None =>
          var v :- Atom(Some(t));
          Ok((v, pos + 1))
  }

  /**
   * The loop of `read_seq` from position `pos`, with the forms `acc` read so
   * far: forms are read until the closing token, which is consumed; running
   * out of tokens throws "unbalanced".
   */
  function ParseSeq(toks: seq<string>, pos: nat, close: string, acc: seq<Value>): (r: Result<(seq<Value>, nat)>)
    requires pos <= |toks|
    ensures r.Ok? ==> pos < r.value.1 <= |toks|
    decreases |toks| - pos, 1
  {
    if pos < |toks| && toks[pos] == close then Ok((acc, pos + 1))
    else if pos == |toks| then Err(Thrown("unbalanced"))
    else
      var (v, next) :- ParseForm(toks, pos);
      ParseSeq(toks, next, close, acc + [v])
  }

  /** `read_str`: the first form of the input; tokens after it are not looked at. */
  function Read(s: string): Result<Value> {
    var (v, _) :- ParseForm(Tokenize(s), 0);
    Ok(v)
  }

  // ---------------------------------------------------------------------------
  // The Reader object and the reading functions of reader.js
  // ---------------------------------------------------------------------------

  class Reader {
    var tokens: seq<string>
    var position: nat

    constructor (tokens: seq<string>)
      ensures this.tokens == tokens && position == 0
    {
      this.tokens := tokens;
      position := 0;
    }

    /** `peek`: the token under the cursor, None past the end; the cursor does not move. */
    method Peek() returns (t: Option<string>)
      ensures t.Some? <==> position < |tokens|
      ensures t.Some? ==> t.value == tokens[position]
    {
      if position < |tokens| {
        t := Some(tokens[position]);
      } else {
        t := None;
      }
    }

    /** `next`: the token under the cursor, and the cursor advances by exactly one. */
    method Next() returns (t: Option<string>)
      modifies this`position
      ensures position == old(position) + 1
      ensures t.Some? <==> old(position) < |tokens|
      ensures t.Some? ==> t.value == tokens[old(position)]
    {
      t := Peek();
      position := position + 1;
    }
  }

  /** A method's outcome and cursor agree with the function that specifies it. */
  predicate Agrees<T(==)>(spec: Result<(T, nat)>, res: Result<T>, position: nat) {
    match spec
    case Ok((v, next)) => res == Ok(v) && position == next
    case Err(e) => res == Err(e)
  }

  method ReadAtom(reader: Reader) returns (res: Result<Value>)
    modifies reader`position
    ensures res == Atom(if old(reader.position) < |reader.tokens| then Some(reader.tokens[old(reader.position)]) else None)
    ensures reader.position == old(reader.position) + 1
  {
    var token := reader.Next();
    res := Atom(token);
  }

  method ReadSeq(reader: Reader, close: string) returns (res: Result<seq<Value>>)
    requires reader.position < |reader.tokens|
    modifies reader`position
    ensures Agrees(ParseSeq(reader.tokens, old(reader.position) + 1, close, []), res, reader.position)
    decreases |reader.tokens| - reader.position, 0
  {
    var opening := reader.Next();
    var ast: seq<Value> := [];
    var t := reader.Peek();
    while t != Some(close)
      invariant old(reader.position) < reader.position <= |reader.tokens|
      invariant t.Some? <==> reader.position < |reader.tokens|
      invariant t.Some? ==> t.value == reader.tokens[reader.position]
      invariant ParseSeq(reader.tokens, reader.position, close, ast) ==
                ParseSeq(reader.tokens, old(reader.position) + 1, close, [])
      decreases |reader.tokens| - reader.position
    {
      if t.None? {
        return Err(Thrown("unbalanced"));
      }
      var form := ReadForm(reader);
      if form.Err? {
        return Err(form.error);
      }
      ast := ast + [form.value];
      t := reader.Peek();
    }
    var closing := reader.Next();
    res := Ok(ast);
  }

  method ReadList(reader: Reader) returns (res: Result<Value>)
    requires reader.position < |reader.tokens|
    modifies reader`position
    ensures match ParseSeq(reader.tokens, old(reader.position) + 1, ")", [])
            case Ok((xs, next)) => res == Ok(List(xs)) && reader.position == next
            case Err(e) => res == Err(e)
    decreases |reader.tokens| - reader.position, 1
  {
    var ast := ReadSeq(reader, ")");
    if ast.Err? {
      return Err(ast.error);
    }
    res := Ok(List(ast.value));
  }

  method ReadVector(reader: Reader) returns (res: Result<Value>)
    requires reader.position < |reader.tokens|
    modifies reader`position
    ensures match ParseSeq(reader.tokens, old(reader.position) + 1, "]", [])
            case Ok((xs, next)) => res == Ok(Vector(xs)) && reader.position == next
            case Err(e) => res == Err(e)
    decreases |reader.tokens| - reader.position, 1
  {
    var ast := ReadSeq(reader, "]");
    if ast.Err? {
      return Err(ast.error);
    }
    res := Ok(Vector(ast.value));
  }

  method ReadHashMap(reader: Reader) returns (res: Result<Value>)
    requires reader.position < |reader.tokens|
    modifies reader`position
    ensures match ParseSeq(reader.tokens, old(reader.position) + 1, "}", [])
            case Ok((xs, next)) => res == Ok(HashMap(xs)) && reader.position == next
            case Err(e) => res == Err(e)
    decreases |reader.tokens| - reader.position, 1
  {
    var ast := ReadSeq(reader, "}");
    if ast.Err? {
      return Err(ast.error);
    }
    res := Ok(HashMap(ast.value));
  }

  method PrependSymbol(reader: Reader, name: string) returns (res: Result<Value>)
    requires reader.position < |reader.tokens|
    modifies reader`position
    ensures match ParseForm(reader.tokens, old(reader.position) + 1)
            case Ok((v, next)) => res == Ok(List([Sym(name), v])) && reader.position == next
            case Err(e) => res == Err(e)
    decreases |reader.tokens| - reader.position, 1
  {
    var prefix := reader.Next();
    var form := ReadForm(reader);
    if form.Err? {
      return Err(form.error);
    }
    res := Ok(List([Sym(name), form.value]));
  }

  method ReadForm(reader: Reader) returns (res: Result<Value>)
    requires reader.position <= |reader.tokens|
    modifies reader`position
    ensures Agrees(ParseForm(reader.tokens, old(reader.position)), res, reader.position)
    decreases |reader.tokens| - reader.position, 2
  {
    var token := reader.Peek();
    if token == Some("(") {
      res := ReadList(reader);
    } else if token == Some("[") {
      res := ReadVector(reader);
    } else if token == Some("{") {
      res := ReadHashMap(reader);
    } else if token == Some("@") {
      res := PrependSymbol(reader, "deref");
    } else if token == Some("'") {
      res := PrependSymbol(reader, "quote");
    } else if token == Some("`") {
      res := PrependSymbol(reader, "quasiquote");
    } else if token == Some("~") {
      res := PrependSymbol(reader, "unquote");
    } else if token == Some("~@") {
      res := PrependSymbol(reader, "splice-unquote");
    } else {
      res := ReadAtom(reader);
    }
  }

  method ReadStr(s: string) returns (res: Result<Value>)
    ensures res == Read(s)
  {
    var tokens := Tokenize(s);
    var reader := new Reader(tokens);
    res := ReadForm(reader);
  }
}
