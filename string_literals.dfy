/**
 * String literals in the reader (impls/dlisp/reader.js:55-56).
 *
 * `read_atom` hands the body of a string-literal token to `createMalString`,
 * which types.js does not export, so the call throws a TypeError. This module
 * shows where that surfaces: any text that opens lists of plain forms and then
 * reaches a string literal is not read, and that includes the definition of
 * `load-file` that steps 6 and 8 read at start-up. Beside it stands the
 * evidently intended atom, which builds a MalString from the body, with the
 * round trip it completes.
 */
module StringLiterals {
  import opened Types
  import opened Reader
  import opened ReaderProperties

  /** What `createMalString(...)` throws. */
  const MissingConstructor := TypeError("createMalString is not a function")

  /** A token `read_atom` sends to `createMalString`: it starts and ends with a double quote. */
  predicate StringToken(t: string) {
    |t| > 0 && t[0] == '"' && t[|t| - 1] == '"'
  }

  /** A string body without escapes: no backslash and no double quote. */
  predicate QuoteFree(body: string) {
    forall k :: 0 <= k < |body| ==> body[k] != '\\' && body[k] != '"'
  }

  // ---------------------------------------------------------------------------
  // Scanning a string literal
  // ---------------------------------------------------------------------------

  lemma {:induction false} StringEndOf(s: string, i: nat, n: nat)
    requires i + n < |s| && s[i + n] == '"'
    requires forall m :: i <= m < i + n ==> s[m] != '\\' && s[m] != '"'
    ensures StringEnd(s, i) == i + n + 1
    decreases n
  {
    if n > 0 {
      StringEndOf(s, i + 1, n - 1);
    }
  }

  /** The scanner reads a string literal with a quote-free body found at `i` as one token. */
  lemma ScanStringAt(s: string, i: nat, body: string)
    requires QuoteFree(body)
    requires i + |body| + 2 <= |s| && s[i..i + |body| + 2] == "\"" + body + "\""
    ensures ScanFrom(s, i) == ["\"" + body + "\""] + ScanFrom(s, i + |body| + 2)
  {
    var lit := "\"" + body + "\"";
    assert s[i] == lit[0];
    assert SeparatorsEnd(s, i) == i;
    forall m | i + 1 <= m < i + 1 + |body| ensures s[m] != '\\' && s[m] != '"' {
      assert s[m] == lit[m - i] == body[m - i - 1];
    }
    assert s[i + 1 + |body|] == lit[|body| + 1];
    StringEndOf(s, i + 1, |body|);
    assert TokenEnd(s, i) == i + |body| + 2;
  }

  // ---------------------------------------------------------------------------
  // Open lists
  // ---------------------------------------------------------------------------

  /** One open list or vector: its opening bracket and the plain forms read inside it so far. */
  datatype Level = Level(open: string, forms: seq<Value>)

  predicate OpenLevel(l: Level) {
    (l.open == "(" || l.open == "[") && forall j :: 0 <= j < |l.forms| ==> PlainForm(l.forms[j])
  }

  /** Lists opened one inside the other, the outermost first. */
  predicate OpenLevels(ls: seq<Level>)
    decreases |ls|
  {
    ls == [] || (OpenLevel(ls[0]) && OpenLevels(ls[1..]))
  }

  /** The tokens of open lists: each opening bracket followed by the tokens of its forms. */
  function LevelToks(ls: seq<Level>): (r: seq<string>)
    requires OpenLevels(ls)
    ensures ls != [] ==> r != [] && r[0] == ls[0].open
    ensures ls != [] ==> r == [ls[0].open] + ToksAll(ls[0].forms) + LevelToks(ls[1..])
    decreases |ls|
  {
    if ls == [] then [] else [ls[0].open] + ToksAll(ls[0].forms) + LevelToks(ls[1..])
  }

  /** The tokens of open lists are plain tokens and brackets. */
  lemma {:induction false} LevelToksShape(ls: seq<Level>)
    requires OpenLevels(ls)
    ensures forall k :: 0 <= k < |LevelToks(ls)| ==> PlainToken(LevelToks(ls)[k]) || IsBracket(LevelToks(ls)[k])
    decreases |ls|
  {
    if ls != [] {
      ToksAllShape(ls[0].forms);
      LevelToksShape(ls[1..]);
    }
  }

  /**
   * Plain forms at `pos` are read one by one, in order; when the form after
   * them is not the closer and throws, the sequence throws the same error.
   */
  lemma {:induction false} ParseSeqFormsThrow(xs: seq<Value>, toks: seq<string>, pos: nat, close: string, acc: seq<Value>, e: Error)
    requires forall i :: 0 <= i < |xs| ==> PlainForm(xs[i])
    requires close == ")" || close == "]"
    requires pos + |ToksAll(xs)| < |toks| && toks[pos..pos + |ToksAll(xs)|] == ToksAll(xs)
    requires toks[pos + |ToksAll(xs)|] != close
    requires ParseForm(toks, pos + |ToksAll(xs)|) == Err(e)
    ensures ParseSeq(toks, pos, close, acc) == Err(e)
    decreases xs
  {
    if xs == [] {
      assert ToksAll(xs) == [];
    } else {
      var next := FormsTail(xs, toks, pos);
      ParseSeqFormsThrow(xs[1..], toks, next, close, acc + [xs[0]], e);
      ParseFirstToks(xs, toks, pos, close, next);
      ParseSeqStep(toks, pos, close, acc, xs[0], next);
    }
  }

  /** The tokens of plain forms after the first one's: those of the rest of the forms. */
  lemma FormsTail(xs: seq<Value>, toks: seq<string>, pos: nat) returns (next: nat)
    requires xs != [] && forall i :: 0 <= i < |xs| ==> PlainForm(xs[i])
    requires pos + |ToksAll(xs)| <= |toks| && toks[pos..pos + |ToksAll(xs)|] == ToksAll(xs)
    ensures forall i :: 0 <= i < |xs[1..]| ==> PlainForm(xs[1..][i])
    ensures next == pos + |Toks(xs[0])| && next + |ToksAll(xs[1..])| == pos + |ToksAll(xs)|
    ensures toks[next..next + |ToksAll(xs[1..])|] == ToksAll(xs[1..])
  {
    var first, rest := ToksAllCons(xs, toks, pos);
    next := pos + |first|;
    SliceParts(toks, pos, first, rest, []);
  }

  /** Where the parts of open lists' tokens lie: the first opener, its forms, then the lists inside, from `q` on. */
  lemma LevelParts(ls: seq<Level>, toks: seq<string>, pos: nat) returns (q: nat)
    requires ls != [] && OpenLevels(ls)
    requires pos + |LevelToks(ls)| <= |toks| && toks[pos..pos + |LevelToks(ls)|] == LevelToks(ls)
    ensures OpenLevel(ls[0]) && OpenLevels(ls[1..])
    ensures toks[pos] == ls[0].open
    ensures q == pos + 1 + |ToksAll(ls[0].forms)| && q + |LevelToks(ls[1..])| == pos + |LevelToks(ls)|
    ensures toks[pos + 1..q] == ToksAll(ls[0].forms)
    ensures toks[q..q + |LevelToks(ls[1..])|] == LevelToks(ls[1..])
    ensures |ls| > 1 ==> toks[q] == ls[1].open
  {
    var forms := ToksAll(ls[0].forms);
    var inner := LevelToks(ls[1..]);
    q := pos + 1 + |forms|;
    HeadParts(toks, pos, ls[0].open, forms, inner);
  }

  /** A sequence found at `pos` made of one item and two runs: where each part lies. */
  lemma HeadParts<T>(s: seq<T>, pos: nat, a: T, b: seq<T>, c: seq<T>)
    requires pos + 1 + |b| + |c| <= |s| && s[pos..pos + 1 + |b| + |c|] == [a] + b + c
    ensures s[pos] == a
    ensures s[pos + 1..pos + 1 + |b|] == b
    ensures s[pos + 1 + |b|..pos + 1 + |b| + |c|] == c
    ensures |c| > 0 ==> s[pos + 1 + |b|] == c[0]
  {
    SliceParts(s, pos, [a], b, c);
    assert s[pos] == s[pos..pos + 1][0];
    if |c| > 0 {
      assert s[pos + 1 + |b|] == s[pos + 1 + |b|..pos + 1 + |b| + |c|][0];
    }
  }

  /**
   * The form read at `pos`, where lists open one inside the other, each
   * holding plain forms, and a string literal follows, throws the TypeError
   * of the missing `createMalString`: the reader never reaches what comes
   * after the literal.
   */
  lemma {:induction false} OpenListsThrow(ls: seq<Level>, toks: seq<string>, pos: nat, lit: string)
    requires ls != [] && OpenLevels(ls) && StringToken(lit)
    requires pos + |LevelToks(ls)| < |toks| && toks[pos..pos + |LevelToks(ls)|] == LevelToks(ls)
    requires toks[pos + |LevelToks(ls)|] == lit
    ensures ParseForm(toks, pos) == Err(MissingConstructor)
    decreases |ls|
  {
    var q := LevelParts(ls, toks, pos);
    if |ls| == 1 {
      assert LevelToks(ls[1..]) == [];
      StringAtomThrows(toks, q);
      assert toks[q][0] == '"';
    } else {
      OpenListsThrow(ls[1..], toks, q, lit);
      InnerOpener(ls);
    }
    OpenerFormsThrow(toks, pos, ls[0].forms, q);
  }

  /** The list inside the outermost one opens with a bracket too. */
  lemma InnerOpener(ls: seq<Level>)
    requires |ls| > 1 && OpenLevels(ls)
    ensures ls[1].open == "(" || ls[1].open == "["
  {
    assert ls[1..][0] == ls[1];
  }

  /** A string-literal token is read as an atom, which throws. */
  lemma StringAtomThrows(toks: seq<string>, pos: nat)
    requires pos < |toks| && StringToken(toks[pos])
    ensures ParseForm(toks, pos) == Err(MissingConstructor)
  {
    var t := toks[pos];
    assert Closer(t).None? && PrefixName(t).None?;
    assert !IsIntToken(t) && t != "true" && t != "false" && t != "nil" && t[0] != '@' by {
      assert t[0] == '"';
    }
  }

  /**
   * An opening bracket at `pos` whose forms up to `q` are read and whose next
   * form throws: the form at `pos` throws the same.
   */
  lemma OpenerFormsThrow(toks: seq<string>, pos: nat, xs: seq<Value>, q: nat)
    requires forall i :: 0 <= i < |xs| ==> PlainForm(xs[i])
    requires q == pos + 1 + |ToksAll(xs)| < |toks| && toks[pos + 1..q] == ToksAll(xs)
    requires toks[pos] == "(" || toks[pos] == "["
    requires toks[q] != ")" && toks[q] != "]"
    requires ParseForm(toks, q) == Err(MissingConstructor)
    ensures ParseForm(toks, pos) == Err(MissingConstructor)
  {
    ParseSeqFormsThrow(xs, toks, pos + 1, Closer(toks[pos]).value, [], MissingConstructor);
  }

  // ---------------------------------------------------------------------------
  // As written: reading such a text throws
  // ---------------------------------------------------------------------------

  /**
   * A text that opens lists of plain forms, written with the gaps a printed
   * form has, then a space and a string literal with a quote-free body, is
   * not read, whatever follows: `read_str` throws the TypeError of the
   * missing `createMalString`.
   */
  lemma ReadOpenListsThrows(ls: seq<Level>, body: string, rest: string)
    requires ls != [] && OpenLevels(ls) && QuoteFree(body)
    ensures Read(Spaced(LevelToks(ls)) + " \"" + body + "\"" + rest) == Err(MissingConstructor)
  {
    var s := Spaced(LevelToks(ls)) + " \"" + body + "\"" + rest;
    var toks := TokenizeOpenLists(ls, body, rest);
    OpenListsThrow(ls, toks, 0, "\"" + body + "\"");
  }

  /** The tokens of such a text: those of the open lists, then the string literal. */
  lemma TokenizeOpenLists(ls: seq<Level>, body: string, rest: string) returns (toks: seq<string>)
    requires ls != [] && OpenLevels(ls) && QuoteFree(body)
    ensures toks == Tokenize(Spaced(LevelToks(ls)) + " \"" + body + "\"" + rest)
    ensures |LevelToks(ls)| < |toks| && toks[0..|LevelToks(ls)|] == LevelToks(ls)
    ensures toks[|LevelToks(ls)|] == "\"" + body + "\""
  {
    var head := LevelToks(ls);
    var lit := "\"" + body + "\"";
    var s := Spaced(head) + " \"" + body + "\"" + rest;
    var after := ScanOpenLists(ls, body, rest);
    LevelToksShape(ls);
    SimpleTokensOf(head);
    SimpleTokensNotComments(head);
    assert forall i :: 0 <= i < |head + [lit]| ==> !IsComment((head + [lit])[i]);
    TokenizeScanned(s, head + [lit], after);
    toks := Tokenize(s);
    assert toks[..|head| + 1] == head + [lit];
    assert toks[0..|head|] == head && toks[|head|] == lit;
  }

  /** What the scanner yields for such a text: the open lists' tokens, the literal, then the matches after it. */
  lemma ScanOpenLists(ls: seq<Level>, body: string, rest: string) returns (after: seq<string>)
    requires ls != [] && OpenLevels(ls) && QuoteFree(body)
    ensures after != []
    ensures Scan(Spaced(LevelToks(ls)) + " \"" + body + "\"" + rest) == LevelToks(ls) + ["\"" + body + "\""] + after
  {
    LevelToksShape(ls);
    after := ScanSpacedString(LevelToks(ls), body, rest);
  }

  /** Plain tokens and brackets with their gaps, a space and a string literal: the scanner yields them all. */
  lemma ScanSpacedString(head: seq<string>, body: string, rest: string) returns (after: seq<string>)
    requires head != [] && forall k :: 0 <= k < |head| ==> PlainToken(head[k]) || IsBracket(head[k])
    requires QuoteFree(body)
    ensures after != []
    ensures Scan(Spaced(head) + " \"" + body + "\"" + rest) == head + ["\"" + body + "\""] + after
  {
    TextParts(Spaced(head), body, rest);
    after := ScanTextParts(head, Spaced(head) + " \"" + body + "\"" + rest, body);
  }

  /** The same, for any text whose parts lie where TextParts puts them. */
  lemma ScanTextParts(head: seq<string>, s: string, body: string) returns (after: seq<string>)
    requires head != [] && forall k :: 0 <= k < |head| ==> PlainToken(head[k]) || IsBracket(head[k])
    requires QuoteFree(body)
    requires |Spaced(head)| + 1 + |body| + 2 <= |s|
    requires s[0..|Spaced(head)|] == Spaced(head) && s[|Spaced(head)|] == ' '
    requires s[|Spaced(head)| + 1..|Spaced(head)| + 1 + |body| + 2] == "\"" + body + "\""
    ensures after != []
    ensures Scan(s) == head + ["\"" + body + "\""] + after
  {
    var lit := "\"" + body + "\"";
    var h := Spaced(head);
    var c := |h| + 1 + |body| + 2;
    ScanHead(head, s);
    ScanSpaceThenString(s, |h|, body);
    after := ScanFrom(s, c);
    ScanJoin(s, head, |h|, |h| + 1, lit, c);
  }

  /** Plain tokens and brackets written out with their gaps at the start of `s`, then a space: the scanner yields them. */
  lemma ScanHead(head: seq<string>, s: string)
    requires head != [] && forall k :: 0 <= k < |head| ==> PlainToken(head[k]) || IsBracket(head[k])
    requires |Spaced(head)| < |s| && s[0..|Spaced(head)|] == Spaced(head) && s[|Spaced(head)|] == ' '
    ensures ScanFrom(s, 0) == head + ScanFrom(s, |Spaced(head)|)
  {
    SpacedLaid(head, s, 0);
    ScanLaid(s, 0, head, |Spaced(head)|);
  }

  /** A space at `i`, then a string literal with a quote-free body: the scanner skips the space and yields the literal. */
  lemma ScanSpaceThenString(s: string, i: nat, body: string)
    requires QuoteFree(body)
    requires i + 1 + |body| + 2 <= |s| && s[i] == ' '
    requires s[i + 1..i + 1 + |body| + 2] == "\"" + body + "\""
    ensures ScanFrom(s, i) == ScanFrom(s, i + 1)
    ensures ScanFrom(s, i + 1) == ["\"" + body + "\""] + ScanFrom(s, i + 1 + |body| + 2)
  {
    ScanSkipAt(s, i);
    ScanStringAt(s, i + 1, body);
  }

  /** Three stretches of matches, joined. */
  lemma ScanJoin(s: string, head: seq<string>, a: nat, b: nat, lit: string, c: nat)
    requires a <= |s| && b <= |s| && c <= |s|
    requires ScanFrom(s, 0) == head + ScanFrom(s, a)
    requires ScanFrom(s, a) == ScanFrom(s, b)
    requires ScanFrom(s, b) == [lit] + ScanFrom(s, c)
    ensures Scan(s) == head + [lit] + ScanFrom(s, c)
  {
    assert head + ([lit] + ScanFrom(s, c)) == head + [lit] + ScanFrom(s, c);
  }

  /** Where the parts of such a text lie. */
  lemma TextParts(h: string, body: string, rest: string)
    ensures var s := h + " \"" + body + "\"" + rest;
            && |h| + 1 + |body| + 2 <= |s|
            && s[0..|h|] == h && s[|h|] == ' '
            && s[|h| + 1..|h| + 1 + |body| + 2] == "\"" + body + "\""
  {
    var s := h + " \"" + body + "\"" + rest;
    var lit := "\"" + body + "\"";
    assert s == h + " " + lit + rest;
    SliceParts(s, 0, h, " " + lit, rest);
    SliceParts(s, |h|, " ", lit, rest);
  }

  /** Plain tokens and brackets are simple tokens. */
  lemma SimpleTokensOf(ts: seq<string>)
    requires forall k :: 0 <= k < |ts| ==> PlainToken(ts[k]) || IsBracket(ts[k])
    ensures forall k :: 0 <= k < |ts| ==> SimpleToken(ts[k])
  {
  }

  // ---------------------------------------------------------------------------
  // As intended: a string literal becomes a MalString
  // ---------------------------------------------------------------------------

  /**
   * `read_atom` as evidently intended: a string-literal token becomes a
   * MalString holding `token.slice(1, -1)`; every other token is read as
   * the code does.
   */
  function IntendedAtom(token: Option<string>): (r: Result<Value>)
    ensures token.Some? && StringToken(token.value) ==> r.Ok? && r.value.Str?
    ensures token.Some? && StringToken(token.value) && |token.value| >= 2
            ==> r.value.text == token.value[1..|token.value| - 1]
    ensures !(token.Some? && StringToken(token.value)) ==> r == Atom(token)
  {
    match token
    case Some(t) =>
      if StringToken(t) then Ok(Str(if |t| < 2 then "" else t[1..|t| - 1]))
      else Atom(token)
    case None => Atom(token)
  }

  /** The two readings differ exactly on string literals, where the code throws. */
  lemma AtomDiffers(token: Option<string>)
    ensures Atom(token) != IntendedAtom(token) <==> token.Some? && StringToken(token.value)
    ensures token.Some? && StringToken(token.value) ==> Atom(token) == Err(MissingConstructor)
  {
    if token.Some? && StringToken(token.value) {
      var t := token.value;
      assert !IsIntToken(t) && t != "true" && t != "false" && t != "nil" && t[0] != '@' by {
        assert t[0] == '"';
      }
    }
  }

  /**
   * A MalString with a quote-free body prints as one string-literal token,
   * which the intended atom reads back as the same MalString; the code as
   * written throws on it.
   */
  lemma IntendedStringRoundTrip(body: string)
    requires QuoteFree(body)
    ensures var printed := Show(Str(body));
            && printed == Ok("\"" + body + "\"")
            && Tokenize(printed.value) == [printed.value]
            && IntendedAtom(Some(printed.value)) == Ok(Str(body))
            && Atom(Some(printed.value)) == Err(MissingConstructor)
  {
    var lit := "\"" + body + "\"";
    StringTokenAlone(body);
    assert lit[1..|lit| - 1] == body;
    AtomDiffers(Some(lit));
  }

  /** A string literal with a quote-free body, alone, is one token. */
  lemma StringTokenAlone(body: string)
    requires QuoteFree(body)
    ensures Tokenize("\"" + body + "\"") == ["\"" + body + "\""]
  {
    var lit := "\"" + body + "\"";
    assert lit[0..|body| + 2] == lit;
    ScanStringAt(lit, 0, body);
    assert ScanFrom(lit, |lit|) == [""];
    var all := Scan(lit);
    assert all == [lit, ""];
    assert all[..|all| - 1] == [lit];
    assert !IsComment(lit);
    assert [lit][1..] == [];
    assert DropComments([lit]) == [lit] + DropComments([]);
  }

  /** Open lists, one more level outside. */
  lemma OpenLevelsCons(l: Level, ls: seq<Level>)
    requires OpenLevel(l) && OpenLevels(ls)
    ensures OpenLevels([l] + ls)
  {
    assert ([l] + ls)[1..] == ls;
  }

  /** The text of open lists: the outermost level's text, a space, then the levels inside it. */
  lemma SpacedLevelsCons(l: Level, ls: seq<Level>)
    requires OpenLevel(l) && l.forms != [] && ls != [] && OpenLevels(ls)
    ensures OpenLevels([l] + ls) && OpenLevels([l])
    ensures Spaced(LevelToks([l] + ls)) == Spaced(LevelToks([l])) + " " + Spaced(LevelToks(ls))
  {
    OpenLevelsCons(l, ls);
    OpenLevelsCons(l, []);
    assert [l] + [] == [l];
    var a := LevelToks([l]);
    assert ([l] + ls)[1..] == ls && [l][1..] == [];
    assert a == [l.open] + ToksAll(l.forms);
    assert LevelToks([l] + ls) == a + LevelToks(ls);
    ToksAllShape(l.forms);
    ToksAllLast(l.forms);
    SpacedAppend(a, LevelToks(ls));
  }

  /** The last token of plain forms is no opening bracket. */
  lemma {:induction false} ToksAllLast(xs: seq<Value>)
    requires xs != [] && forall i :: 0 <= i < |xs| ==> PlainForm(xs[i])
    ensures ToksAll(xs) != [] && ToksAll(xs)[|ToksAll(xs)| - 1] != "(" && ToksAll(xs)[|ToksAll(xs)| - 1] != "["
    decreases xs
  {
    ToksShape(xs[0]);
    if |xs| == 1 {
      assert ToksAll(xs[1..]) == [];
      assert ToksAll(xs) == Toks(xs[0]) + [];
    } else {
      PlainTail(xs);
      ToksAllLast(xs[1..]);
    }
  }

  /*
   * The definition of `load-file` that steps 6 and 8 read at start-up: when
   * its first string literal comes, five lists are open.
   */
  const DefLevel := Level("(", [Sym("def!"), Sym("load-file")])
  const FnLevel := Level("(", [Sym("fn*"), List([Sym("f")])])
  const EvalLevel := Level("(", [Sym("eval")])
  const ReadStringLevel := Level("(", [Sym("read-string")])
  const StrLevel := Level("(", [Sym("str")])

  /** The start-up definition of `load-file` in steps 6 and 8; the `\n` is a real line break. */
  const LoadFileDefinition :=
    "(def! load-file " + "(fn* (f) " + "(eval " + "(read-string " + "(str" + " \"(do \" (slurp f) \"\nnil)\")))))"

  /**
   * Reading the definition of `load-file` throws, so the start-up `rep` of
   * steps 6 and 8 throws before the interpreter reads any input.
   */
  lemma LoadFileThrows()
    ensures Read(LoadFileDefinition) == Err(MissingConstructor)
  {
    var ls := LoadFileLevels();
    ReadOpenListsThrows(ls, "(do ", " (slurp f) \"\nnil)\")))))");
  }

  /** The five open lists, whose text with its gaps is the definition up to its first string literal. */
  lemma LoadFileLevels() returns (ls: seq<Level>)
    ensures ls != [] && OpenLevels(ls)
    ensures LoadFileDefinition == Spaced(LevelToks(ls)) + " \"" + "(do " + "\"" + " (slurp f) \"\nnil)\")))))"
  {
    ls := LoadFileNest();
    LevelTexts();
    var a, b, c, d, e := "(def! load-file", "(fn* (f)", "(eval", "(read-string", "(str";
    assert Spaced(LevelToks(ls)) == a + " " + (b + " " + (c + " " + (d + " " + e)));
    PieceTexts();
    TailText();
    Joined(a, b, c, d, e, " \"", "(do ", "\"", " (slurp f) \"\nnil)\")))))");
  }

  /** The five open lists, and their text as the text of each joined by spaces. */
  lemma LoadFileNest() returns (ls: seq<Level>)
    ensures ls != [] && OpenLevels(ls)
    ensures OpenLevels([DefLevel]) && OpenLevels([FnLevel]) && OpenLevels([EvalLevel])
    ensures OpenLevels([ReadStringLevel]) && OpenLevels([StrLevel])
    ensures Spaced(LevelToks(ls))
      == Spaced(LevelToks([DefLevel])) + " " + (Spaced(LevelToks([FnLevel])) + " " + (Spaced(LevelToks([EvalLevel]))
         + " " + (Spaced(LevelToks([ReadStringLevel])) + " " + Spaced(LevelToks([StrLevel])))))
  {
    LevelsOpen();
    var inner3 := [ReadStringLevel, StrLevel];
    assert inner3 == [ReadStringLevel] + [StrLevel];
    SpacedLevelsCons(ReadStringLevel, [StrLevel]);
    var inner2 := [EvalLevel] + inner3;
    SpacedLevelsCons(EvalLevel, inner3);
    var inner1 := [FnLevel] + inner2;
    SpacedLevelsCons(FnLevel, inner2);
    ls := [DefLevel] + inner1;
    SpacedLevelsCons(DefLevel, inner1);
  }

  /** Regrouping texts joined by spaces and followed by the rest of a text. */
  lemma Joined(a: string, b: string, c: string, d: string, e: string, p: string, q: string, r: string, t: string)
    ensures (a + " ") + (b + " ") + (c + " ") + (d + " ") + e + (p + q + r + t)
         == a + " " + (b + " " + (c + " " + (d + " " + e))) + p + q + r + t
  {
  }

  lemma PieceTexts()
    ensures "(def! load-file" + " " == "(def! load-file "
    ensures "(fn* (f)" + " " == "(fn* (f) "
    ensures "(eval" + " " == "(eval "
    ensures "(read-string" + " " == "(read-string "
  {
  }

  lemma TailText()
    ensures " \"(do \" (slurp f) \"\nnil)\")))))" == " \"" + "(do " + "\"" + " (slurp f) \"\nnil)\")))))"
  {
  }

  /** A run of plain characters, checked one character at a time. */
  predicate PlainChars(s: string)
    decreases |s|
  {
    s == [] || (IsPlainChar(s[0]) && PlainChars(s[1..]))
  }

  lemma {:induction false} PlainCharsAll(s: string)
    requires PlainChars(s)
    ensures forall k :: 0 <= k < |s| ==> IsPlainChar(s[k])
    decreases |s|
  {
    if s != [] {
      PlainCharsAll(s[1..]);
      assert forall k :: 1 <= k < |s| ==> s[k] == s[1..][k - 1];
    }
  }

  /** A name of plain characters that starts with a lower-case letter and is no literal is read as a symbol. */
  lemma NameSymbol(s: string)
    requires s != [] && 'a' <= s[0] <= 'z' && PlainChars(s)
    requires s != "true" && s != "false" && s != "nil"
    ensures PlainForm(Sym(s)) && Toks(Sym(s)) == [s]
  {
    PlainCharsAll(s);
    assert !AllDigits(s) by { assert !('0' <= s[0] <= '9'); }
  }

  lemma {:induction false} PlainCharsAppend(a: string, b: string)
    requires PlainChars(a) && PlainChars(b)
    ensures PlainChars(a + b)
    decreases |a|
  {
    if a == [] {
      assert a + b == b;
    } else {
      PlainCharsAppend(a[1..], b);
      assert (a + b)[0] == a[0] && (a + b)[1..] == a[1..] + b;
    }
  }

  lemma DefSymbol()
    ensures PlainForm(Sym("def!"))
  {
    assert PlainChars("def!");
    NameSymbol("def!");
  }

  lemma LoadFileSymbol()
    ensures PlainForm(Sym("load-file"))
  {
    assert PlainChars("load") && PlainChars("-file");
    PlainCharsAppend("load", "-file");
    assert "load" + "-file" == "load-file";
    NameSymbol("load-file");
  }

  lemma FnSymbols()
    ensures PlainForm(Sym("fn*")) && PlainForm(List([Sym("f")]))
  {
    assert PlainChars("fn*") && PlainChars("f");
    NameSymbol("fn*");
    NameSymbol("f");
  }

  lemma EvalSymbol()
    ensures PlainForm(Sym("eval"))
  {
    assert PlainChars("eval");
    NameSymbol("eval");
  }

  lemma StrSymbol()
    ensures PlainForm(Sym("str"))
  {
    assert PlainChars("str");
    NameSymbol("str");
  }

  lemma ReadStringSymbol()
    ensures PlainForm(Sym("read-string"))
  {
    assert PlainChars("read-") && PlainChars("string");
    PlainCharsAppend("read-", "string");
    assert "read-" + "string" == "read-string";
    NameSymbol("read-string");
  }

  lemma LevelsOpen()
    ensures OpenLevel(DefLevel) && OpenLevel(FnLevel) && OpenLevel(EvalLevel)
    ensures OpenLevel(ReadStringLevel) && OpenLevel(StrLevel) && OpenLevels([StrLevel])
  {
    DefSymbol();
    LoadFileSymbol();
    FnSymbols();
    EvalSymbol();
    StrSymbol();
    ReadStringSymbol();
    OpenLevelsCons(StrLevel, []);
    assert [StrLevel] + [] == [StrLevel];
  }

  /** The tokens of one open list: its opener, then its forms' tokens. */
  lemma OneLevel(l: Level)
    requires OpenLevel(l)
    ensures OpenLevels([l]) && LevelToks([l]) == [l.open] + ToksAll(l.forms)
  {
    OpenLevelsCons(l, []);
    assert [l] + [] == [l] && [l][1..] == [];
  }

  lemma DefText()
    ensures OpenLevels([DefLevel]) && Spaced(LevelToks([DefLevel])) == "(def! load-file"
  {
    DefToks();
    DefSpaced();
  }

  lemma DefToks()
    ensures OpenLevels([DefLevel]) && LevelToks([DefLevel]) == ["(", "def!", "load-file"]
  {
    DefSymbol();
    LoadFileSymbol();
    OneLevel(DefLevel);
    var xs := [Sym("def!"), Sym("load-file")];
    assert xs[1..] == [Sym("load-file")] && xs[1..][1..] == [];
    assert ToksAll(xs) == ["def!", "load-file"];
  }

  lemma DefSpaced()
    ensures Spaced(["(", "def!", "load-file"]) == "(def! load-file"
  {
    assert ["(", "def!", "load-file"][1..] == ["def!", "load-file"];
    assert ["def!", "load-file"][1..] == ["load-file"];
  }

  lemma FnText()
    ensures OpenLevels([FnLevel]) && Spaced(LevelToks([FnLevel])) == "(fn* (f)"
  {
    LevelsOpen();
    OneLevel(FnLevel);
    var xs := [Sym("fn*"), List([Sym("f")])];
    assert xs[1..] == [List([Sym("f")])] && xs[1..][1..] == [] && [Sym("f")][1..] == [];
    assert Toks(List([Sym("f")])) == ["(", "f", ")"];
    assert ToksAll(xs) == ["fn*", "(", "f", ")"];
    assert ["("] + ["fn*", "(", "f", ")"] == ["(", "fn*", "(", "f", ")"];
    assert Spaced(["(", "fn*", "(", "f", ")"]) == "(fn* (f)";
  }

  lemma SingleText(l: Level, name: string)
    requires OpenLevel(l) && l.open == "(" && l.forms == [Sym(name)]
    ensures OpenLevels([l]) && Spaced(LevelToks([l])) == "(" + name
  {
    OneLevel(l);
    assert l.forms[1..] == [];
    assert LevelToks([l]) == ["(", name];
    assert ["(", name][1..] == [name];
  }

  lemma EvalText()
    ensures OpenLevels([EvalLevel]) && Spaced(LevelToks([EvalLevel])) == "(eval"
  {
    EvalSymbol();
    SingleText(EvalLevel, "eval");
  }

  lemma ReadStringText()
    ensures OpenLevels([ReadStringLevel]) && Spaced(LevelToks([ReadStringLevel])) == "(read-string"
  {
    ReadStringSymbol();
    SingleText(ReadStringLevel, "read-string");
  }

  lemma StrText()
    ensures OpenLevels([StrLevel]) && Spaced(LevelToks([StrLevel])) == "(str"
  {
    StrSymbol();
    SingleText(StrLevel, "str");
  }

  /** The text of each open list. */
  lemma LevelTexts()
    ensures OpenLevels([DefLevel]) && Spaced(LevelToks([DefLevel])) == "(def! load-file"
    ensures OpenLevels([FnLevel]) && Spaced(LevelToks([FnLevel])) == "(fn* (f)"
    ensures OpenLevels([EvalLevel]) && Spaced(LevelToks([EvalLevel])) == "(eval"
    ensures OpenLevels([ReadStringLevel]) && Spaced(LevelToks([ReadStringLevel])) == "(read-string"
    ensures OpenLevels([StrLevel]) && Spaced(LevelToks([StrLevel])) == "(str"
  {
    DefText();
    FnText();
    EvalText();
    ReadStringText();
    StrText();
  }
}
