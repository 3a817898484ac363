/**
 * Properties of the reader: the shape of the token stream, the tokens and
 * forms it reads back unchanged, delimiters, reader-macro prefixes and the
 * "unbalanced" error.
 */
module ReaderProperties {
  import opened Types
  import opened Reader

  /** Splitting a slice that holds `a + m + z`. */
  lemma SliceParts<T>(s: seq<T>, i: nat, a: seq<T>, m: seq<T>, z: seq<T>)
    requires i + |a| + |m| + |z| <= |s| && s[i..i + |a| + |m| + |z|] == a + m + z
    ensures s[i..i + |a|] == a
    ensures s[i + |a|..i + |a| + |m|] == m
    ensures s[i + |a| + |m|..i + |a| + |m| + |z|] == z
  {
    var w := s[i..i + |a| + |m| + |z|];
    assert forall k :: 0 <= k < |a| ==> s[i + k] == w[k] == a[k];
    assert forall k :: 0 <= k < |m| ==> s[i + |a| + k] == w[|a| + k] == m[k];
    assert forall k :: 0 <= k < |z| ==> s[i + |a| + |m| + k] == w[|a| + |m| + k] == z[k];
  }

  /** Re-associating a sequence split at its head. */
  lemma ConsAppend<T>(ts: seq<T>, x: seq<T>)
    requires ts != []
    ensures [ts[0]] + (ts[1..] + x) == ts + x
  {
    assert ts == [ts[0]] + ts[1..];
  }

  lemma DropLastAppend<T>(a: seq<T>, b: seq<T>)
    requires b != []
    ensures (a + b)[..|a + b| - 1] == a + b[..|b| - 1]
  {
  }

  lemma PrefixAppend<T>(a: seq<T>, b: seq<T>)
    ensures |a| <= |a + b| && (a + b)[..|a|] == a && (a + b)[0..|a|] == a
  {
  }

  lemma SuffixSlice<T>(a: seq<T>, b: seq<T>)
    ensures |a + b| == |a| + |b| && (a + b)[|a|..|a| + |b|] == b
  {
  }

  // ---------------------------------------------------------------------------
  // The token stream
  // ---------------------------------------------------------------------------

  predicate NonEmptyButLast(ts: seq<string>) {
    forall i :: 0 <= i < |ts| - 1 ==> ts[i] != ""
  }

  predicate NoSeparatorStart(ts: seq<string>) {
    forall i :: 0 <= i < |ts| && ts[i] != "" ==> !IsSeparator(ts[i][0])
  }

  /** Of the matches, only the one before the final empty match can be empty, and none starts with a separator. */
  lemma {:induction false} ScanFromShape(s: string, i: nat)
    requires i <= |s|
    ensures NonEmptyButLast(ScanFrom(s, i)[..|ScanFrom(s, i)| - 1]) && NoSeparatorStart(ScanFrom(s, i))
    decreases |s| - i
  {
    var j := SeparatorsEnd(s, i);
    var k := TokenEnd(s, j);
    if k != i {
      var rest := ScanFrom(s, k);
      ScanFromShape(s, k);
      var r := ScanFrom(s, i);
      assert r == [s[j..k]] + rest;
      if k == j {
        assert rest == [""];
      } else {
        assert s[j..k][0] == s[j];
      }
      forall n | 0 <= n < |r| - 2 ensures r[n] != "" {
        if n > 0 {
          assert r[n] == rest[n - 1];
          assert rest[..|rest| - 1][n - 1] == rest[n - 1];
        }
      }
      forall n | 0 <= n < |r| && r[n] != "" ensures !IsSeparator(r[n][0]) {
        if n > 0 {
          assert r[n] == rest[n - 1];
        }
      }
    }
  }

  lemma {:induction false} DropCommentsKeepsShape(ts: seq<string>)
    requires NonEmptyButLast(ts) && NoSeparatorStart(ts)
    ensures NonEmptyButLast(DropComments(ts)) && NoSeparatorStart(DropComments(ts))
  {
    if ts != [] {
      assert NoSeparatorStart(ts[1..]) by {
        forall n | 0 <= n < |ts[1..]| && ts[1..][n] != "" ensures !IsSeparator(ts[1..][n][0]) {
          assert ts[1..][n] == ts[n + 1];
        }
      }
      DropCommentsKeepsShape(ts[1..]);
      if !IsComment(ts[0]) && DropComments(ts[1..]) != [] {
        assert ts[1..] != [];
      }
    }
  }

  lemma {:induction false} DropCommentsNone(ts: seq<string>)
    requires forall i :: 0 <= i < |ts| ==> !IsComment(ts[i])
    ensures DropComments(ts) == ts
  {
    if ts != [] {
      DropCommentsNone(ts[1..]);
    }
  }

  lemma {:induction false} DropCommentsAppend(a: seq<string>, b: seq<string>)
    ensures DropComments(a + b) == DropComments(a) + DropComments(b)
  {
    if a != [] {
      assert (a + b)[0] == a[0] && (a + b)[1..] == a[1..] + b;
      DropCommentsAppend(a[1..], b);
    } else {
      assert a + b == b;
    }
  }

  /**
   * `tokenize` yields no comment, no token that starts with a separator, and
   * no empty token except possibly the last one (an input that ends in
   * separators after its last token).
   */
  lemma TokenizeShape(s: string)
    ensures forall i :: 0 <= i < |Tokenize(s)| ==> !IsComment(Tokenize(s)[i])
    ensures NoSeparatorStart(Tokenize(s))
    ensures NonEmptyButLast(Tokenize(s))
  {
    var all := Scan(s);
    var kept := all[..|all| - 1];
    ScanFromShape(s, 0);
    assert NoSeparatorStart(kept) by {
      forall n | 0 <= n < |kept| && kept[n] != "" ensures !IsSeparator(kept[n][0]) {
        assert kept[n] == all[n];
      }
    }
    DropCommentsKeepsShape(kept);
  }

  // ---------------------------------------------------------------------------
  // Tokens the scanner reproduces
  // ---------------------------------------------------------------------------

  /** A run of plain characters that does not start with a special character: a symbol, number or keyword token. */
  predicate PlainToken(t: string) {
    t != "" && !IsSpecial(t[0]) && forall i :: 0 <= i < |t| ==> IsPlainChar(t[i])
  }

  /** A token the scanner reproduces when it is followed by a separator or the end of the input. */
  predicate SimpleToken(t: string) {
    PlainToken(t) || t == "~@" || (|t| == 1 && IsSpecial(t[0]))
  }

  lemma {:induction false} PlainEndOf(s: string, i: nat, n: nat)
    requires i + n <= |s|
    requires forall m :: i <= m < i + n ==> IsPlainChar(s[m])
    requires i + n == |s| || !IsPlainChar(s[i + n])
    ensures PlainEnd(s, i) == i + n
    decreases n
  {
    if n > 0 {
      PlainEndOf(s, i + 1, n - 1);
    }
  }

  /** The scanner reads a simple token found at `i` back, as long as what follows cannot extend it. */
  lemma ScanTokenAt(s: string, i: nat, t: string)
    requires SimpleToken(t) && i + |t| <= |s| && s[i..i + |t|] == t
    requires PlainToken(t) ==> i + |t| == |s| || !IsPlainChar(s[i + |t|])
    requires t == "~" ==> i + 1 == |s| || s[i + 1] != '@'
    ensures ScanFrom(s, i) == [t] + ScanFrom(s, i + |t|)
  {
    assert s[i] == t[0];
    assert SeparatorsEnd(s, i) == i;
    if PlainToken(t) {
      forall m | i <= m < i + |t| ensures IsPlainChar(s[m]) {
        assert s[m] == t[m - i];
      }
      PlainEndOf(s, i, |t|);
    } else if t == "~@" {
      assert s[i + 1] == t[1];
    }
    assert TokenEnd(s, i) == i + |t|;
  }

  /** A separator followed by more input changes nothing the scanner yields. */
  lemma ScanSkipAt(s: string, i: nat)
    requires i + 1 < |s| && IsSeparator(s[i])
    ensures ScanFrom(s, i) == ScanFrom(s, i + 1)
  {
    assert SeparatorsEnd(s, i) == SeparatorsEnd(s, i + 1);
  }

  /**
   * The simple tokens `ts` lie in `s` one after another from position `i`,
   * each followed directly by the next or by a single space, the last one
   * ending at `e`; no token is followed by a character that would extend it.
   */
  ghost predicate Laid(s: string, i: nat, ts: seq<string>, e: nat)
    decreases ts
  {
    if ts == [] then i == e <= |s|
    else
      var t, m := ts[0], i + |ts[0]|;
      && SimpleToken(t) && m <= e <= |s| && s[i..m] == t
      && (PlainToken(t) ==> m == |s| || !IsPlainChar(s[m]))
      && (t == "~" ==> m == |s| || s[m] != '@')
      && Laid(s, NextStart(s, m, ts[1..], e), ts[1..], e)
  }

  /** Where the token after one ending at `m` starts: past a single space, if there is one. */
  function NextStart(s: string, m: nat, rest: seq<string>, e: nat): nat {
    if rest != [] && m < e <= |s| && s[m] == ' ' then m + 1 else m
  }

  /** A laid-out token starts with its first character, which is not a space. */
  lemma LaidStart(s: string, i: nat, ts: seq<string>, e: nat)
    requires ts != [] && Laid(s, i, ts, e)
    ensures i < e && s[i] == ts[0][0] && s[i] != ' '
  {
    var t := ts[0];
    assert s[i] == s[i..i + |t|][0];
    if PlainToken(t) {
      assert IsPlainChar(t[0]);
    }
  }

  /** The scanner yields laid-out tokens one by one. */
  lemma {:induction false} ScanLaid(s: string, i: nat, ts: seq<string>, e: nat)
    requires Laid(s, i, ts, e)
    ensures ScanFrom(s, i) == ts + ScanFrom(s, e)
    decreases ts
  {
    if ts != [] {
      var t, m := ts[0], i + |ts[0]|;
      var n := NextStart(s, m, ts[1..], e);
      ScanTokenAt(s, i, t);
      if n != m {
        LaidStart(s, n, ts[1..], e);
        ScanSkipAt(s, m);
      }
      ScanLaid(s, n, ts[1..], e);
      ConsAppend(ts, ScanFrom(s, e));
    }
  }

  lemma {:induction false} LaidBounds(s: string, i: nat, ts: seq<string>, e: nat)
    requires Laid(s, i, ts, e)
    ensures i <= e <= |s|
    decreases ts
  {
    if ts != [] {
      LaidBounds(s, NextStart(s, i + |ts[0]|, ts[1..], e), ts[1..], e);
    }
  }

  /** Tokens laid up to `m` followed by tokens laid from `m` are laid together. */
  lemma {:induction false} LaidAppend(s: string, i: nat, a: seq<string>, m: nat, b: seq<string>, e: nat)
    requires Laid(s, i, a, m) && Laid(s, m, b, e)
    ensures Laid(s, i, a + b, e)
    decreases a
  {
    if a == [] {
      assert a + b == b;
    } else {
      var n := NextStart(s, i + |a[0]|, a[1..], m);
      LaidAppend(s, n, a[1..], m, b, e);
      LaidAppendStep(s, i, a, m, b, e);
    }
  }

  /** The step of `LaidAppend`: the first token of `a` in front of the rest of `a` followed by `b`. */
  lemma LaidAppendStep(s: string, i: nat, a: seq<string>, m: nat, b: seq<string>, e: nat)
    requires a != [] && Laid(s, i, a, m) && Laid(s, m, b, e)
    requires Laid(s, NextStart(s, i + |a[0]|, a[1..], m), a[1..] + b, e)
    ensures Laid(s, i, a + b, e)
  {
    var t, m' := a[0], i + |a[0]|;
    var n := NextStart(s, m', a[1..], m);
    LaidBounds(s, m, b, e);
    LaidBounds(s, n, a[1..], m);
    assert (a + b)[0] == t && (a + b)[1..] == a[1..] + b;
    if a[1..] == [] {
      if b != [] {
        LaidStart(s, m, b, e);
      }
    } else {
      LaidStart(s, n, a[1..], m);
    }
    assert NextStart(s, m', a[1..] + b, e) == n;
  }

  /** A simple token, a space, then laid-out tokens: laid together. */
  lemma LaidCons(s: string, i: nat, ts: seq<string>, e: nat)
    requires |ts| > 1 && SimpleToken(ts[0])
    requires i + |ts[0]| < |s| && s[i..i + |ts[0]|] == ts[0] && s[i + |ts[0]|] == ' '
    requires Laid(s, i + |ts[0]| + 1, ts[1..], e)
    ensures Laid(s, i, ts, e)
  {
    LaidStart(s, i + |ts[0]| + 1, ts[1..], e);
  }

  /** Simple tokens joined with spaces fill the text from `i` to its end. */
  lemma {:induction false} JoinLaid(ts: seq<string>, s: string, i: nat)
    requires forall n :: 0 <= n < |ts| ==> SimpleToken(ts[n])
    requires i <= |s| && s[i..] == Join(ts, " ")
    ensures Laid(s, i, ts, |s|)
    decreases |ts|
  {
    if |ts| == 1 {
      assert ts == [ts[0]];
      LaidSingle(s, i, ts[0]);
    } else if |ts| > 1 {
      JoinRest(ts, s, i);
      forall n | 0 <= n < |ts[1..]| ensures SimpleToken(ts[1..][n]) {
        assert ts[1..][n] == ts[n + 1];
      }
      JoinLaid(ts[1..], s, i + |ts[0]| + 1);
      LaidCons(s, i, ts, |s|);
    }
  }

  /** A simple token that ends the text is laid out on its own. */
  lemma LaidSingle(s: string, i: nat, t: string)
    requires SimpleToken(t) && i <= |s| && s[i..] == t
    ensures Laid(s, i, [t], |s|)
  {
    assert s[i..i + |t|] == t;
    assert [t][1..] == [];
    assert Laid(s, i + |t|, [], |s|);
  }

  /** Simple tokens joined with spaces: the first token, a space, then the rest joined. */
  lemma JoinRest(ts: seq<string>, s: string, i: nat)
    requires |ts| > 1 && SimpleToken(ts[1])
    requires i <= |s| && s[i..] == Join(ts, " ")
    ensures i + |ts[0]| < |s| && s[i..i + |ts[0]|] == ts[0] && s[i + |ts[0]|] == ' '
    ensures s[i + |ts[0]| + 1..] == Join(ts[1..], " ")
  {
    var t, rest := ts[0], Join(ts[1..], " ");
    assert |rest| >= |ts[1]| > 0;
    SliceParts(s, i, t, " ", rest);
  }

  /** Laid-out tokens that start the text and hold no comment start what `tokenize` returns; all of it when they fill the text. */
  lemma TokenizeLaid(s: string, ts: seq<string>, e: nat)
    requires Laid(s, 0, ts, e)
    requires forall i :: 0 <= i < |ts| ==> !IsComment(ts[i])
    ensures |ts| <= |Tokenize(s)| && Tokenize(s)[..|ts|] == ts
    ensures e == |s| ==> Tokenize(s) == ts
  {
    ScanLaid(s, 0, ts, e);
    var after := ScanFrom(s, e);
    TokenizeScanned(s, ts, after);
    PrefixAppend(ts, DropComments(after[..|after| - 1]));
    if e == |s| {
      assert after == [""];
      assert after[..|after| - 1] == [];
      assert ts + [] == ts;
    }
  }

  /** When the matches start with comment-free tokens, `tokenize` keeps them in front. */
  lemma TokenizeScanned(s: string, ts: seq<string>, after: seq<string>)
    requires Scan(s) == ts + after && after != []
    requires forall i :: 0 <= i < |ts| ==> !IsComment(ts[i])
    ensures Tokenize(s) == ts + DropComments(after[..|after| - 1])
  {
    DropLastAppend(ts, after);
    DropCommentsAppend(ts, after[..|after| - 1]);
    DropCommentsNone(ts);
  }


  lemma SimpleTokensNotComments(ts: seq<string>)
    requires forall i :: 0 <= i < |ts| ==> SimpleToken(ts[i])
    ensures forall i :: 0 <= i < |ts| ==> !IsComment(ts[i])
  {
    forall i | 0 <= i < |ts| ensures !IsComment(ts[i]) {
      assert ts[i][0] != ';' by {
        if PlainToken(ts[i]) { assert IsPlainChar(ts[i][0]); }
      }
    }
  }

  /** Simple tokens joined with spaces tokenize back to themselves. */
  lemma TokenizeJoin(ts: seq<string>)
    requires forall i :: 0 <= i < |ts| ==> SimpleToken(ts[i])
    ensures Tokenize(Join(ts, " ")) == ts
  {
    var s := Join(ts, " ");
    assert s[0..] == s;
    JoinLaid(ts, s, 0);
    SimpleTokensNotComments(ts);
    TokenizeLaid(s, ts, |s|);
  }

  // ---------------------------------------------------------------------------
  // Integers
  // ---------------------------------------------------------------------------

  lemma {:induction false} DigitsOfNat(n: nat)
    ensures AllDigits(NatToString(n)) && DigitsValue(NatToString(n)) == n
    decreases n
  {
    var s := NatToString(n);
    if n >= 10 {
      DigitsOfNat(n / 10);
      assert s[..|s| - 1] == NatToString(n / 10);
    }
  }

  /** `Number.MAX_SAFE_INTEGER`, 2^53 - 1: up to it every integer is a double, printed in full. */
  const MaxSafeInteger := 0x1F_FFFF_FFFF_FFFF

  /** An integer printed by the host reads back as an integer token with that value. */
  lemma IntTokenRoundTrip(n: int)
    ensures IsIntToken(IntToString(n)) && ParseInteger(IntToString(n)) == n
    ensures PlainToken(IntToString(n))
  {
    var s := IntToString(n);
    if n < 0 {
      DigitsOfNat(-n);
      assert s[1..] == NatToString(-n);
    } else {
      DigitsOfNat(n);
    }
    IntTokenPlain(n);
  }

  lemma IntTokenPlain(n: int)
    ensures PlainToken(IntToString(n))
  {
    var s := IntToString(n);
    forall i | 0 <= i < |s| ensures IsPlainChar(s[i]) {
      assert s[i] == '-' || '0' <= s[i] <= '9';
    }
  }

  // ---------------------------------------------------------------------------
  // Printed forms read back
  // ---------------------------------------------------------------------------

  /**
   * The values whose printed form the reader reads back as the same value:
   * integers the host's doubles hold exactly, booleans, nil, symbols and
   * keywords with plain names, and lists and vectors of these.
   */
  predicate PlainForm(v: Value) {
    match v
    case Num(n) => -MaxSafeInteger <= n <= MaxSafeInteger
    case Bool(_) => true
    case Nil => true
    case Sym(s) => PlainToken(s) && !IsIntToken(s) && s != "true" && s != "false" && s != "nil" && s[0] != ':'
    case Keyword(s) => PlainToken(s) && s[0] == ':'
    case List(xs) => forall i :: 0 <= i < |xs| ==> PlainForm(xs[i])
    case Vector(xs) => forall i :: 0 <= i < |xs| ==> PlainForm(xs[i])
    case _ => false
  }

  /** The tokens of a plain form's printed text. */
  function Toks(v: Value): seq<string>
    requires PlainForm(v)
    decreases v, 1
  {
    match v
    case Num(n) => [IntToString(n)]
    case Bool(b) => [BoolToString(b)]
    case Nil => ["nil"]
    case Sym(s) => [s]
    case Keyword(s) => [s]
    case List(xs) => ["("] + ToksAll(xs) + [")"]
    case Vector(xs) => ["["] + ToksAll(xs) + ["]"]
  }

  function ToksAll(xs: seq<Value>): seq<string>
    requires forall i :: 0 <= i < |xs| ==> PlainForm(xs[i])
    decreases xs, 0
  {
    if xs == [] then [] else Toks(xs[0]) + ToksAll(xs[1..])
  }

  /** The token a plain atom prints as. */
  lemma AtomToken(v: Value)
    requires PlainForm(v) && !v.List? && !v.Vector?
    ensures |Toks(v)| == 1 && PlainToken(Toks(v)[0]) && Show(v) == Ok(Toks(v)[0])
  {
    if v.Num? {
      IntTokenRoundTrip(v.n);
    }
  }

  predicate IsBracket(t: string) {
    t == "(" || t == ")" || t == "[" || t == "]"
  }

  /** Every token of a printed plain form is a plain token or a bracket; it starts with no closer and ends with no opener. */
  lemma {:induction false} ToksShape(v: Value)
    requires PlainForm(v)
    ensures Toks(v) != []
    ensures forall i :: 0 <= i < |Toks(v)| ==> PlainToken(Toks(v)[i]) || IsBracket(Toks(v)[i])
    ensures Toks(v)[0] != ")" && Toks(v)[0] != "]"
    ensures Toks(v)[|Toks(v)| - 1] != "(" && Toks(v)[|Toks(v)| - 1] != "["
    decreases v, 1
  {
    if v.List? || v.Vector? {
      ToksAllShape(v.items);
    } else {
      AtomToken(v);
    }
  }

  lemma {:induction false} ToksAllShape(xs: seq<Value>)
    requires forall i :: 0 <= i < |xs| ==> PlainForm(xs[i])
    ensures forall i :: 0 <= i < |ToksAll(xs)| ==> PlainToken(ToksAll(xs)[i]) || IsBracket(ToksAll(xs)[i])
    ensures xs != [] ==> ToksAll(xs) != [] && ToksAll(xs)[0] != ")" && ToksAll(xs)[0] != "]"
    decreases xs, 0
  {
    if xs != [] {
      ToksShape(xs[0]);
      ToksAllShape(xs[1..]);
    }
  }

  lemma ToksNotComments(v: Value)
    requires PlainForm(v)
    ensures forall i :: 0 <= i < |Toks(v)| ==> !IsComment(Toks(v)[i])
  {
    ToksShape(v);
    forall i | 0 <= i < |Toks(v)| ensures !IsComment(Toks(v)[i]) {
      var t := Toks(v)[i];
      if PlainToken(t) { assert IsPlainChar(t[0]); }
    }
  }

  /** A plain form prints without error, as non-empty text that does not start with '@'. */
  lemma {:induction false} PrintedForm(v: Value)
    requires PlainForm(v)
    ensures Show(v).Ok? && Show(v).value != "" && Show(v).value[0] != '@'
    decreases v, 1
  {
    if v.List? || v.Vector? {
      PrintedForms(v.items);
    } else {
      AtomToken(v);
    }
  }

  lemma {:induction false} PrintedForms(xs: seq<Value>)
    requires forall i :: 0 <= i < |xs| ==> PlainForm(xs[i])
    ensures ShowAll(xs).Ok?
    decreases xs, 0
  {
    if xs != [] {
      PrintedForm(xs[0]);
      PrintedForms(xs[1..]);
    }
  }

  lemma ShowAllFirst(xs: seq<Value>)
    requires xs != [] && Show(xs[0]).Ok? && ShowAll(xs[1..]).Ok?
    ensures ShowAll(xs) == Ok([Show(xs[0]).value] + ShowAll(xs[1..]).value)
    ensures |xs| == 1 ==> Join(ShowAll(xs).value, " ") == Show(xs[0]).value
    ensures |xs| > 1 ==> Join(ShowAll(xs).value, " ") ==
                          Show(xs[0]).value + " " + Join(ShowAll(xs[1..]).value, " ")
  {
    var parts := ShowAll(xs).value;
    assert parts[1..] == ShowAll(xs[1..]).value;
  }

  /** The text between two adjacent printed tokens: nothing after an opener or before a closer, a space otherwise. */
  function Gap(a: string, b: string): string {
    if a == "(" || a == "[" || b == ")" || b == "]" then "" else " "
  }

  /** Tokens written out with the gaps a printed form puts between them. */
  function Spaced(ts: seq<string>): string
    decreases |ts|
  {
    if ts == [] then ""
    else if |ts| == 1 then ts[0]
    else ts[0] + Gap(ts[0], ts[1]) + Spaced(ts[1..])
  }

  lemma {:induction false} SpacedAppend(a: seq<string>, b: seq<string>)
    requires a != [] && b != []
    ensures Spaced(a + b) == Spaced(a) + Gap(a[|a| - 1], b[0]) + Spaced(b)
    decreases |a|
  {
    assert (a + b)[0] == a[0] && (a + b)[1..] == a[1..] + b;
    if |a| > 1 {
      SpacedAppend(a[1..], b);
    }
  }

  /** A plain form prints as its tokens with their gaps. */
  lemma {:induction false} ShowSpaced(v: Value)
    requires PlainForm(v)
    ensures Show(v).Ok? && Show(v).value == Spaced(Toks(v))
    decreases v, 1
  {
    match v
    case List(xs) =>
      ShowsSpaced(xs);
      BracketSpaced("(", ToksAll(xs), ")");
    case Vector(xs) =>
      ShowsSpaced(xs);
      BracketSpaced("[", ToksAll(xs), "]");
    case Num(_) => AtomToken(v);
    case Bool(_) => AtomToken(v);
    case Nil => AtomToken(v);
    case Sym(_) => AtomToken(v);
    case Keyword(_) => AtomToken(v);
  }

  /** Brackets take no gap next to them. */
  lemma BracketSpaced(open: string, ts: seq<string>, close: string)
    requires (open == "(" || open == "[") && (close == ")" || close == "]")
    ensures Spaced([open] + ts + [close]) == open + Spaced(ts) + close
  {
    if ts == [] {
      assert [open] + ts + [close] == [open, close];
    } else {
      SpacedAppend([open], ts);
      SpacedAppend([open] + ts, [close]);
    }
  }

  lemma {:induction false} ShowsSpaced(xs: seq<Value>)
    requires forall i :: 0 <= i < |xs| ==> PlainForm(xs[i])
    ensures ShowAll(xs).Ok? && Join(ShowAll(xs).value, " ") == Spaced(ToksAll(xs))
    decreases xs, 0
  {
    if xs != [] {
      ShowSpaced(xs[0]);
      ShowsSpaced(xs[1..]);
      ShowAllFirst(xs);
      if |xs| == 1 {
        assert xs[1..] == [];
        assert ToksAll(xs) == Toks(xs[0]) + [];
        assert ToksAll(xs) == Toks(xs[0]);
      } else {
        ToksShape(xs[0]);
        ToksAllShape(xs[1..]);
        SpacedAppend(Toks(xs[0]), ToksAll(xs[1..]));
      }
    }
  }

  /** Plain tokens and brackets written out with their gaps at `i` are laid out there. */
  lemma {:induction false} SpacedLaid(ts: seq<string>, s: string, i: nat)
    requires ts != [] && forall k :: 0 <= k < |ts| ==> PlainToken(ts[k]) || IsBracket(ts[k])
    requires i + |Spaced(ts)| <= |s| && s[i..i + |Spaced(ts)|] == Spaced(ts)
    requires i + |Spaced(ts)| == |s| || !IsPlainChar(s[i + |Spaced(ts)|])
    ensures Laid(s, i, ts, i + |Spaced(ts)|)
    decreases |ts|
  {
    if |ts| == 1 {
      LaidOne(s, i, ts);
    } else {
      var n := SpacedRest(ts, s, i);
      TokensTail(ts);
      SpacedLaid(ts[1..], s, n);
      SpacedJoin(ts, s, i, n);
    }
  }

  /** The tokens after the first of plain tokens and brackets are plain tokens and brackets. */
  lemma TokensTail(ts: seq<string>)
    requires ts != [] && forall k :: 0 <= k < |ts| ==> PlainToken(ts[k]) || IsBracket(ts[k])
    ensures forall k :: 0 <= k < |ts[1..]| ==> PlainToken(ts[1..][k]) || IsBracket(ts[1..][k])
  {
    forall k | 0 <= k < |ts[1..]| ensures PlainToken(ts[1..][k]) || IsBracket(ts[1..][k]) {
      assert ts[1..][k] == ts[k + 1];
    }
  }

  /** The tokens after the first of spaced-out tokens are spaced out in the text after the first gap. */
  lemma SpacedRest(ts: seq<string>, s: string, i: nat) returns (n: nat)
    requires |ts| > 1
    requires i + |Spaced(ts)| <= |s| && s[i..i + |Spaced(ts)|] == Spaced(ts)
    requires i + |Spaced(ts)| == |s| || !IsPlainChar(s[i + |Spaced(ts)|])
    ensures n == i + |ts[0]| + |Gap(ts[0], ts[1])|
    ensures n + |Spaced(ts[1..])| == i + |Spaced(ts)|
    ensures s[n..n + |Spaced(ts[1..])|] == Spaced(ts[1..])
    ensures n + |Spaced(ts[1..])| == |s| || !IsPlainChar(s[n + |Spaced(ts[1..])|])
  {
    n := i + |ts[0]| + |Gap(ts[0], ts[1])|;
    SliceParts(s, i, ts[0], Gap(ts[0], ts[1]), Spaced(ts[1..]));
  }

  lemma SpacedJoin(ts: seq<string>, s: string, i: nat, n: nat)
    requires |ts| > 1 && forall k :: 0 <= k < |ts| ==> PlainToken(ts[k]) || IsBracket(ts[k])
    requires i + |Spaced(ts)| <= |s| && s[i..i + |Spaced(ts)|] == Spaced(ts)
    requires n == i + |ts[0]| + |Gap(ts[0], ts[1])| && n + |Spaced(ts[1..])| == i + |Spaced(ts)|
    requires Laid(s, n, ts[1..], n + |Spaced(ts[1..])|)
    ensures Laid(s, i, ts, i + |Spaced(ts)|)
  {
    SpacedStep(ts, s, i);
  }

  /** The first token and its gap in front of the laid-out rest of spaced-out tokens: all of them laid out. */
  lemma SpacedStep(ts: seq<string>, s: string, i: nat)
    requires |ts| > 1 && forall k :: 0 <= k < |ts| ==> PlainToken(ts[k]) || IsBracket(ts[k])
    requires i + |Spaced(ts)| <= |s| && s[i..i + |Spaced(ts)|] == Spaced(ts)
    requires Laid(s, i + |ts[0]| + |Gap(ts[0], ts[1])|, ts[1..], i + |Spaced(ts)|)
    ensures Laid(s, i, ts, i + |Spaced(ts)|)
  {
    SliceParts(s, i, ts[0], Gap(ts[0], ts[1]), Spaced(ts[1..]));
    LaidGap(s, i, ts, i + |Spaced(ts)|);
  }

  /** A single plain token or bracket, found at `i` and not extended by the character after it, is laid out. */
  lemma LaidOne(s: string, i: nat, ts: seq<string>)
    requires |ts| == 1 && (PlainToken(ts[0]) || IsBracket(ts[0]))
    requires i + |ts[0]| <= |s| && s[i..i + |ts[0]|] == ts[0]
    requires i + |ts[0]| == |s| || !IsPlainChar(s[i + |ts[0]|])
    ensures Laid(s, i, ts, i + |ts[0]|)
  {
    assert Laid(s, i + |ts[0]|, ts[1..], i + |ts[0]|);
  }

  /** One token, its gap, then the laid-out tokens after it: laid together. */
  lemma LaidGap(s: string, i: nat, ts: seq<string>, e: nat)
    requires |ts| > 1 && (PlainToken(ts[0]) || IsBracket(ts[0]))
    requires PlainToken(ts[1]) || IsBracket(ts[1])
    requires i + |ts[0]| + |Gap(ts[0], ts[1])| <= e <= |s|
    requires s[i..i + |ts[0]|] == ts[0] && s[i + |ts[0]|..i + |ts[0]| + |Gap(ts[0], ts[1])|] == Gap(ts[0], ts[1])
    requires Laid(s, i + |ts[0]| + |Gap(ts[0], ts[1])|, ts[1..], e)
    ensures Laid(s, i, ts, e)
  {
    var t, m := ts[0], i + |ts[0]|;
    var n := m + |Gap(t, ts[1])|;
    LaidStart(s, n, ts[1..], e);
    if Gap(t, ts[1]) == " " {
      assert s[m] == s[m..n][0];
      LaidCons(s, i, ts, e);
    } else {
      assert s[m] == ts[1][0];
      if IsBracket(ts[1]) {
        assert !IsPlainChar(s[m]);
      }
      LaidAdjacent(s, i, ts, e);
    }
  }

  /** A token followed directly, with no space, by laid-out tokens that it cannot run into. */
  lemma LaidAdjacent(s: string, i: nat, ts: seq<string>, e: nat)
    requires |ts| > 1 && SimpleToken(ts[0]) && ts[0] != "~"
    requires i + |ts[0]| < e <= |s| && s[i..i + |ts[0]|] == ts[0] && s[i + |ts[0]|] != ' '
    requires PlainToken(ts[0]) ==> !IsPlainChar(s[i + |ts[0]|])
    requires Laid(s, i + |ts[0]|, ts[1..], e)
    ensures Laid(s, i, ts, e)
  {
    assert NextStart(s, i + |ts[0]|, ts[1..], e) == i + |ts[0]|;
  }

  /** A printed plain form found at `i` lays out its tokens, when the text after it cannot extend its last token. */
  lemma ShowLaid(v: Value, s: string, i: nat)
    requires PlainForm(v)
    requires Show(v).Ok? && i + |Show(v).value| <= |s| && s[i..i + |Show(v).value|] == Show(v).value
    requires i + |Show(v).value| == |s| || !IsPlainChar(s[i + |Show(v).value|])
    ensures Laid(s, i, Toks(v), i + |Show(v).value|)
  {
    ShowSpaced(v);
    ToksShape(v);
    SpacedLaid(Toks(v), s, i);
  }

  /** A plain atom's token at position `pos` reads as the atom. */
  lemma ParseAtomToken(v: Value, toks: seq<string>, pos: nat)
    requires PlainForm(v) && !v.List? && !v.Vector?
    requires pos < |toks| && toks[pos] == Toks(v)[0]
    ensures ParseForm(toks, pos) == Ok((v, pos + 1))
  {
    AtomToken(v);
    var t := toks[pos];
    assert Closer(t).None? && PrefixName(t).None? by {
      assert !IsSpecial(t[0]);
    }
    match v
    case Num(n) =>
      IntTokenRoundTrip(n);
    case Bool(b) =>
      assert !AllDigits(t) by { assert t[0] == 't' || t[0] == 'f'; }
    case Nil =>
      assert !AllDigits(t) by { assert t[0] == 'n'; }
    case Sym(s) =>
      assert t[0] != '"' && t[0] != '@' by { assert IsPlainChar(t[0]); }
    case Keyword(s) =>
  }

  /** An opening bracket followed by a delimited sequence reads as the collection of its forms. */
  lemma ParseBracketed(toks: seq<string>, pos: nat, xs: seq<Value>, next: nat)
    requires pos < |toks| && (toks[pos] == "(" || toks[pos] == "[")
    requires ParseSeq(toks, pos + 1, Closer(toks[pos]).value, []) == Ok((xs, next))
    ensures ParseForm(toks, pos) == Ok((Collection(toks[pos], xs), next))
  {
  }

  /** A plain form's tokens, found at position `pos`, parse back to the form. */
  lemma {:induction false} ParseToks(v: Value, toks: seq<string>, pos: nat)
    requires PlainForm(v)
    requires pos + |Toks(v)| <= |toks| && toks[pos..pos + |Toks(v)|] == Toks(v)
    ensures ParseForm(toks, pos) == Ok((v, pos + |Toks(v)|))
    decreases v, 2
  {
    match v
    case List(xs) => ParseBracketToks(xs, toks, pos, "(", ")");
    case Vector(xs) => ParseBracketToks(xs, toks, pos, "[", "]");
    case Num(_) => ParseAtomAt(v, toks, pos);
    case Bool(_) => ParseAtomAt(v, toks, pos);
    case Nil => ParseAtomAt(v, toks, pos);
    case Sym(_) => ParseAtomAt(v, toks, pos);
    case Keyword(_) => ParseAtomAt(v, toks, pos);
  }

  lemma ParseAtomAt(v: Value, toks: seq<string>, pos: nat)
    requires PlainForm(v) && !v.List? && !v.Vector?
    requires pos + |Toks(v)| <= |toks| && toks[pos..pos + |Toks(v)|] == Toks(v)
    ensures ParseForm(toks, pos) == Ok((v, pos + |Toks(v)|))
  {
    AtomToken(v);
    assert toks[pos] == toks[pos..pos + |Toks(v)|][0];
    ParseAtomToken(v, toks, pos);
  }

  /** The tokens of a printed list or vector parse back to it. */
  lemma {:induction false} ParseBracketToks(xs: seq<Value>, toks: seq<string>, pos: nat, open: string, close: string)
    requires (open, close) == ("(", ")") || (open, close) == ("[", "]")
    requires forall i :: 0 <= i < |xs| ==> PlainForm(xs[i])
    requires var ts := [open] + ToksAll(xs) + [close];
             pos + |ts| <= |toks| && toks[pos..pos + |ts|] == ts
    ensures ParseForm(toks, pos) == Ok((Collection(open, xs), pos + |ToksAll(xs)| + 2))
    decreases xs, 3
  {
    BracketParts(toks, pos, open, ToksAll(xs), close);
    ParseSeqToks(xs, toks, pos + 1, close, []);
    assert [] + xs == xs;
    ParseBracketed(toks, pos, xs, pos + |ToksAll(xs)| + 2);
  }

  /** Where the parts of a bracketed token sequence lie: the opener, the inner tokens, the closer. */
  lemma BracketParts(toks: seq<string>, pos: nat, open: string, ts: seq<string>, close: string)
    requires (open, close) == ("(", ")") || (open, close) == ("[", "]")
    requires pos + |ts| + 2 <= |toks| && toks[pos..pos + |ts| + 2] == [open] + ts + [close]
    ensures toks[pos] == open && Closer(open) == Some(close)
    ensures toks[pos + 1..pos + 1 + |ts|] == ts && toks[pos + 1 + |ts|] == close
  {
    SliceParts(toks, pos, [open], ts, [close]);
    assert toks[pos] == toks[pos..pos + 1][0];
    assert toks[pos + 1 + |ts|] == toks[pos + 1 + |ts|..pos + |ts| + 2][0];
  }


  lemma ParseSeqStep(toks: seq<string>, pos: nat, close: string, acc: seq<Value>, v: Value, next: nat)
    requires pos < |toks| && toks[pos] != close
    requires ParseForm(toks, pos) == Ok((v, next))
    ensures ParseSeq(toks, pos, close, acc) == ParseSeq(toks, next, close, acc + [v])
  {
  }

  lemma {:induction false} ParseSeqToks(xs: seq<Value>, toks: seq<string>, pos: nat, close: string, acc: seq<Value>)
    requires forall i :: 0 <= i < |xs| ==> PlainForm(xs[i])
    requires close == ")" || close == "]"
    requires pos + |ToksAll(xs)| < |toks| && toks[pos..pos + |ToksAll(xs)|] == ToksAll(xs)
    requires toks[pos + |ToksAll(xs)|] == close
    ensures ParseSeq(toks, pos, close, acc) == Ok((acc + xs, pos + |ToksAll(xs)| + 1))
    decreases xs, 2
  {
    if xs == [] {
      assert acc + xs == acc;
    } else {
      var next, restToks := ParseSeqTail(xs, toks, pos, close);
      ParseSeqToks(xs[1..], toks, next, close, acc + [xs[0]]);
      ParseSeqHead(xs, toks, pos, close, acc, next, next + |restToks| + 1);
    }
  }

  /** The elements after the first, and their tokens, meet what `ParseSeqToks` asks of them. */
  lemma ParseSeqTail(xs: seq<Value>, toks: seq<string>, pos: nat, close: string) returns (next: nat, restToks: seq<string>)
    requires xs != [] && forall i :: 0 <= i < |xs| ==> PlainForm(xs[i])
    requires close == ")" || close == "]"
    requires pos + |ToksAll(xs)| < |toks| && toks[pos..pos + |ToksAll(xs)|] == ToksAll(xs)
    requires toks[pos + |ToksAll(xs)|] == close
    decreases xs, 1
    ensures forall i :: 0 <= i < |xs[1..]| ==> PlainForm(xs[1..][i])
    ensures next == pos + |Toks(xs[0])| && restToks == ToksAll(xs[1..])
    ensures next + |restToks| == pos + |ToksAll(xs)|
    ensures toks[next..next + |restToks|] == restToks
    ensures toks[next + |restToks|] == close
  {
    var first, rest := ToksAllCons(xs, toks, pos);
    next, restToks := pos + |first|, rest;
  }

  /** The elements after the first of plain forms are plain forms. */
  lemma PlainTail(xs: seq<Value>)
    requires xs != [] && forall i :: 0 <= i < |xs| ==> PlainForm(xs[i])
    ensures forall i :: 0 <= i < |xs[1..]| ==> PlainForm(xs[1..][i])
  {
    forall i | 0 <= i < |xs[1..]| ensures PlainForm(xs[1..][i]) {
      assert xs[1..][i] == xs[i + 1];
    }
  }

  /** Reading the first form, then the rest of the sequence as the tail of `xs`, reads all of `xs`. */
  lemma ParseSeqHead(xs: seq<Value>, toks: seq<string>, pos: nat, close: string, acc: seq<Value>, next: nat, end: nat)
    requires xs != [] && forall i :: 0 <= i < |xs| ==> PlainForm(xs[i])
    requires close == ")" || close == "]"
    requires pos + |ToksAll(xs)| < |toks| && toks[pos..pos + |ToksAll(xs)|] == ToksAll(xs)
    requires next == pos + |Toks(xs[0])| && end == pos + |ToksAll(xs)| + 1
    requires ParseSeq(toks, next, close, acc + [xs[0]]) == Ok((acc + [xs[0]] + xs[1..], end))
    ensures ParseSeq(toks, pos, close, acc) == Ok((acc + xs, end))
    decreases xs, 1
  {
    ParseFirstToks(xs, toks, pos, close, next);
    ParseSeqCons(toks, pos, close, acc, xs[0], next, xs[1..], end);
    assert [xs[0]] + xs[1..] == xs;
  }

  /** The first of several printed forms, found at `pos`, reads back and is not a closing bracket. */
  lemma ParseFirstToks(xs: seq<Value>, toks: seq<string>, pos: nat, close: string, next: nat)
    requires xs != [] && forall i :: 0 <= i < |xs| ==> PlainForm(xs[i])
    requires close == ")" || close == "]"
    requires pos + |ToksAll(xs)| <= |toks| && toks[pos..pos + |ToksAll(xs)|] == ToksAll(xs)
    requires next == pos + |Toks(xs[0])|
    ensures pos < next && toks[pos] != close && ParseForm(toks, pos) == Ok((xs[0], next))
    decreases xs, 0
  {
    var first, rest := ToksAllCons(xs, toks, pos);
    ParseFirstForm(xs[0], toks, pos, first, next);
  }

  /** A plain form's tokens `first`, found at `pos`, read back as the form and end at `next`. */
  lemma ParseFirstForm(v: Value, toks: seq<string>, pos: nat, first: seq<string>, next: nat)
    requires PlainForm(v) && first == Toks(v) && next == pos + |first|
    requires next <= |toks| && toks[pos..next] == first && first != []
    ensures pos < next && ParseForm(toks, pos) == Ok((v, next))
    decreases v, 3
  {
    ParseToks(v, toks, pos);
  }

  /** The tokens of a non-empty list of forms: those of the first form, then the rest; the first is no closer. */
  lemma ToksAllCons(xs: seq<Value>, toks: seq<string>, pos: nat) returns (first: seq<string>, rest: seq<string>)
    requires xs != [] && forall i :: 0 <= i < |xs| ==> PlainForm(xs[i])
    requires pos + |ToksAll(xs)| <= |toks| && toks[pos..pos + |ToksAll(xs)|] == ToksAll(xs)
    ensures PlainForm(xs[0]) && forall i :: 0 <= i < |xs[1..]| ==> PlainForm(xs[1..][i])
    ensures first == Toks(xs[0]) && rest == ToksAll(xs[1..]) && first != []
    ensures |ToksAll(xs)| == |first| + |rest|
    ensures toks[pos..pos + |first|] == first
    ensures toks[pos + |first|..pos + |first| + |rest|] == rest
    ensures toks[pos] != ")" && toks[pos] != "]"
  {
    ToksAllUnfold(xs);
    FirstToken(xs[0]);
    first, rest := Toks(xs[0]), ToksAll(xs[1..]);
    TokensSplitWhole(toks, pos, ToksAll(xs), first, rest);
  }

  lemma TokensSplitWhole(toks: seq<string>, pos: nat, whole: seq<string>, first: seq<string>, rest: seq<string>)
    requires whole == first + rest && first != [] && first[0] != ")" && first[0] != "]"
    requires pos + |whole| <= |toks| && toks[pos..pos + |whole|] == whole
    ensures |whole| == |first| + |rest|
    ensures toks[pos..pos + |first|] == first
    ensures toks[pos + |first|..pos + |first| + |rest|] == rest
    ensures toks[pos] != ")" && toks[pos] != "]"
  {
    TokensSplit(toks, pos, first, rest);
  }

  lemma ToksAllUnfold(xs: seq<Value>)
    requires xs != [] && forall i :: 0 <= i < |xs| ==> PlainForm(xs[i])
    ensures PlainForm(xs[0]) && forall i :: 0 <= i < |xs[1..]| ==> PlainForm(xs[1..][i])
    ensures ToksAll(xs) == Toks(xs[0]) + ToksAll(xs[1..])
  {
    PlainTail(xs);
  }

  /** A printed plain form has a first token, and it is no closer. */
  lemma FirstToken(v: Value)
    requires PlainForm(v)
    ensures Toks(v) != [] && Toks(v)[0] != ")" && Toks(v)[0] != "]"
  {
    ToksShape(v);
  }

  /** Tokens found at `pos` that are `first` then `rest`: each part is where it should be. */
  lemma TokensSplit(toks: seq<string>, pos: nat, first: seq<string>, rest: seq<string>)
    requires first != [] && first[0] != ")" && first[0] != "]"
    requires pos + |first| + |rest| <= |toks| && toks[pos..pos + |first| + |rest|] == first + rest
    ensures toks[pos..pos + |first|] == first
    ensures toks[pos + |first|..pos + |first| + |rest|] == rest
    ensures toks[pos] != ")" && toks[pos] != "]"
  {
    SliceParts(toks, pos, first, rest, []);
    assert toks[pos] == first[0];
  }

  /** One form read inside a delimited sequence, then the rest of it. */
  lemma ParseSeqCons(toks: seq<string>, pos: nat, close: string, acc: seq<Value>, v: Value, next: nat, xs: seq<Value>, end: nat)
    requires pos < next <= |toks| && toks[pos] != close && ParseForm(toks, pos) == Ok((v, next))
    requires ParseSeq(toks, next, close, acc + [v]) == Ok((acc + [v] + xs, end))
    ensures ParseSeq(toks, pos, close, acc) == Ok((acc + ([v] + xs), end))
  {
    assert acc + [v] + xs == acc + ([v] + xs);
  }



  /**
   * The reader reads a printed plain form back as the same value, and reads
   * only the first form: any text after it is ignored.
   */
  lemma ReadShow(v: Value, rest: string)
    requires PlainForm(v)
    requires rest == "" || !IsPlainChar(rest[0])
    ensures Show(v).Ok?
    ensures Read(Show(v).value + rest) == Ok(v)
  {
    ShowLaidBefore(v, rest);
    ReadLaid(Show(v).value + rest, v, |Show(v).value|);
  }

  /** A printed plain form followed by text that cannot extend its last token lays out its tokens. */
  lemma ShowLaidBefore(v: Value, rest: string)
    requires PlainForm(v)
    requires rest == "" || !IsPlainChar(rest[0])
    ensures Show(v).Ok?
    ensures Laid(Show(v).value + rest, 0, Toks(v), |Show(v).value|)
  {
    PrintedForm(v);
    var text := Show(v).value;
    var s := text + rest;
    PrefixAppend(text, rest);
    assert |text| < |s| ==> s[|text|] == rest[0];
    ShowLaid(v, s, 0);
  }

  /** Text that starts with the laid-out tokens of a plain form reads as that form. */
  lemma ReadLaid(s: string, v: Value, e: nat)
    requires PlainForm(v) && Laid(s, 0, Toks(v), e)
    ensures Read(s) == Ok(v)
  {
    ToksNotComments(v);
    TokenizeLaid(s, Toks(v), e);
    var toks := Tokenize(s);
    assert toks[0..|Toks(v)|] == toks[..|Toks(v)|];
    ParseToks(v, toks, 0);
  }


  lemma TokenizePrefixed(v: Value, prefix: string)
    requires PlainForm(v) && PrefixName(prefix).Some?
    ensures Show(v).Ok?
    ensures Tokenize(prefix + Show(v).value) == [prefix] + Toks(v)
  {
    PrefixedLaid(v, prefix);
    ToksNotComments(v);
    PrefixNotComment([prefix], Toks(v));
    TokenizeLaid(prefix + Show(v).value, [prefix] + Toks(v), |prefix + Show(v).value|);
  }

  /** A reader-macro prefix in front of a printed plain form: the prefix, then the form's tokens, laid out. */
  lemma PrefixedLaid(v: Value, prefix: string)
    requires PlainForm(v) && PrefixName(prefix).Some?
    ensures Show(v).Ok?
    ensures Laid(prefix + Show(v).value, 0, [prefix] + Toks(v), |prefix + Show(v).value|)
  {
    PrintedForm(v);
    var body := Show(v).value;
    var s := prefix + body;
    SuffixSlice(prefix, body);
    ShowLaid(v, s, |prefix|);
    PrefixedLaidText(prefix, body, Toks(v));
  }

  /** The text half of `PrefixedLaid`: the prefix is laid out in front of the body's tokens. */
  lemma PrefixedLaidText(prefix: string, body: string, toks: seq<string>)
    requires PrefixName(prefix).Some? && body != "" && body[0] != '@'
    requires Laid(prefix + body, |prefix|, toks, |prefix| + |body|)
    ensures Laid(prefix + body, 0, [prefix] + toks, |prefix + body|)
  {
    assert |prefix + body| == |prefix| + |body|;
    LaidPrefix(prefix, body);
    LaidAppend(prefix + body, 0, [prefix], |prefix|, toks, |prefix + body|);
  }

  /** A reader-macro prefix in front of text that does not start with '@' is laid out as one token. */
  lemma LaidPrefix(prefix: string, body: string)
    requires PrefixName(prefix).Some? && body != "" && body[0] != '@'
    ensures Laid(prefix + body, 0, [prefix], |prefix|)
  {
    var s := prefix + body;
    assert s[0..|prefix|] == prefix;
    assert s[|prefix|] == body[0];
    assert Laid(s, |prefix|, [], |prefix|);
  }

  lemma PrefixNotComment(a: seq<string>, b: seq<string>)
    requires |a| == 1 && a[0] != "" && a[0][0] != ';'
    requires forall i :: 0 <= i < |b| ==> !IsComment(b[i])
    ensures forall i :: 0 <= i < |a + b| ==> !IsComment((a + b)[i])
  {
  }


  /** A reader-macro prefix in front of a form reads as the two-element list of its symbol and the form. */
  lemma ReadPrefix(v: Value, prefix: string)
    requires PlainForm(v) && PrefixName(prefix).Some?
    ensures Show(v).Ok?
    ensures Read(prefix + Show(v).value) == Ok(List([Sym(PrefixName(prefix).value), v]))
  {
    TokenizePrefixed(v, prefix);
    PrefixedToks(v, prefix);
    ReadTokens(prefix + Show(v).value, [prefix] + Toks(v), List([Sym(PrefixName(prefix).value), v]));
  }

  /** The tokens of a reader-macro prefix and a plain form parse as the two-element list. */
  lemma PrefixedToks(v: Value, prefix: string)
    requires PlainForm(v) && PrefixName(prefix).Some?
    ensures ParseForm([prefix] + Toks(v), 0).Ok?
    ensures ParseForm([prefix] + Toks(v), 0).value.0 == List([Sym(PrefixName(prefix).value), v])
  {
    var toks := [prefix] + Toks(v);
    assert toks[1..1 + |Toks(v)|] == Toks(v);
    ParseToks(v, toks, 1);
    ParsePrefixed(toks, v, |toks|);
  }

  /** Text whose tokens parse as a form reads as that form. */
  lemma ReadTokens(s: string, toks: seq<string>, v: Value)
    requires Tokenize(s) == toks && ParseForm(toks, 0).Ok? && ParseForm(toks, 0).value.0 == v
    ensures Read(s) == Ok(v)
  {
  }

  /** A prefix token followed by a form reads as the two-element list of the prefix's symbol and the form. */
  lemma ParsePrefixed(toks: seq<string>, v: Value, next: nat)
    requires 1 <= |toks| && PrefixName(toks[0]).Some? && ParseForm(toks, 1) == Ok((v, next))
    ensures ParseForm(toks, 0) == Ok((List([Sym(PrefixName(toks[0]).value), v]), next))
  {
    PrefixNotCloser(toks[0]);
  }

  lemma PrefixNotCloser(t: string)
    requires PrefixName(t).Some?
    ensures Closer(t).None?
  {
    assert t[0] != '(' && t[0] != '[' && t[0] != '{';
  }


  // ---------------------------------------------------------------------------
  // Delimiters
  // ---------------------------------------------------------------------------

  /** A delimited sequence that is read successfully ends with its closing token, and keeps the forms read before. */
  lemma {:induction false} SeqEndsWithCloser(toks: seq<string>, pos: nat, close: string, acc: seq<Value>)
    requires pos <= |toks| && ParseSeq(toks, pos, close, acc).Ok?
    ensures var (xs, next) := ParseSeq(toks, pos, close, acc).value;
            toks[next - 1] == close && |acc| <= |xs| && xs[..|acc|] == acc
    decreases |toks| - pos
  {
    if pos < |toks| && toks[pos] == close {
    } else {
      var (v, next) := ParseForm(toks, pos).value;
      SeqEndsWithCloser(toks, next, close, acc + [v]);
      var xs := ParseSeq(toks, next, close, acc + [v]).value.0;
      assert xs[..|acc|] == (xs[..|acc| + 1])[..|acc|];
    }
  }

  /**
   * '(' , '[' and '{' read the forms up to the matching ')' , ']' and '}'
   * into a list, vector or hash map; both delimiters are consumed.
   */
  lemma DelimitedForm(toks: seq<string>, pos: nat)
    requires pos < |toks| && Closer(toks[pos]).Some? && ParseForm(toks, pos).Ok?
    ensures var (v, next) := ParseForm(toks, pos).value;
            && toks[next - 1] == Closer(toks[pos]).value
            && (toks[pos] == "(" ==> v.List?)
            && (toks[pos] == "[" ==> v.Vector?)
            && (toks[pos] == "{" ==> v.HashMap?)
  {
    SeqEndsWithCloser(toks, pos + 1, Closer(toks[pos]).value, []);
  }

  /** A token the reader turns into a form without throwing: a bracket, or a plain token. */
  predicate ReadableToken(t: string) {
    PlainToken(t) || t in {"(", ")", "[", "]", "{", "}"}
  }

  lemma ReadableAtom(t: string)
    requires ReadableToken(t) && Closer(t).None?
    ensures PrefixName(t).None? && Atom(Some(t)).Ok?
  {
    if PlainToken(t) {
      assert !IsSpecial(t[0]);
      assert t[0] != '"' && t[0] != '@';
    }
  }

  /** Over brackets and plain tokens, a form is read or the reader throws "unbalanced"; nothing else can go wrong. */
  lemma {:induction false} FormFailsOnlyUnbalanced(toks: seq<string>, pos: nat)
    requires pos < |toks|
    requires forall i :: pos <= i < |toks| ==> ReadableToken(toks[i])
    ensures ParseForm(toks, pos).Ok? || ParseForm(toks, pos) == Err(Thrown("unbalanced"))
    decreases |toks| - pos, 1
  {
    var t := toks[pos];
    if Closer(t).Some? {
      SeqFailsOnlyUnbalanced(toks, pos + 1, Closer(t).value, []);
    } else {
      ReadableAtom(t);
    }
  }

  /** The same for the forms of a delimited sequence. */
  lemma {:induction false} SeqFailsOnlyUnbalanced(toks: seq<string>, pos: nat, close: string, acc: seq<Value>)
    requires pos <= |toks|
    requires forall i :: pos <= i < |toks| ==> ReadableToken(toks[i])
    ensures ParseSeq(toks, pos, close, acc).Ok? || ParseSeq(toks, pos, close, acc) == Err(Thrown("unbalanced"))
    decreases |toks| - pos, 2
  {
    if pos < |toks| && toks[pos] != close {
      FormFailsOnlyUnbalanced(toks, pos);
      if ParseForm(toks, pos).Ok? {
        var (v, next) := ParseForm(toks, pos).value;
        SeqFailsOnlyUnbalanced(toks, next, close, acc + [v]);
      }
    }
  }

  /**
   * A delimited sequence whose closing token never comes throws "unbalanced",
   * however its brackets nest, as long as every token is a bracket or plain.
   */
  lemma Unbalanced(toks: seq<string>, pos: nat, close: string, acc: seq<Value>)
    requires pos <= |toks|
    requires forall i :: pos <= i < |toks| ==> ReadableToken(toks[i]) && toks[i] != close
    ensures ParseSeq(toks, pos, close, acc) == Err(Thrown("unbalanced"))
  {
    SeqFailsOnlyUnbalanced(toks, pos, close, acc);
    if ParseSeq(toks, pos, close, acc).Ok? {
      SeqEndsWithCloser(toks, pos, close, acc);
      assert false;
    }
  }

  /** Whatever the tokens, a delimited sequence whose closing token never comes is not read. */
  lemma NoCloserFails(toks: seq<string>, pos: nat, close: string, acc: seq<Value>)
    requires pos <= |toks|
    requires forall i :: pos <= i < |toks| ==> toks[i] != close
    ensures ParseSeq(toks, pos, close, acc).Err?
  {
    if ParseSeq(toks, pos, close, acc).Ok? {
      SeqEndsWithCloser(toks, pos, close, acc);
      assert false;
    }
  }

}
