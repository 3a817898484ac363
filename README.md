# dlisp — a model of the JavaScript mal interpreter

This project models the JavaScript implementation of mal ("Make a Lisp")
in `impls/dlisp`. It covers the parts that turn text into values and
evaluate them, step by step. The model is written in Dafny.

- **Values** (`types.dfy`, module `Types`). A single `Value` datatype covers
  every JavaScript value the interpreter handles:
  - the host's own values: `undefined`, `null`, numbers (integers only),
    booleans, strings and arrays;
  - the Mal classes: symbol, keyword, string, boolean, nil, list, vector,
    hash map and function;
  - the host functions: the primitives of `core.js` and the step-4 closures.

  The `.value` field of every Mal class, its `toString`, and the `isEqual`
  methods are functions over that datatype.
- **Equality** (`is_equal.dfy`). This is the deep equality of `isEqual.js`
  over arrays, built on the host's `===`. Two objects with equal contents
  may or may not be one object. The model does not decide that question
  and reports it as open.
- **Environments** (`env.dfy`, `frames.dfy`).
  - `env.dfy` models the `Env` class as a class with a table and an outer
    link.
  - The evaluators keep their environments in a store: a sequence of frames,
    each with a table and the index of its outer frame. `frames.dfy` proves
    that `set`, `find` and `get` behave the same way on that store.
- **Reader** (`reader.dfy`, `reader_props.dfy`).
  - `tokenize` and its regular expression are modelled as a position-based
    scanner.
  - The `Reader` class, `read_atom`, `read_seq`, `read_form` and `read_str`
    are modelled as methods. Each method is proved equal to a parsing
    function.
  - The parsing function is proved to read back the printed form of
    symbols, keywords, integers, booleans, nil, lists and vectors.
- **Core primitives** (`core.dfy`): the `ns` table of `core.js` and the
  inline primitives of steps 3 and 4.
- **Evaluators** (`step3.dfy`, `step4.dfy`, `step6.dfy`, `step8.dfy`,
  `step8_props.dfy`, `quasiquote.dfy`).
  - Steps 3 and 4 evaluate recursively.
  - Steps 6 and 8 run a `while (true)` loop with tail calls. The loop is a
    method that is proved equal to the evaluation function `EvalF`.
  - Step 8 adds `defmacro!`, macro expansion (a loop, also modelled as a
    method) and the quasiquote forms.
  - The evaluators are functions of the store and return an `Exec`: either a
    value or the thrown error, together with the store as the evaluation
    left it. A throw therefore keeps the writes made before it.
  - Every evaluator takes a fuel argument. Running out of fuel answers
    `OutOfFuel`.

The model follows the code where the code and its evident design disagree:

- `createMalString` is not exported by `types.js`, so every string literal
  makes the reader throw a TypeError. The start-up definition of `load-file`
  in steps 6 and 8 holds string literals and is read outside any `try`, so
  as written those two steps stop at start-up (see "Findings").
- `new Env(outer, binds, exprs)` ignores its last two arguments. As a
  result, steps 6 and 8 never bind a function's parameters.
- A macro made with `fn*` is a MalFunction. A MalFunction has no `apply`,
  so expanding a call to it throws.
- `cons`, `concat` and `vec` are not defined in `ns`, so evaluating the
  rewrite of a quasiquote that contains a sequence throws "cons not found".
- The test of `if` differs from step to step:
  - in step 4, `nil` and the number 0 pass it;
  - in step 6, the number 0 fails it;
  - in step 8, a raw `false` returned by `<` passes it.

Two outright defects are logged under "Findings": `quasiquote` and the
missing `createMalString`. The evaluator of step 8 uses the corrected
`quasiquote` rewrite. The reader keeps the code's behaviour on string
literals, and the intended reading of them is modelled beside it.

## Model

| member | source | states |
|---|---|---|
| Types.At | impls/dlisp/step8_macros.js:59 | Indexing an array gives its element inside the bounds and `undefined` past its end. |
| Types.FieldOf | impls/dlisp/types.js:1-4 | Reading `.value` throws exactly on `undefined` and `null`. Host values and functions have no `.value` (`undefined`). |
| Types.LengthOf | impls/dlisp/core.js:23 | `.length` gives a number only for strings and arrays. |
| Types.LengthBound | impls/dlisp/step3_env.js:57 | The loop bound `bindings.length` of an array is its number of elements. |
| Types.Join | impls/dlisp/types.js:34 | `join` of no parts is empty, and of one part is that part; the result is never shorter than its first part. |
| Types.DropLastChar | impls/dlisp/types.js:131 | `slice(0, -1)` gives the string that, followed by the last character, is the original; the empty string stays empty. |
| Types.JsToString | impls/dlisp/types.js:119-124 | A template literal renders a host string as itself and a symbol as its name. |
| Types.ShowAll | impls/dlisp/types.js:34 | `map(x => x.toString())` gives one rendering per element. |
| Types.DisplayAll | impls/dlisp/types.js:119-124 | `map(this.#displayObject)` gives one rendering per element. |
| Types.ToPrimitive | impls/dlisp/types.js:65-75 | Converting an object to a primitive always yields a primitive. A MalBoolean gives its boolean and MalNil gives "nil". |
| Types.LooselyNil | impls/dlisp/step6_file.js:52 | `x != "nil"`: a host string compares its text. Numbers, booleans, `undefined`, `null` and MalBoolean never equal "nil"; MalNil does. |
| Types.Trim | impls/dlisp/step6_file.js:52 | Trimming never lengthens a string and leaves no white space at either end. |
| Types.StringIsZero | impls/dlisp/step6_file.js:52 | A blank string converts to 0. A string holding a character that cannot appear in a number does not. |
| Types.LooselyFalse | impls/dlisp/step6_file.js:52 | `x != false`: `undefined` and `null` differ from `false`. A number equals it exactly when it is 0; a boolean, and a MalBoolean through its value, exactly when they are false. |
| Types.SliceFrom | impls/dlisp/step8_macros.js:98 | `slice(k)` drops the first `k` elements, or gives an empty array past the end. |
| Types.ListIsEmpty | impls/dlisp/types.js:25-27 | `isEmpty` holds exactly when the list has no elements. |
| TypeProperties.ConstructorsStoreValue | impls/dlisp/types.js:101-106 | Every constructor stores its argument as `.value`. MalNil stores `null`. A MalFunction keeps its body as `.value`, next to `binds` and `env`. |
| TypeProperties.ShowAllElementwise | impls/dlisp/types.js:34 | Rendering the elements succeeds exactly when each element renders, and keeps each rendering in place. |
| TypeProperties.ListAndVectorShow | impls/dlisp/types.js:33-49 | A list renders exactly when all its elements do. Its text is in parentheses. A vector renders the same text in brackets. |
| TypeProperties.ShowPair | impls/dlisp/types.js:33-35 | A two-element list prints both renderings separated by one space, in parentheses. |
| TypeProperties.FixedRenderings | impls/dlisp/types.js:60-62 | MalNil prints "nil" and every MalFunction prints "#<function>". Empty collections print "()", "[]" and "{}". |
| Types.DisplayObject | impls/dlisp/types.js:119-124 | At an odd index an element prints as its `toString` followed by a comma, and fails when that fails; at an even index it prints as `join` would render it, with `undefined` and `null` as the empty string. |
| TypeProperties.HashMapParts | impls/dlisp/types.js:119-124 | For any element list and starting index, the renderings succeed exactly when every element's `#displayObject` succeeds, and element `i` gets the rendering for its own index `k + i`. |
| TypeProperties.JoinDropLast | impls/dlisp/types.js:131 | `slice(0, -1)` on a joined text takes the last character off the last part alone. |
| TypeProperties.HashMapShow | impls/dlisp/types.js:130-132 | Any MalHashMap prints exactly when all its elements do. With an even number of elements it prints as the elements' renderings joined by spaces in braces, with a comma after each odd-indexed element except the last. With an odd number, the last element's own text loses its last character. |
| TypeProperties.HashMapFourSymbols | impls/dlisp/types.js:119-132 | `{a b c d}` prints as "{a b, c d}". |
| TypeProperties.MethodIsEqualCases | impls/dlisp/types.js:15-127 | MalKeyword and MalString answer true exactly for the same class with the same value. MalSymbol, MalList, MalVector and MalBoolean compare `.value` with the other object itself, so they never answer true. MalNil's method names the undefined `Malnil` and throws. |
| JsEquality.StrictEquals | impls/dlisp/isEqual.js:8 | `===` says "different" exactly when the two values differ structurally. The open case arises only for equal contents without identity. |
| JsEquality.IsEqual | impls/dlisp/isEqual.js:6-24 | When either side is not an array, the answer is `===`. Arrays of different lengths are unequal. |
| JsEquality.AllEqualYes | impls/dlisp/isEqual.js:18-23 | For arrays of the same length, the loop answers "equal" exactly when every same-index pair is equal. |
| JsEquality.AllEqualNo | impls/dlisp/isEqual.js:18-23 | For arrays of the same length, the loop answers "unequal" exactly when some same-index pair is unequal. |
| JsEquality.ArraysEqualIffPairwise | impls/dlisp/isEqual.js:14-23 | Two arrays of the same length are equal exactly when every same-index pair is equal. |
| JsEquality.IsEqualNoIffDifferent | impls/dlisp/isEqual.js:6-24 | Deep equality says "unequal" exactly when the two values differ structurally. |
| JsEquality.AllEqualNoIffDifferent | impls/dlisp/isEqual.js:18-23 | The loop says "unequal" exactly when the element sequences differ. |
| JsEquality.IsEqualSymmetric | impls/dlisp/isEqual.js:6-24 | Deep equality gives the same answer with its arguments swapped. |
| JsEquality.AllEqualSymmetric | impls/dlisp/isEqual.js:18-23 | The loop gives the same answer with its arguments swapped. |
| JsEquality.PlainDataEqualsCopy | impls/dlisp/isEqual.js:6-24 | Nested arrays of primitives are equal to themselves, with no identity question left open. |
| JsEquality.PlainElemsEqual | impls/dlisp/isEqual.js:18-23 | The loop finds sequences of such arrays equal to themselves. |
| Environment.KeyOf | impls/dlisp/env.js:9 | The table key is the symbol's `.value`. A key read from `undefined` or `null` throws. |
| Environment.FindIn | impls/dlisp/env.js:12-19 | `find` returns the nearest frame, innermost first, whose table holds a truthy value for the key, and none if there is no such frame. |
| Environment.GetIn | impls/dlisp/env.js:21-28 | `get` gives the value in the frame `find` locates, or throws "<name> not found". |
| Environment.SetThenGet | impls/dlisp/env.js:8-28 | After a truthy value is set in the innermost table, `get` returns it, whatever the outer tables hold. |
| Environment.SetFalsyFallsThrough | impls/dlisp/env.js:13 | After a falsy value is set, `get` answers as the outer frames do. |
| Environment.SetOtherName | impls/dlisp/env.js:8-10 | A write under another name changes nothing `get` sees. |
| Environment.EmptyFrameTransparent | impls/dlisp/env.js:3-6 | A frame with an empty table answers as its outer frames do. |
| Environment.Env.constructor | impls/dlisp/env.js:3-6 | `new Env(outer)` has an empty table linked to `outer`. |
| Environment.Env.WithBindings | impls/dlisp/step6_file.js:117 | `new Env(outer, binds, exprs)` is the same as `new Env(outer)`: names and arguments are dropped. |
| Environment.Env.Set | impls/dlisp/env.js:8-10 | `set` writes this frame's table only. Every outer frame keeps its table. |
| Environment.Env.Find | impls/dlisp/env.js:12-19 | `find` answers none exactly when `FindIn` finds no frame, and otherwise the frame it finds. A key read from `undefined` or `null` throws. |
| Environment.Env.Get | impls/dlisp/env.js:21-28 | `get` answers `GetIn` of the frame chain: the value, or the "not found" throw. |
| Frames.NewFrame | impls/dlisp/env.js:3-6 | A new frame is appended with an empty table and its outer link. Existing frames are untouched. |
| Frames.Define | impls/dlisp/env.js:8-10 | `set` fails exactly when the key cannot be read. Otherwise only the written frame's table may change; the store keeps its size and counters. |
| Frames.NewFrameChain | impls/dlisp/env.js:3-6 | A new frame's chain is an empty table in front of its outer frame's chain. No existing chain changes. |
| Frames.WellFormedPreserved | impls/dlisp/env.js:3-10 | Creating frames and writing them keep every outer link pointing to an earlier frame. |
| Frames.DefineChain | impls/dlisp/env.js:8-10 | `set` changes only the innermost table of the frame's chain. |
| Frames.DefineKeepsEarlier | impls/dlisp/env.js:8-10 | Frames created before the written frame answer every lookup as before. |
| Frames.DefineThenLookup | impls/dlisp/env.js:8-28 | After a truthy value is set, `get` of that name in that frame returns it. |
| Frames.DefineFalsyLookup | impls/dlisp/env.js:12-19 | After a falsy value is set, `get` answers as the outer frames do. |
| Frames.LookupOutermost | impls/dlisp/env.js:16-18 | A frame without an outer frame answers from its own table alone. |
| Frames.NewFrameLookup | impls/dlisp/env.js:12-28 | A new frame answers every lookup as its outer frame does. |
| Core.Arith | impls/dlisp/core.js:9-11 | `a + b`, `a - b` and `a * b` give an integer on two integers; any other operand gives no value. |
| Core.Reduce | impls/dlisp/core.js:9-11 | `reduce` without an initial value throws "Reduce of empty array with no initial value" on no arguments, and answers a single argument unchanged. |
| Core.ApplyOp | impls/dlisp/core.js:20-24 | `list` keeps its arguments in order. `list?` holds exactly for a MalList. `not` negates host truthiness. |
| Core.FoldAdd | impls/dlisp/core.js:9 | Folding `+` over integers from a start value gives the start plus their sum. |
| Core.FoldSub | impls/dlisp/core.js:10 | Folding `-` over integers gives the start minus their sum. |
| Core.FoldMul | impls/dlisp/core.js:11 | Folding `*` over integers gives the start times their product. |
| Core.ArithmeticOnIntegers | impls/dlisp/core.js:9-11 | `+` and `*` on integers are the sum and the product. `-` subtracts the rest from the first. |
| Core.ArithmeticNeedsArguments | impls/dlisp/core.js:9-11 | With no arguments, `+`, `-` and `*` throw (reduce of an empty array). |
| Core.FoldStopsAtNonInteger | impls/dlisp/core.js:9-11 | A non-integer operand after the first leaves no integer result. |
| Core.ComparisonReadsTwo | impls/dlisp/core.js:13-16 | Comparisons depend on the first two arguments only. |
| Core.ComparisonOnIntegers | impls/dlisp/core.js:13-16 | On integers the four comparisons are the integer orderings. `<` and `>` mirror each other. |
| Core.ComparisonWithMissingOperand | impls/dlisp/core.js:13-16 | A missing operand compares false under all four comparisons. |
| Core.EqualComparesFields | impls/dlisp/core.js:17-19 | `=` on two values with defined `.value` compares those fields deeply. |
| Core.EqualOnLists | impls/dlisp/core.js:17-19 | Two lists or vectors of the same plain data are `=`. Lists with different elements are not. |
| Core.EqualOnIntegers | impls/dlisp/core.js:17-19 | Integers have no `.value`, so `=` compares them by value. |
| Core.EqualNeedsFirstArgument | impls/dlisp/core.js:17-19 | `=` with no first argument throws. |
| Core.IdenticalIsStrict | impls/dlisp/step4_if_fn_do.js:123 | Step 4's `=` is `===`: it tells different values apart and never equates two distinct closures. |
| Core.CountOfCollections | impls/dlisp/core.js:23 | `count` is the number of elements of a list or vector. On a number or a MalNil it throws, since `.length` is read from undefined or null. |
| Core.EmptyAsksForUndefined | impls/dlisp/core.js:22 | `empty?` is false for every list, the empty one included, and true for a number. |
| Core.NotOfObjects | impls/dlisp/core.js:24 | `not` of any Mal object, MalNil and MalBoolean false included, is false. |
| Core.ListPredicate | impls/dlisp/core.js:20-21 | `list?` holds exactly when its first argument is a MalList. `list` keeps the argument order. |
| Core.StrOfSymbols | impls/dlisp/core.js:38-40 | `str` of symbols concatenates their names with no separator. |
| Core.StrOfInteger | impls/dlisp/core.js:4-6 | Every integer has no `.value`, so `str` renders the integer itself, in decimal. |
| Core.StrOfIntegers | impls/dlisp/core.js:38-40 | `str` of any list of integers, the empty one included, answers the string of their decimal forms one after another, with no separator. |
| Core.StrOfUndefined | impls/dlisp/core.js:4-6 | An `undefined` argument makes `str` throw. |
| Reader.SeparatorsEnd | impls/dlisp/reader.js:10 | The run of separators (white space and commas) ends at the first other character. |
| Reader.TokenEnd | impls/dlisp/reader.js:10 | Every token ends within the input. A token that starts with a non-separator is non-empty. |
| Reader.ScanFrom | impls/dlisp/reader.js:29-30 | Scanning gives at least one match, and the last match is the empty one at the end. |
| Reader.DropComments | impls/dlisp/reader.js:30 | The filter leaves no token that starts with ';'. |
| Reader.Atom | impls/dlisp/reader.js:32-64 | An integer token reads as its value, a token starting with ':' as a keyword, and `true`, `false` and `nil` as the Mal constants. A string literal throws, and so does reading past the end. |
| Reader.ParseForm | impls/dlisp/reader.js:97-120 | `read_form` consumes at least one token and never reads past the end. |
| Reader.ParseSeq | impls/dlisp/reader.js:76-90 | `read_seq` consumes at least the closing token and never reads past the end. |
| Reader.Reader.constructor | impls/dlisp/reader.js:13-16 | A new reader holds the tokens with its cursor at 0. |
| Reader.Reader.Peek | impls/dlisp/reader.js:18-20 | `peek` gives the token under the cursor, or nothing past the end. The cursor does not move. |
| Reader.Reader.Next | impls/dlisp/reader.js:22-26 | `next` gives the token under the cursor and advances the cursor by exactly one. |
| Reader.ReadAtom | impls/dlisp/reader.js:32-64 | `read_atom` reads the atom of the token under the cursor and advances by one. |
| Reader.ReadSeq | impls/dlisp/reader.js:76-90 | The `while` loop of `read_seq` gives the result and cursor of `ParseSeq`. |
| Reader.ReadList | impls/dlisp/reader.js:66-69 | `read_list` wraps the forms up to ")" in a MalList. |
| Reader.ReadVector | impls/dlisp/reader.js:71-74 | `read_vector` wraps the forms up to "]" in a MalVector. |
| Reader.ReadHashMap | impls/dlisp/reader.js:92-95 | `read_hash_map` wraps the forms up to "}" in a MalHashMap. |
| Reader.PrependSymbol | impls/dlisp/reader.js:122-127 | `prependSymbol` reads the next form and answers `(symbol form)`. |
| Reader.ReadForm | impls/dlisp/reader.js:97-120 | `read_form` gives the result and cursor of `ParseForm`. |
| Reader.ReadStr | impls/dlisp/reader.js:129-133 | `read_str` answers `Read` of the input. |
| ReaderProperties.ScanFromShape | impls/dlisp/reader.js:10 | No match starts with a separator. Only the last match is empty. |
| ReaderProperties.DropCommentsKeepsShape | impls/dlisp/reader.js:30 | Filtering out comments keeps those two properties. |
| ReaderProperties.DropCommentsNone | impls/dlisp/reader.js:30 | Tokens without comments pass the filter unchanged. |
| ReaderProperties.DropCommentsAppend | impls/dlisp/reader.js:30 | The filter distributes over concatenation. |
| ReaderProperties.TokenizeShape | impls/dlisp/reader.js:29-30 | `tokenize` yields no comment, no token starting with a separator, and no empty token except possibly the last. |
| ReaderProperties.TokenizeScanned | impls/dlisp/reader.js:29-30 | `tokenize` is the scan without its final empty match and without comments. |
| ReaderProperties.TokenizeJoin | impls/dlisp/reader.js:29-30 | Tokens of plain characters or single brackets, joined by spaces, tokenize back to themselves. |
| ReaderProperties.IntTokenRoundTrip | impls/dlisp/reader.js:35-37 | Every integer of the model prints in decimal as a token that matches `^-?[0-9]+$` and parses back to that integer. |
| ReaderProperties.AtomToken | impls/dlisp/reader.js:32-64 | A plain atom prints as exactly one token. |
| ReaderProperties.ParseAtomToken | impls/dlisp/reader.js:117-118 | The token of a plain atom reads back as that atom, consuming one token. |
| ReaderProperties.ParseBracketed | impls/dlisp/reader.js:101-106 | An opening bracket reads the sequence up to its closer as a collection of the matching kind. |
| ReaderProperties.ParseSeqCons | impls/dlisp/reader.js:80-86 | `read_seq` reads its elements one after another, in order. |
| ReaderProperties.ReadShow | impls/dlisp/reader.js:129-133 | Printing a form built from symbols, keywords, integers of magnitude at most 2^53 - 1, booleans, nil, lists and vectors, and then reading it back, gives the same form. |
| ReaderProperties.ReadLaid | impls/dlisp/reader.js:129-133 | Any input laid out as the tokens of a plain form reads as that form. |
| ReaderProperties.TokenizePrefixed | impls/dlisp/reader.js:10 | A reader-macro character followed by a printed form tokenizes as that character and the form's tokens. |
| ReaderProperties.ReadPrefix | impls/dlisp/reader.js:107-127 | `'x`, `` `x ``, `~x`, `~@x` and `@x` read as `(quote x)`, `(quasiquote x)`, `(unquote x)`, `(splice-unquote x)` and `(deref x)`. |
| ReaderProperties.ParsePrefixed | impls/dlisp/reader.js:122-127 | A reader-macro token wraps the next form read. |
| ReaderProperties.SeqEndsWithCloser | impls/dlisp/reader.js:76-90 | A successful `read_seq` ends right after its closing token. |
| ReaderProperties.DelimitedForm | impls/dlisp/reader.js:66-106 | A bracketed form read successfully ends with its matching closer. |
| ReaderProperties.FormFailsOnlyUnbalanced | impls/dlisp/reader.js:97-120 | Over brackets and plain tokens, `read_form` either reads a form or throws "unbalanced". |
| ReaderProperties.SeqFailsOnlyUnbalanced | impls/dlisp/reader.js:76-87 | Over brackets and plain tokens, `read_seq` either reads its forms or throws "unbalanced". |
| ReaderProperties.Unbalanced | impls/dlisp/reader.js:80-83 | Over brackets and plain tokens, a sequence whose closing token never occurs throws "unbalanced", whatever the nesting of the other brackets. |
| ReaderProperties.NoCloserFails | impls/dlisp/reader.js:76-87 | Over any tokens, a sequence whose closing token never occurs is not read. |
| Step3.RootState | impls/dlisp/step3_env.js:74-79 | The root frame is one frame holding `+`, `*`, `/` and `-`. |
| Step3.EvalAst | impls/dlisp/step3_env.js:13-35 | `eval_ast` changes no table but the current frame's, removes no frame and relinks none. |
| Step3.EvalEach | impls/dlisp/step3_env.js:20 | Evaluating the elements gives one value per element. |
| Step3.Eval | impls/dlisp/step3_env.js:39-70 | `EVAL` changes no table but the current frame's, removes no frame and relinks none. |
| Step3.EvalDef | impls/dlisp/step3_env.js:49-51 | `def!` changes no table but the current frame's. |
| Step3.EvalLet | impls/dlisp/step3_env.js:52-65 | `let*` writes no frame that existed before it. |
| Step3.LetBinds | impls/dlisp/step3_env.js:57-59 | The binding loop writes only the child frame. |
| Step3.EvalApply | impls/dlisp/step3_env.js:68-69 | Application changes no table but the current frame's. |
| Step3.Call | impls/dlisp/step3_env.js:69 | Only the primitives are functions: calling anything else throws "fn.apply is not a function". |
| Step3.BindPairs | impls/dlisp/step3_env.js:57-59 | The `for` loop gives the result and store of `LetBinds`. |
| Step3.DefDispatch | impls/dlisp/step3_env.js:48-51 | A list headed by `def!` goes to the `def!` branch. |
| Step3.LetDispatch | impls/dlisp/step3_env.js:52-65 | A list headed by `let*` goes to the `let*` branch. |
| Step3.ApplyDispatch | impls/dlisp/step3_env.js:68-69 | A list headed by any other symbol is an application. |
| Step3.ApplyCalls | impls/dlisp/step3_env.js:68-69 | Application calls the head's value on the values of the rest, in order. |
| Step3.EvalNonList | impls/dlisp/step3_env.js:40-42 | A symbol is looked up. Any non-collection is its own value. Neither changes a frame. |
| Step3.EvalCollection | impls/dlisp/step3_env.js:24-31 | A vector or hash map evaluates to one of the same kind with one value per element. |
| Step3.EvalEmptyList | impls/dlisp/step3_env.js:44-46 | `()` evaluates to itself. |
| Step3.EvalEachIntegers | impls/dlisp/step3_env.js:19-22 | A list of integers evaluates to itself without touching a frame. |
| Step3.DefTruthy | impls/dlisp/step3_env.js:49-51 | `def!` of a truthy value sets it in the current frame and answers it. |
| Step3.DefFalsy | impls/dlisp/step3_env.js:49-51 | `def!` of a falsy value writes it, but `get` skips it: the answer comes from the outer frames, or "not found" is thrown. |
| Step3.LetKeepsFrames | impls/dlisp/step3_env.js:54-59 | `let*` leaves the current frame and its outer frames unchanged. |
| Step3.LetWithoutBody | impls/dlisp/step3_env.js:61-63 | `let*` without a body answers MalNil. |
| Step3.LetSequential | impls/dlisp/step3_env.js:57-59 | A later binding sees an earlier one: `(let* (a n b a) b)` answers `n`. |
| Step3.RootBindings | impls/dlisp/step3_env.js:76-79 | The root frame maps the four symbols to the four arithmetic primitives. |
| Step3.SumArguments | impls/dlisp/step3_env.js:68 | The elements of `(+ n1 ...)` evaluate to the addition primitive and the integers. |
| Step3.SumForm | impls/dlisp/step3_env.js:68-69 | `(+ n1 ...)` answers the sum of the integers. |
| Step3.SumCall | impls/dlisp/step3_env.js:76 | The addition primitive called on integers answers their sum. |
| Step3.RootSum | impls/dlisp/step3_env.js:74-81 | At start-up, `(+ n1 ...)` answers the sum. |
| Step4.RootState | impls/dlisp/step4_if_fn_do.js:113-127 | The root frame is one frame holding the thirteen inline primitives. |
| Step4.EvalAst | impls/dlisp/step4_if_fn_do.js:11-32 | `eval_ast` changes no table but the current frame's, and removes no frame. |
| Step4.EvalEach | impls/dlisp/step4_if_fn_do.js:17 | Evaluating the elements gives one value per element. |
| Step4.Eval | impls/dlisp/step4_if_fn_do.js:88-107 | `EVAL` changes no table but the current frame's, and removes no frame. |
| Step4.EvalDef | impls/dlisp/step4_if_fn_do.js:63-66 | `handleDef` changes no table but the current frame's. |
| Step4.EvalLet | impls/dlisp/step4_if_fn_do.js:36-48 | `handleLet` writes no frame that existed before it. |
| Step4.LetBinds | impls/dlisp/step4_if_fn_do.js:40-42 | The binding loop writes only the child frame. |
| Step4.EvalDo | impls/dlisp/step4_if_fn_do.js:68-72 | `handleDo` changes no table but the current frame's. |
| Step4.IfTest | impls/dlisp/step4_if_fn_do.js:53 | Reading `.value` of an `undefined` or `null` condition throws. |
| Step4.EvalIf | impls/dlisp/step4_if_fn_do.js:50-61 | `handleIf` changes no table but the current frame's. |
| Step4.MakeClosure | impls/dlisp/step4_if_fn_do.js:74-86 | `handleFn` answers a closure over the form and the current frame with the next allocation id, and advances the id counter only. |
| Step4.EvalApply | impls/dlisp/step4_if_fn_do.js:105-106 | Application changes no table but the current frame's. |
| Step4.Call | impls/dlisp/step4_if_fn_do.js:106 | A call writes no frame that existed before it. Calling a value that is neither primitive nor closure throws and changes nothing. |
| Step4.CallClosure | impls/dlisp/step4_if_fn_do.js:75-85 | A closure call writes no frame that existed before it. |
| Step4.BindParams | impls/dlisp/step4_if_fn_do.js:79-81 | The parameter loop changes only the new frame's table; it allocates nothing. |
| Step4.BindParamsLoop | impls/dlisp/step4_if_fn_do.js:79-81 | The `for` loop gives the store and result of `BindParams`. |
| Step4.IfDispatch | impls/dlisp/step4_if_fn_do.js:101 | A list headed by `if` goes to `handleIf`. |
| Step4.DoDispatch | impls/dlisp/step4_if_fn_do.js:100 | A list headed by `do` goes to `handleDo`. |
| Step4.LetDispatch | impls/dlisp/step4_if_fn_do.js:99 | A list headed by `let*` goes to `handleLet`. |
| Step4.FnDispatch | impls/dlisp/step4_if_fn_do.js:102 | A list headed by `fn*` answers a closure at once and evaluates nothing. |
| Step4.ApplyDispatch | impls/dlisp/step4_if_fn_do.js:97-106 | A list headed by any other symbol is an application. |
| Step4.IfTestAtoms | impls/dlisp/step4_if_fn_do.js:53 | Only MalBoolean false and a string or keyword spelled "nil" fail the test. `nil` and every number, 0 included, pass it. |
| Step4.IfTestLists | impls/dlisp/step4_if_fn_do.js:53 | A list fails exactly when its elements joined by commas read "nil". `()` passes; `(nil)` fails. |
| Step4.IfThen | impls/dlisp/step4_if_fn_do.js:50-55 | When the test passes, `if` evaluates the third element in the state the test left. |
| Step4.IfElse | impls/dlisp/step4_if_fn_do.js:57-60 | When the test fails, `if` evaluates a truthy fourth element, or else answers MalNil. |
| Step4.DoEmpty | impls/dlisp/step4_if_fn_do.js:68-72 | `(do)` answers `undefined`. |
| Step4.DoSingle | impls/dlisp/step4_if_fn_do.js:68-72 | `(do e)` is `e`, result and state alike. |
| Step4.EvalEachSnoc | impls/dlisp/step4_if_fn_do.js:17 | `ast.value.map(EVAL)` evaluates left to right: a list with one more element evaluates the earlier ones first, then the new one in the state they leave, and the first throw is the answer. |
| Step4.DoForms | impls/dlisp/step4_if_fn_do.js:68-72 | `(do f1 ... fn)`, for any n of at least one, evaluates the first n - 1 forms in order and answers the last form evaluated in the state they leave. A throw among the first forms is the answer. |
| Step4.ClosuresDistinct | impls/dlisp/step4_if_fn_do.js:74-75 | Two evaluations of one `fn*` form give two closures that `===` tells apart. |
| Step4.LetEvaluatesLastForm | impls/dlisp/step4_if_fn_do.js:44-47 | With two body forms, `let*` evaluates only the last, in the child frame. |
| Step4.CallClosureSteps | impls/dlisp/step4_if_fn_do.js:75-84 | A closure call whose parameter loop completes evaluates the third element in the new frame. |
| Step4.IdentityCall | impls/dlisp/step4_if_fn_do.js:76-83 | Calling `(fn* (p) p)` sets `p` in a child of the defining frame, then looks `p` up there. |
| Step4.BindOne | impls/dlisp/step4_if_fn_do.js:79-81 | The loop over one parameter performs exactly one `set`. |
| Step4.ClosureBindsParameter | impls/dlisp/step4_if_fn_do.js:75-85 | `(fn* (p) p)` called with a truthy argument answers that argument. |
| Step4.ClosureMissingArgument | impls/dlisp/step4_if_fn_do.js:79-80 | With no argument, `p` is set to `undefined` and skipped: the answer comes from the defining chain, or "p not found" is thrown. |
| Step4.RootBindings | impls/dlisp/step4_if_fn_do.js:123-124 | The root frame holds `=` as strict identity and `list` as the list constructor. |
| Step6.ArgvList | impls/dlisp/step6_file.js:132 | `*ARGV*` holds one host string per command-line argument, in order. |
| Step6.RootState | impls/dlisp/step6_file.js:129-132 | The root frame is one frame, with every primitive, `eval` and `*ARGV*`. |
| Step6.EvalF | impls/dlisp/step6_file.js:86-123 | `EVAL` changes no table but those of the current frame and the root frame, and removes no frame. |
| Step6.EvalAst | impls/dlisp/step6_file.js:13-34 | `eval_ast` changes no table but those of the current and root frames. |
| Step6.EvalEach | impls/dlisp/step6_file.js:19 | Evaluating the elements gives one value per element. |
| Step6.Step | impls/dlisp/step6_file.js:88-122 | A turn changes no table but those of the current and root frames, and continues in the same frame or a new one. |
| Step6.EvalDef | impls/dlisp/step6_file.js:63-66 | `handleDef` changes no table but those of the current and root frames. |
| Step6.LetStep | impls/dlisp/step6_file.js:38-48 | `handleLet` continues with `(do forms...)` in a new child frame, changing no older frame but the current and root frames. |
| Step6.LetBinds | impls/dlisp/step6_file.js:42-44 | The binding loop changes only the child frame and the root frame. |
| Step6.DoStep | impls/dlisp/step6_file.js:68-72 | `handleDo` continues in the same frame with the last form. |
| Step6.IfTest | impls/dlisp/step6_file.js:52 | A value loosely equal to "nil" fails the test. |
| Step6.IfStep | impls/dlisp/step6_file.js:50-61 | `handleIf` continues in the same frame. |
| Step6.FnValue | impls/dlisp/step6_file.js:74-84 | `handleFn` gives a MalFunction holding the given id, the parameter list, the current frame and the body `(do body...)`. |
| Step6.ApplyStep | impls/dlisp/step6_file.js:111-120 | Application changes no table but the current and root frames'. A call continues only in a new frame. |
| Step6.CallPrim | impls/dlisp/step6_file.js:119 | Calling a value that is not a primitive throws "fn.apply is not a function" and changes nothing. A primitive changes only the root frame. |
| Step6.EvalLoop | impls/dlisp/step6_file.js:86-123 | The `while (true)` loop gives the result and store of `EvalF`. |
| Step6.EvalNonList | impls/dlisp/step6_file.js:89-91 | A non-list takes one turn, answered by `eval_ast`. |
| Step6.IfDispatch | impls/dlisp/step6_file.js:105-107 | A list headed by `if` goes to `handleIf`. |
| Step6.DoDispatch | impls/dlisp/step6_file.js:102-104 | A list headed by `do` goes to `handleDo`. |
| Step6.LetDispatch | impls/dlisp/step6_file.js:99-101 | A list headed by `let*` goes to `handleLet`. |
| Step6.FnDispatch | impls/dlisp/step6_file.js:108-110 | A list headed by `fn*` continues with a new MalFunction. |
| Step6.ApplyDispatch | impls/dlisp/step6_file.js:111-120 | A list headed by any other symbol is an application. |
| Step6.IfTestValues | impls/dlisp/step6_file.js:52 | MalNil, MalBoolean false, host `false` and 0 fail the test. `true`, other numbers, `undefined`, `null` and every MalString pass it. |
| Step6.IfTail | impls/dlisp/step6_file.js:50-61 | `if` continues with the chosen branch, unevaluated, in the same frame. |
| Step6.DoTail | impls/dlisp/step6_file.js:68-72 | `do` evaluates all forms but the last, then continues with the last. |
| Step6.LetTail | impls/dlisp/step6_file.js:38-48 | `(let* () e...)` continues with `(do e...)` in a new child frame. |
| Step6.FnForm | impls/dlisp/step6_file.js:74-84 | `fn*` answers a MalFunction over `(do body...)`, the parameters and the current frame. |
| Step6.CallDropsArguments | impls/dlisp/step6_file.js:113-117 | Calling a MalFunction continues with its body in a new, empty child of its defining frame. The arguments are dropped. |
| Step6.CallTail | impls/dlisp/step6_file.js:112-117 | A head that evaluates to a MalFunction continues with that function's body. |
| Step6.ParametersUnbound | impls/dlisp/step6_file.js:112-117 | `((fn* (p) p) n)` answers the calling chain's `p`, or throws "p not found"; it does not answer `n`. |
| Step6.IdentityArguments | impls/dlisp/step6_file.js:112 | The elements of `((fn* (p) p) n)` evaluate to a fresh MalFunction and `n`. |
| Step6.ApplyIdentity | impls/dlisp/step6_file.js:112-117 | Applying the identity MalFunction answers the lookup of `p`. |
| Step6.IdentityValue | impls/dlisp/step6_file.js:74-84 | `(fn* (p) p)` answers a MalFunction with body `(do p)`. |
| Step6.ArgumentsEvaluated | impls/dlisp/step6_file.js:19 | The elements of `(form n)` evaluate to the value of `form` and `n`. |
| Step6.BodyLooksUp | impls/dlisp/step6_file.js:68-72 | `(do p)` in an empty child frame answers the parent's lookup of `p`. |
| Step6.EvalUsesRoot | impls/dlisp/step6_file.js:131 | `eval` evaluates in the root frame, from any frame. |
| Step6.RootBindings | impls/dlisp/step6_file.js:130-132 | The root frame holds `eval` and `*ARGV*`. |
| Step8.MarkMacro | impls/dlisp/step8_macros.js:76 | Marking a MalFunction or primitive makes it a macro and changes nothing else. `undefined` and `null` throw. Numbers, booleans and strings ignore the write. |
| Step8.ApplyMacro | impls/dlisp/step8_macros.js:97-98 | Applying a MalFunction as a macro throws "macro.apply is not a function". A primitive is applied to the unevaluated arguments. |
| Step8.MacroExpand | impls/dlisp/step8_macros.js:94-101 | `macroExpand` writes no frame but the root frame. A successful result is no macro call. A form that is no macro call is answered unchanged. |
| Step8.ExpandOnce | impls/dlisp/step8_macros.js:96-99 | One round applies the head macro to the unevaluated rest, then expands the result. |
| Step8.MacroExpandLoop | impls/dlisp/step8_macros.js:94-101 | The `while (isMacroCall(...))` loop gives the result and store of `MacroExpand`. |
| Step8.EvalF | impls/dlisp/step8_macros.js:121-177 | `EVAL` changes no table but those of the current frame and the root frame, and removes no frame. |
| Step8.EvalAst | impls/dlisp/step8_macros.js:19-40 | `eval_ast` changes no table but those of the current and root frames. |
| Step8.EvalEach | impls/dlisp/step8_macros.js:25 | Evaluating the elements gives one value per element. |
| Step8.Step | impls/dlisp/step8_macros.js:123-136 | A turn expands macros on a non-empty list, then dispatches. It changes no table but the current and root frames', and continues in the same frame or a new one. |
| Step8.Dispatch | impls/dlisp/step8_macros.js:138-175 | The `switch` changes no table but the current and root frames', and continues in the same frame or a new one. Its `quasiquote` and `quasiquoteexpand` branches use the intended rewrite (see Findings). |
| Step8.EvalDef | impls/dlisp/step8_macros.js:69-72 | `handleDef` changes no table but the current and root frames'. |
| Step8.EvalDefMacro | impls/dlisp/step8_macros.js:74-79 | `handleDefMacro` changes no table but the current and root frames'. |
| Step8.LetStep | impls/dlisp/step8_macros.js:44-54 | `handleLet` continues with `(do forms...)` in a new child frame. |
| Step8.LetBinds | impls/dlisp/step8_macros.js:48-50 | The binding loop changes only the child frame and the root frame. |
| Step8.DoStep | impls/dlisp/step8_macros.js:103-107 | `handleDo` continues in the same frame. |
| Step8.IfTest | impls/dlisp/step8_macros.js:58 | The test throws exactly when the condition is `undefined` or `null`. |
| Step8.OrNil | impls/dlisp/step8_macros.js:59 | `?? new MalNil()` answers the element itself or MalNil. |
| Step8.IfStep | impls/dlisp/step8_macros.js:56-67 | `handleIf` continues in the same frame. |
| Step8.FnValue | impls/dlisp/step8_macros.js:109-119 | `handleFn` gives a MalFunction holding the given id, the parameter list, the current frame and the body `(do body...)`. |
| Step8.ApplyStep | impls/dlisp/step8_macros.js:165-174 | Application changes no table but the current and root frames'. A call continues only in a new frame. |
| Step8.CallPrim | impls/dlisp/step8_macros.js:173 | Calling a value that is not a primitive throws "fn.apply is not a function" and changes nothing. A primitive changes only the root frame. |
| Step8.EvalLoop | impls/dlisp/step8_macros.js:121-177 | The `while (true)` loop gives the result and store of `EvalF`. |
| Step8Props.ExpandIdempotent | impls/dlisp/step8_macros.js:94-101 | Expanding a successful expansion again changes nothing, with any fuel. |
| Step8Props.NoMacrosNoExpansion | impls/dlisp/step8_macros.js:81-92 | With nothing marked, expansion answers the form and changes nothing. |
| Step8Props.UnboundHeadNoExpansion | impls/dlisp/step8_macros.js:83-91 | A head symbol `get` cannot find is no macro call: the caught throw answers false. |
| Step8Props.FnMacroThrows | impls/dlisp/step8_macros.js:97-98 | A call to a macro made by `fn*` throws "macro.apply is not a function". |
| Step8Props.ListMacroExpands | impls/dlisp/step8_macros.js:96-99 | A marked `list` expands `(m a b)` as `(a b)` expands. |
| Step8Props.DefMacroMarks | impls/dlisp/step8_macros.js:74-79 | `defmacro!` of a MalFunction answers it, marks it, and binds it. A call by that name is then a macro call. |
| Step8Props.PlainTurn | impls/dlisp/step8_macros.js:132-138 | A non-empty list that is no macro call is dispatched unchanged. |
| Step8Props.QuoteAnswers | impls/dlisp/step8_macros.js:153-154 | `(quote x)` answers `x` unevaluated. |
| Step8Props.QuasiquoteExpandAnswers | impls/dlisp/step8_macros.js:161-162 | `(quasiquoteexpand x)` answers the intended rewrite of `x`, where the code as written throws (see Findings). |
| Step8Props.MacroexpandAnswers | impls/dlisp/step8_macros.js:163-164 | `(macroexpand x)` answers the expansion of `x`, unevaluated. |
| Step8Props.QuasiquoteContinues | impls/dlisp/step8_macros.js:158-160 | `(quasiquote x)` continues with the intended rewrite of `x` in the same frame, where the code as written throws (see Findings). |
| Step8Props.UnquoteContinues | impls/dlisp/step8_macros.js:155-157 | `(unquote x)` evaluates `x`. |
| Step8Props.NonListExpansion | impls/dlisp/step8_macros.js:132-136 | A macro call expanding to a non-list is answered by `eval_ast` in the state the expansion left. |
| Step8Props.IfTestValues | impls/dlisp/step8_macros.js:58 | MalBoolean false and MalNil fail the test. Every other Mal value and a raw `false` pass it. Raw `undefined` and `null` throw. |
| Step8Props.IfDispatch | impls/dlisp/step8_macros.js:147-149 | A list headed by `if` that is no macro call goes to `handleIf`. |
| Step8Props.IfBranches | impls/dlisp/step8_macros.js:56-67 | `if` continues with the third element, or MalNil if it is missing, when the test passes. Otherwise it continues with the fourth element when present, or else MalNil. |
| QuasiquoteForms.QuasiquoteAsWritten | impls/dlisp/step8_macros.js:197-216 | As written, `quasiquote` throws a TypeError on every input. |
| QuasiquoteForms.SeqRewrite | impls/dlisp/step8_macros.js:179-195 | The intended rewrite of a sequence's elements is a list form. |
| QuasiquoteForms.HandleMalSequence | impls/dlisp/step8_macros.js:179-195 | The backward `for` loop gives the right fold `SeqRewrite`. |
| QuasiquoteForms.QuasiquoteDirect | impls/dlisp/step8_macros.js:197-216 | `(unquote x)` gives `x`, a symbol is quoted, a vector is wrapped in `vec`, and any other atom is kept. |
| QuasiquoteForms.QuasiquoteMeaning | impls/dlisp/step8_macros.js:197-216 | Evaluating the rewrite with `quote`, `cons`, `concat` and `vec` rebuilds the form: unquoted parts are evaluated and spliced parts are spliced. |
| QuasiquoteForms.SeqRewriteMeaning | impls/dlisp/step8_macros.js:179-195 | Evaluating the rewrite of elements gives the list of their meanings. |
| QuasiquoteForms.PlainMeaning | impls/dlisp/step8_macros.js:197-216 | A quasiquoted form without unquotes stands for itself, as `quote` would give. |
| QuasiquoteForms.PlainMeaningAll | impls/dlisp/step8_macros.js:179-195 | Elements without unquotes stand for themselves. |
| QuasiquoteForms.QuasiquoteFinding | impls/dlisp/step8_macros.js:197-202 | `(quasiquoteexpand a)` throws as written. The corrected rewrite answers `(quote a)`, and `(unquote a)` gives `a`. |
| StringLiterals.ScanStringAt | impls/dlisp/reader.js:10 | A string literal with a body free of quotes and backslashes is matched as one token. |
| StringLiterals.StringTokenAlone | impls/dlisp/reader.js:29-30 | Such a literal on its own tokenizes to exactly itself. |
| StringLiterals.LevelToksShape | impls/dlisp/reader.js:97-106 | The tokens of open lists of plain forms are brackets and plain tokens, none of them a string literal. |
| StringLiterals.SpacedLevelsCons | impls/dlisp/reader.js:29-30 | The text of several open lists is the text of the outermost, a space, and the text of the rest. |
| StringLiterals.ParseSeqFormsThrow | impls/dlisp/reader.js:80-86 | Inside a list, the loop of `read_seq` reads the plain forms one by one. When the next form is not the closer and `read_form` throws on it, `read_seq` throws the same error. |
| StringLiterals.OpenListsThrow | impls/dlisp/reader.js:97-120 | Tokens that open lists of plain forms and then reach a string literal make `read_form` throw the TypeError of the missing `createMalString`. |
| StringLiterals.ReadOpenListsThrows | impls/dlisp/reader.js:129-133 | `read_str` throws that TypeError on any text that opens lists of plain forms and then holds a string literal, whatever follows. |
| StringLiterals.LoadFileThrows | impls/dlisp/step6_file.js:134 | Reading the start-up definition of `load-file` throws the TypeError, so the start-up `rep` of steps 6 and 8 throws. |
| StringLiterals.IntendedAtom | impls/dlisp/reader.js:55-56 | The intended `read_atom` makes a MalString of `token.slice(1, -1)` for a string literal, and reads every other token as the code does. |
| StringLiterals.AtomDiffers | impls/dlisp/reader.js:55-56 | The code's atom and the intended one differ exactly on string literals, where the code throws the TypeError. |
| StringLiterals.IntendedStringRoundTrip | impls/dlisp/types.js:96-98 | A MalString with a quote-free body prints as one token, which the intended atom reads back as the same MalString, while the code throws on it. |

## Left out

- The read-eval-print loop: `readline`, `console.log`, `PRINT` and `printer.js` are not part of this model. The evaluators take the form already read and the store as parameters.
- The start-up `rep(...)` calls of steps 6 and 8 (`load-file`, `cond`, `not`) are left out of the evaluators. As written, the first of them throws in the reader (StringLiterals.LoadFileThrows). It is called outside any `try`, so Node exits before `repl()` runs or a file named on the command line is loaded, and the steps' `EVAL` is never reached. Step6 and Step8 model what the evaluators would do once started, and their root frames hold what exists before the start-up definitions.
- Reader.Atom: keeps the code's throw on every string literal. The intended reading, StringLiterals.IntendedAtom, is modelled beside it, and Reader.ParseForm does not use it.
- `prn`, `pr-str` and `println` write to the console. Applying them answers `Unmodelled`.
- `/` divides floating-point numbers. Applying it answers `Unmodelled`. Numbers are integers only, with no NaN or infinity.
- Core.Arith: an operand that is not an integer (string concatenation, `NaN`) answers `Unmodelled` rather than the host's result.
- Core.FoldStopsAtNonInteger: states only that no integer comes out, for the reason given under Core.Arith.
- Core.ComparisonOnIntegers: comparisons of non-integers other than `undefined` (strings, objects) answer `Unmodelled`.
- JsEquality.StrictEquals: whether two objects with equal contents are one object is not modelled. The answer is left open, and the primitives that need it answer `Unmodelled`.
- TypeProperties.MethodIsEqualCases: MalHashMap's `isEqual` compares arrays by identity, which is not modelled, so a map compared with itself answers `Unmodelled`.
- Types.StringIsZero: states the blank case and the non-numeric case only. Strings made of number characters answer `Unmodelled`, since the host's numeric conversion is not modelled.
- Types.LengthOf: the arity (`length`) of a host function answers `Unmodelled`.
- Types.LengthOf, Types.LengthBound, Types.IndexOf and Types.DropLastChar: a model string is a sequence of Unicode scalar values, while the host's `.length`, `s[i]` and `slice(0, -1)` count UTF-16 code units. The two agree only for characters of the Basic Multilingual Plane. `LengthOf(Text(":😀"))` answers 2 where the host answers 3, and on such a string the host's `slice(0, -1)` removes half of a surrogate pair.
- Types.LooselyNil and Types.LooselyFalse: a host function compared with a string converts to its source text, which is not modelled. It is taken as never equal to "nil" or to a numeric literal.
- Step8.MarkMacro: `isMacro` on an object other than a MalFunction or a primitive (a list, say) answers `Unmodelled`.
- Step6.EvalF, Step8.EvalF, Step8.MacroExpand and the step-3 and step-4 evaluators: every turn and every expansion spends fuel, and running out answers `OutOfFuel`. Non-termination of the interpreter is not modelled.
- Reader.ScanFrom: the regular expression is modelled by a hand-written scanner of its alternatives, not by a regular-expression engine.
- Step 4's `fn*` closures are JavaScript functions. They are modelled as values that hold the form and the defining frame, and a call runs the closure's body.
- The evaluators keep their environments in a store of frames (`Frames`), not in `Env` objects. The `Env` class is modelled on its own, and `frames.dfy` proves that the store answers as the class does.
- Step3.EvalAst, Step4.Eval, Step6.EvalF, Step8.EvalF and their siblings: their contracts state the frame property (`Kept`). Their results are stated by the dispatch and form lemmas beside them.
- Environment.Holds: a frame's table is a map of its own keys only. In the host it is an object literal, so `data[name]` also finds what `Object.prototype` holds (`toString`, `valueOf`, `constructor`, `hasOwnProperty`, `__proto__` and the like), and `set` of `__proto__` changes the prototype instead of adding a key. For those names the lookups differ, and so do Environment.FindIn, Environment.GetIn, Environment.EmptyFrameTransparent, Environment.Env.Find, Environment.Env.Get, Frames.Lookup, Frames.LookupOutermost and Frames.NewFrameLookup. Modelling the prototype chain is left out.
- Environment.FindIn: for a name inherited from `Object.prototype` the host finds the innermost frame, while the model finds none (see Environment.Holds).
- Environment.GetIn: for a name inherited from `Object.prototype` the host answers the inherited function, while the model throws "not found" (see Environment.Holds).
- Environment.EmptyFrameTransparent: does not hold in the host for names inherited from `Object.prototype` (see Environment.Holds).
- Environment.Env.Find: answers as Environment.FindIn, with the same gap for inherited names.
- Environment.Env.Get: answers as Environment.GetIn, with the same gap for inherited names.
- Frames.LookupOutermost: holds for own keys only (see Environment.Holds).
- Frames.NewFrameLookup: holds for own keys only (see Environment.Holds).
- Step8.Dispatch: the `quasiquote` and `quasiquoteexpand` branches use the intended rewrite `QuasiquoteForms.Quasiquote`. As written, `quasiquote` throws a TypeError on every input, modelled apart as `QuasiquoteForms.QuasiquoteAsWritten` (see Findings).
- Step8Props.QuasiquoteExpandAnswers: states the intended answer; as written the form throws (see Step8.Dispatch).
- Step8Props.QuasiquoteContinues: states the intended continuation; as written the form throws (see Step8.Dispatch).
- Core.FoldAdd, Core.FoldSub, Core.FoldMul, Core.ArithmeticOnIntegers and Core.Arith: integers are unbounded and exact. The host computes with doubles, exact only up to 2^53 - 1 in magnitude, so larger sums and products round.
- Reader.Atom: `parseInt` of a long digit string rounds to the nearest double beyond 2^53 - 1 in magnitude. The model reads the exact integer.
- ReaderProperties.IntTokenRoundTrip: holds for every integer of the model. In the host a number of magnitude 10^21 or more prints in exponent form, and one beyond 2^53 - 1 may not read back exactly. ReaderProperties.ReadShow is therefore stated for integers up to 2^53 - 1 only.
- ReaderProperties.ReadShow: hash maps are not covered. A map of an even number of items prints with ", " between its pairs (`{a b, c d}`) and reads back, but the round trip is not stated for it. A map of an odd number of items loses its last character when printed (`{a b c}` prints as `{a b, }`), so it does not read back as the same map.
- ReaderProperties.Unbalanced: requires that the closing token occur nowhere after the opener. A sequence whose closer occurs only inside a nested sequence (`( ( )`) also throws "unbalanced", but that case is not covered.
- The printer and `toString` of step 8's PRINT (`printer.js`) are not part of this model. `toString` of the value classes is modelled as `Types.Show`.

## Findings

| source | as written | input that shows it | evidently intended | confidence | as-written member | corrected member |
|---|---|---|---|---|---|---|
| impls/dlisp/step8_macros.js:197-216 | `quasiquote` tests `ast instanceof MalSequence`, but `types.js` does not export `MalSequence`, and it calls `ast.beginsWith`, which `MalList` does not define. Every call throws a TypeError. | `(quasiquoteexpand a)` | `(quasiquoteexpand a)` answers `(quote a)`; `(quasiquote (unquote x))` evaluates `x`; lists and vectors are rewritten with `cons`, `concat` and `vec`. | high; not executed | QuasiquoteForms.QuasiquoteAsWritten | QuasiquoteForms.QuasiquoteMeaning |
| impls/dlisp/reader.js:55-56 | `read_atom` calls `createMalString`, which `types.js` does not export, so every string literal throws a TypeError. The start-up definition of `load-file` (step6_file.js:134, step8_macros.js:227) holds string literals and is read outside any `try`, so steps 6 and 8 exit at start-up. | `(def! load-file (fn* (f) (eval (read-string (str "(do " (slurp f) "\nnil)")))))` | A string literal reads as `new MalString(token.slice(1, -1))`, and a printed MalString reads back as itself. | high; not executed | StringLiterals.LoadFileThrows | StringLiterals.IntendedStringRoundTrip |
