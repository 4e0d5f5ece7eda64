# gojson lexer and parser, modelled in Dafny

This project models the core of `gojson`, a small JSON parser written in Go. The core is
the tokenizer (`src/lexer/lexer.go`), the state-machine parser it feeds
(`src/parser/parser.go`), and the token and syntax-tree types they fill in
(`src/token/token.go`, `src/ast/ast.go`).

Modules follow the Go packages:

- `Token`: the thirteen token kinds, the `Token` record, and the keyword table with `LookupIdentifier`.
- `Ast`: the syntax tree as a closed datatype, `Value = Object | Array | Literal`.
  - `Property`, `Identifier`, `RootNode` and the root kinds are datatypes too.
  - The object, property and array machine states are enums, each numbered as Go's `iota` numbers them.
- `LexerSpec`: the lexing rules as functions of the input and a cursor.
  - `Lex(input, pos, line)` is one `NextToken` call: the token it returns and the cursor it leaves.
- `Lexer`: the Go `Lexer` as a class.
  - Its fields are `ch` (Go's `char`), `position`, `readPosition` and `line`.
  - The methods update these fields one character at a time, as `readChar` does.
  - Each method is proved to end in the state `LexerSpec` describes.
- `ParserSpec`: the parser as functions over an abstract state `PState`.
  - `PState` holds the lexer cursor, the `currentToken`/`peekToken` window and the diagnostics.
  - There is one function per Go procedure and state machine.
- `Parser`: the Go `Parser` as a class that updates its window and diagnostics in place.
  - Every method is proved to return the outcome, and reach the state, that the matching `ParserSpec` function gives.
- `LexerProperties`, `ParserProperties`, `ParserExamples`: what the lexer and parser guarantee, proved over the specification functions.
- `ParserLayout`: the parser reads only each token's kind and text, so layout never changes what it returns.
  - Two token streams that agree on kinds and texts parse alike: both finish or neither does, they leave the same diagnostics (on success too, e.g. an InvalidNumber), the same root kind, and trees that are equal once every Start and End is erased.
  - The only diagnostic that names a line, peekError's, comes from `expectPeekType`, which no parsing procedure calls.

The Go parser does not always terminate. Three states append a diagnostic without
consuming a token:
- in `parseProperty`, the Start state (on any token but a String) and the PropertyKey state (on any token but a Colon);
- in `parseArrayObject`, the state after a value.

Every parsing procedure therefore takes a `fuel` bound. Each pass through a state-machine
loop spends one unit, and a nested procedure gets whatever is left. A run either returns
`OutOfFuel` or the value the Go code returns. `ParserProperties` proves that more fuel
never changes a finished result, so fuel only decides whether a run finishes, never what
it returns.

Behaviour kept exactly as the Go code has it:
- `]` is lexed as `LeftBracket`, so no token is ever `RightBracket`.
  - As a result, a finished array parse always ends at EOF.
  - `[1]` (and `[1,2,3]`) never finish, because after the last value the array machine reports the `]` token forever.
- The end offset of an empty object is read from the token after `}`.
  - For `{}` that token is EOF, whose offsets are 0, so the object spans 0 to 0, not 0 to 2.
- Token offsets:
  - A String token's Start is the index of its closing quote and its End is one past it.
  - An unknown identifier gives an `Illegal` token whose End is left at 0.
  - Any other unexpected character gives `Illegal` with the fixed offsets 1 and 2.
  - EOF has offsets 0 and 0.
- A NUL character inside the input reads as EOF, but the lexer carries on after it.
- `parseJsonLiteral` turns every token that is not String, Number, True or False into the string `"null"`.
  - This includes the `null` keyword, so `null` and `"null"` give the same literal.
- In the object machine's Comma state, a property without a value is dropped and the machine stays in Comma.
- When the input ends before the closing `}`, the object takes the EOF token's Start as its End, and no diagnostic is added.

## Model

| member | source | states |
|---|---|---|
| Token.TokenType.Name | src/token/token.go:7-21 | every kind has a non-empty Go string value, so none equals the empty Type a failed lookup returns |
| Token.NamesDistinct | src/token/token.go:7-21 | the thirteen kinds have pairwise distinct string values |
| Token.LookupIdentifier | src/token/token.go:31-42 | exactly "true", "false" and "null" map to True, False and Null; every other identifier fails, and the failure carries that identifier |
| Ast.RootNodeType.Code | src/ast/ast.go:42-45 | root kinds are the Go codes 0 and 1 |
| Ast.RootCodes | src/ast/ast.go:42-45 | code 0 is exactly ObjectRoot, and the zero root node reads as ObjectRoot |
| Ast.ObjectState.Code | src/ast/ast.go:47-52 | the object states are codes 0 to 3 |
| Ast.PropertyState.Code | src/ast/ast.go:54-57 | the property states are codes 4 to 6 |
| Ast.ArrayState.Code | src/ast/ast.go:59-63 | the array states are codes 7 to 10 |
| Ast.StateCodesDistinct | src/ast/ast.go:47-63 | the eleven state constants are pairwise distinct, both within one machine and across machines |
| LexerSpec.CharAt | src/lexer/lexer.go:21-26 | the lexer holds NUL exactly past the end of the input or at a NUL in it; any other character is the input's character at that index |
| LexerSpec.IsLetter | src/lexer/lexer.go:137-139 | a letter is never NUL, whitespace, punctuation or a quote, so the switch cases before the letter test cannot take it |
| LexerSpec.IsNumber | src/lexer/lexer.go:133-135 | a number character is never NUL, whitespace, punctuation, a quote or a letter, so it reaches the number case only |
| LexerSpec.NewToken | src/lexer/lexer.go:123-131 | a token whose literal is the one character passed; it has no contract of its own, and the tokens it builds are stated by PunctuationToken and OtherToken |
| LexerSpec.RunEnd | src/lexer/lexer.go:95-121 | the identifier and number scanners stop at the end of the maximal run: every character before the end is in the run and the one at the end is not |
| LexerSpec.StringEnd | src/lexer/lexer.go:103-113 | the string scanner stops at the first index after the opening quote that is NUL, or a quote not preceded by a backslash, and never beyond the input |
| LexerSpec.LexAt | src/lexer/lexer.go:35-83 | the token switch always moves the cursor forward, never yields RightBracket, and yields EOF exactly on NUL |
| LexerSpec.Lex | src/lexer/lexer.go:31-84 | one NextToken call: the cursor moves forward, no RightBracket, the token's line is the start line plus the LFs skipped, and the token is EOF exactly when the first non-whitespace character is NUL or the input is exhausted |
| LexerSpec.LexSkips | src/lexer/lexer.go:31-35 | NextToken is the switch applied where whitespace skipping stops, on the line it reaches |
| Lexer.Lexer.constructor | src/lexer/lexer.go:15-19 | New loads the first character at position 0 on line 0 |
| Lexer.Lexer.ReadChar | src/lexer/lexer.go:21-29 | the cursor moves to readPosition; ch is NUL once readPosition reaches the input length; readPosition ends one past position |
| Lexer.Lexer.SkipWhitespace | src/lexer/lexer.go:86-93 | stops at the first non-whitespace character and adds one to line per LF skipped |
| Lexer.Lexer.ReadIdentifier | src/lexer/lexer.go:95-101 | returns the maximal run of lowercase letters and leaves the cursor after it |
| Lexer.Lexer.ReadString | src/lexer/lexer.go:103-113 | returns the raw text between the opening quote and the closing index, with escapes not decoded |
| Lexer.Lexer.ReadNumber | src/lexer/lexer.go:115-121 | returns the maximal run of digits, `.` and `-`, and leaves the cursor after it |
| Lexer.Lexer.NextToken | src/lexer/lexer.go:31-84 | returns the token, and leaves the cursor and line, that Lex gives |
| LexerProperties.SkipsWhitespace | src/lexer/lexer.go:86-93 | skipping stops at the first character that is not space, tab, CR or LF; everything before it is whitespace; the line grows by the LF count |
| LexerProperties.NewlinesAdd | src/lexer/lexer.go:86-93 | the LF count is additive over adjacent ranges |
| LexerProperties.PunctuationToken | src/lexer/lexer.go:36-47 | each of the six punctuation characters gives a one-character token spanning [p, p+1), and both `[` and `]` give LeftBracket |
| LexerProperties.NeverRightBracket | src/lexer/lexer.go:40-43 | no token of any token stream is RightBracket |
| LexerProperties.StringToken | src/lexer/lexer.go:48-53 | a String token holds the raw slice after the opening quote up to the first unescaped quote or the end; Start is the closing index and End is one past it |
| LexerProperties.NumberToken | src/lexer/lexer.go:72-78 | a Number token is the maximal non-empty run of digits, `.` and `-` starting at Start, and End - Start is its length |
| LexerProperties.IdentifierToken | src/lexer/lexer.go:59-71 | a maximal run of lowercase letters is True, False or Null exactly when it spells that keyword, and otherwise Illegal with End 0 |
| LexerProperties.EofToken | src/lexer/lexer.go:54-57 | at the end of input the token is EOF with empty literal and offsets 0 |
| LexerProperties.OtherToken | src/lexer/lexer.go:80-83 | any other character gives Illegal holding that character, with Start 1 and End 2 |
| LexerProperties.EofForever | src/lexer/lexer.go:54-57 | once only whitespace remains, this call and every later call return EOF |
| LexerProperties.LexNoSkip | src/lexer/lexer.go:31-35 | at a character that is not whitespace nothing is skipped, and NextToken is the token switch at that index |
| LexerProperties.LexAfterSpace | src/lexer/lexer.go:86-93 | a single space before a token is skipped and leaves the line unchanged |
| LexerProperties.LexPastEnd | src/lexer/lexer.go:54-57 | past the end of the input every call yields EOF with offsets 0 and moves the cursor by one |
| LexerProperties.RunEndAt | src/lexer/lexer.go:95-121 | the end of a maximal run of letters or number characters is unique: any index closing such a run is the one the scanner stops at |
| LexerProperties.StringEndAt | src/lexer/lexer.go:103-113 | the string scanner stops at the first closing index, and at no other |
| LexerProperties.KeywordAt | src/lexer/lexer.go:59-71 | `true`, `false` or `null` followed by a non-letter lexes as that keyword's token, spanning exactly the word |
| LexerProperties.EmbeddedNul | src/lexer/lexer.go:54-57 | a NUL inside the input lexes as EOF, and the next call still lexes the character after it |
| ParserSpec.Advance | src/parser/parser.go:29-32 | nextToken moves peek into current and pulls one new token from a lexer that only moves forward |
| ParserSpec.Report | src/parser/parser.go:261-263 | parseError appends exactly one diagnostic and changes nothing else |
| ParserSpec.Start | src/parser/parser.go:22-27 | a new parser has no diagnostics and no RightBracket in its window |
| ParserSpec.LiteralRun | src/parser/parser.go:172-196 | a literal consumes exactly one token, and adds one diagnostic exactly when a Number fails to parse |
| ParserSpec.ValueRun | src/parser/parser.go:57-66 | only an object parse can come back without a value |
| ParserSpec.ObjectRun | src/parser/parser.go:68-121 | a value returned by the object machine is an Object |
| ParserSpec.ArrayRun | src/parser/parser.go:123-170 | a value returned by the array machine is an Array |
| ParserSpec.PropertyRun | src/parser/parser.go:198-237 | once the key is read it never changes |
| ParserSpec.JsonRun | src/parser/parser.go:34-51 | on success the root holds a value and is ArrayRoot exactly when the first token is LeftBracket; on failure the root is empty, the error is all diagnostics, and the last diagnostic is ExpectedValue |
| ParserSpec.ExpectPeekRun | src/parser/parser.go:243-259 | advances exactly when peek has the expected kind; otherwise adds exactly one diagnostic and leaves window and lexer unchanged |
| Parser.Parser.constructor | src/parser/parser.go:22-27 | the window holds the lexer's next two tokens and there are no diagnostics |
| Parser.Parser.NextToken | src/parser/parser.go:29-32 | the new state is Advance of the old one |
| Parser.Parser.ParseError | src/parser/parser.go:261-263 | the new state is Report of the old one |
| Parser.Parser.ParseJson | src/parser/parser.go:34-51 | outcome and new state are those of JsonRun |
| Parser.Parser.ParserValue | src/parser/parser.go:57-66 | outcome and new state are those of ValueRun |
| Parser.Parser.ParseJsonObject | src/parser/parser.go:68-121 | outcome and new state are those of ObjectRun from the Start state |
| Parser.Parser.ParseArrayObject | src/parser/parser.go:123-170 | outcome and new state are those of ArrayRun from the Start state |
| Parser.Parser.ParseJsonLiteral | src/parser/parser.go:172-196 | value and new state are those of LiteralRun |
| Parser.Parser.ParseProperty | src/parser/parser.go:198-237 | outcome and new state are those of PropertyRun from the Start state |
| Parser.Parser.ExpectPeekType | src/parser/parser.go:243-250 | result and new state are those of ExpectPeekRun |
| Parser.Parser.PeekError | src/parser/parser.go:256-259 | appends one diagnostic naming the current line, the expected kind and the peek kind |
| Parser.Parser.Errors | src/parser/parser.go:265-267 | the diagnostics reported so far, in the order reported: exactly the diagnostics of the abstract parser state |
| ParserProperties.ValueRunProgress | src/parser/parser.go:57-66 | parsing a value only appends diagnostics, only moves the lexer forward, and comes back without a value only after a diagnostic |
| ParserProperties.ObjectRunProgress | src/parser/parser.go:68-121 | the object machine keeps earlier properties as a prefix (source order, duplicates kept), and an abort follows a diagnostic |
| ParserProperties.ObjectOpenProgress | src/parser/parser.go:86-94 | the Open state keeps the object machine's guarantees |
| ParserProperties.ObjectCommaProgress | src/parser/parser.go:110-115 | the Comma state keeps the object machine's guarantees |
| ParserProperties.ArrayRunProgress | src/parser/parser.go:123-170 | the array machine keeps earlier elements as a prefix, and on lexer output a finished array parse always stops at EOF |
| ParserProperties.ArrayOpenProgress | src/parser/parser.go:135-146 | the Open state, including the extra advance when peek is `]`, keeps the array machine's guarantees |
| ParserProperties.ArrayCommaProgress | src/parser/parser.go:161-164 | the Comma state keeps the array machine's guarantees |
| ParserProperties.PropertyRunProgress | src/parser/parser.go:198-237 | parsing a property only appends diagnostics and only moves the lexer forward |
| ParserProperties.JsonRunProgress | src/parser/parser.go:34-51 | ParseJson only appends diagnostics, and a failure carries at least two new ones |
| ParserProperties.JsonFailsExactlyWithoutValue | src/parser/parser.go:40-50 | ParseJson fails exactly when parserValue gives no value; the diagnostics are then parserValue's plus one ExpectedValue; otherwise the root holds parserValue's value |
| ParserProperties.LiteralDecoding | src/parser/parser.go:172-196 | booleans come only from True/False, floats only from Numbers the float parser accepts, a failed Number keeps its raw text, and every other token, the `null` keyword included, gives the string "null" |
| ParserProperties.ValueRunMonotone | src/parser/parser.go:57-66 | a value parse that finishes within some fuel gives the same result with any larger fuel |
| ParserProperties.ObjectRunMonotone | src/parser/parser.go:68-121 | the same for the object machine from any state |
| ParserProperties.ObjectStartMonotone | src/parser/parser.go:74-85 | the same for the object Start state |
| ParserProperties.ObjectOpenMonotone | src/parser/parser.go:86-94 | the same for the object Open state |
| ParserProperties.ObjectPropertyMonotone | src/parser/parser.go:95-109 | the same for the object HasProperty state |
| ParserProperties.ObjectCommaMonotone | src/parser/parser.go:110-115 | the same for the object Comma state |
| ParserProperties.ArrayRunMonotone | src/parser/parser.go:123-170 | the same for the array machine from any state |
| ParserProperties.ArrayStartMonotone | src/parser/parser.go:129-134 | the same for the array Start state |
| ParserProperties.ArrayOpenMonotone | src/parser/parser.go:135-146 | the same for the array Open state |
| ParserProperties.ArrayValueMonotone | src/parser/parser.go:147-160 | the same for the array HasValue state |
| ParserProperties.ArrayCommaMonotone | src/parser/parser.go:161-164 | the same for the array Comma state |
| ParserProperties.PropertyRunMonotone | src/parser/parser.go:198-237 | the same for the property machine from any state |
| ParserProperties.PropertyStartMonotone | src/parser/parser.go:204-218 | the same for the property Start state |
| ParserProperties.PropertyKeyMonotone | src/parser/parser.go:219-228 | the same for the property HaveKey state |
| ParserProperties.PropertyColonMonotone | src/parser/parser.go:229-232 | the same for the property HaveColon state |
| ParserProperties.ParseTextMonotone | src/parser/parser.go:34-51 | a finished parse of a whole text is the same for every larger fuel |
| ParserProperties.PropertyStartSpins | src/parser/parser.go:213-218 | in the property Start state, a token other than String or EOF is never consumed: after any number of passes the run has not finished, the window and the lexer cursor are unchanged, and one ExpectedKey diagnostic was appended per pass |
| ParserProperties.PropertyKeySpins | src/parser/parser.go:223-228 | in the HaveKey state, a token other than Colon or EOF is never consumed: after any number of passes the run has not finished, the window and the lexer cursor are unchanged, and one ExpectedColon diagnostic was appended per pass |
| ParserProperties.ArrayValueSpins | src/parser/parser.go:155-160 | in the array HasValue state, a token other than `]`, `,` or EOF is never consumed: after any number of passes the run has not finished, the window and the lexer cursor are unchanged, and one bracket-or-comma diagnostic was appended per pass |
| ParserProperties.PropertyKeyFromString | src/parser/parser.go:204-212 | a finished property either began on a String token and has its literal as key, or met EOF at once and is the empty property |
| ParserProperties.ScalarPropertyRun | src/parser/parser.go:198-233 | `"key" : v` with a scalar v yields exactly one pair: the String token's text as key and v's literal as value |
| ParserProperties.ObjectOpens | src/parser/parser.go:74-78 | in Start, a `{` records its Start offset, is consumed, and moves the machine to Open |
| ParserProperties.ObjectPropertyStep | src/parser/parser.go:95-102 | after a property, `}` closes the object with End from the following token, and `,` moves to Comma |
| ParserProperties.ObjectTakesProperty | src/parser/parser.go:86-115 | in Open and Comma, a finished property with a value is appended last and the machine moves to HasProperty |
| ParserProperties.ArrayTakesValue | src/parser/parser.go:135-164 | in Open and Comma, a finished value is appended last and the machine moves to HasValue; in Open only, one extra advance happens exactly when peek is `]` |
| ParserProperties.ObjectAbortsOnBadSeparator | src/parser/parser.go:103-108 | after a property, a token other than `}`, `,` or EOF appends one diagnostic and aborts the object |
| ParserProperties.EofEndsContainers | src/parser/parser.go:117-120 | at EOF the object and array machines stop in any state, taking the EOF token's Start as End |
| ParserProperties.StartWindow | src/parser/parser.go:22-27 | after New, current and peek are the lexer's first two tokens |
| ParserExamples.LineAfterNewline | src/lexer/lexer.go:86-93 | a token after a newline reports the next line |
| ParserExamples.EmptyObject | src/parser/parser.go:86-91 | `{}` parses to an empty ObjectRoot object spanning 0 to 0 |
| ParserExamples.LexBracketOne | src/lexer/lexer.go:40-43 | `[1]` lexes as LeftBracket, Number, LeftBracket, EOF |
| ParserExamples.SingleElementArrayDiverges | src/parser/parser.go:147-160 | parsing `[1]` runs out of every fuel bound |
| ParserLayout.AgreeStep | src/lexer/lexer.go:31-84 | two token streams agree from a cursor when their first tokens have the same kind and text and the streams agree after them |
| ParserLayout.AdvanceAlike | src/parser/parser.go:29-32 | nextToken keeps two layout-alike parser states alike |
| ParserLayout.StartAlike | src/parser/parser.go:22-27 | New over two agreeing token streams gives layout-alike parsers |
| ParserLayout.LiteralAlike | src/parser/parser.go:172-196 | parseJsonLiteral gives the same literal on alike states and keeps them alike |
| ParserLayout.ValueAlike | src/parser/parser.go:57-66 | parserValue on alike states: both finish or neither, with values equal up to offsets, and the states stay alike |
| ParserLayout.ObjectAlike | src/parser/parser.go:68-121 | the same for the object machine from any state, given property lists equal up to offsets |
| ParserLayout.ObjectTakesAlike | src/parser/parser.go:86-115 | the same for the Open and Comma states, which take or drop the property parseProperty returns |
| ParserLayout.ArrayAlike | src/parser/parser.go:123-170 | the same for the array machine from any state, given element lists equal up to offsets |
| ParserLayout.ArrayTakesAlike | src/parser/parser.go:135-164 | the same for the Open and Comma states, which append the value parserValue returns |
| ParserLayout.PropertyAlike | src/parser/parser.go:198-237 | the same for the property machine, given properties equal up to offsets |
| ParserLayout.JsonAlike | src/parser/parser.go:34-51 | ParseJson on alike states: both finish or neither, the final diagnostics are equal whether or not the parse succeeds, and the results are equal up to offsets |
| ParserLayout.LayoutIrrelevant | src/parser/parser.go:22-237 | parsers built over two token streams that agree on every token's kind and text return the same result except for the Start and End offsets in the tree, and end with the same diagnostics |
| ParserLayout.NthTokenOfLexer | src/lexer/lexer.go:31-84 | over the lexer, the k-th token of a source is entry k of the token stream |
| ParserExamples.SpacedAgreesWithCompact | src/lexer/lexer.go:31-35 | `{ "a" : 1 }` and `{"a":1}` lex to token streams that agree on every kind and text |
| ParserExamples.CompactParses | src/parser/parser.go:74-102 | `{"a":1}` parses, with six units of fuel or more, to an ObjectRoot object holding exactly one property, keyed "a", for any float parser |
| ParserExamples.CompactParse | src/parser/parser.go:74-102 | the same over any token source that yields the tokens of `{"a":1}` |
| ParserExamples.WhitespaceInsensitive | src/parser/parser.go:34-51 | `{ "a" : 1 }` and `{"a":1}` both parse with six units of fuel or more, both finish or neither for any fuel, leave the same diagnostics, and give results equal once offsets are erased |
| ParserExamples.DuplicateKeysParse | src/parser/parser.go:68-121 | over any token source that yields the tokens of `{"a":true,"a":false}`, ParseJson returns both "a" properties in source order |
| ParserExamples.DuplicateKeysKept | src/parser/parser.go:92-114 | `{"a":true,"a":false}` keeps both "a" properties in source order |

## Left out

- `src/main.go`, the demonstration driver: it only hardcodes a string and prints it.
- `strconv.ParseFloat` is not modelled. It is a caller-supplied function, `string -> Option<bv64>`, that gives the float64 bit pattern or `None` for an error; the literal parser's behaviour is proved for every such function.
- `fmt.Sprintf` message text is not modelled. Each diagnostic is a `Diagnostic` datatype value that records the message kind and the token text it quotes.
- Parser.Parser.Errors: returns the list of diagnostics rather than the string Go builds with `strings.Join(p.errors, ", ")`. A failed `ParseJson` returns that list too, not `errors.New` of the joined string.
- The unused `escapes` and `escapeChars` tables and the unused string and number state constants are not modelled, because nothing reads them.
- Go's `interface{}` values are replaced by the closed `Value` datatype. A nil `Value` (an aborted object, a property that never got a value) is `None`.
- The constant `Type` string fields of the AST structs (`"Object"`, `"Literal"`, …) are not modelled; the datatype constructors carry that information.
- `parseString`, `currentTokenTypeIs` and `peekTokenTypeIs` are inlined. Each is a one-line read of a token field.
- Non-termination is not modelled directly. Every parse takes a fuel bound, and results are stated as "if it returns within the fuel, then …". The infinite loops are proved as runs that exhaust every bound.
- Go's `int` is 64 bits wide, but offsets and line numbers here are unbounded integers. Overflow would need an input of more than 2^63 characters.
- Go's conversion of the input string to runes is not modelled: the lexer takes a sequence of characters directly.
- Before the first two `nextToken` calls, Go's zero `Token` has the empty `Type`. Here it has kind EOF. It is shifted out before anything reads it.
- ParserSpec.ObjectRun: its own contract says only that a returned value is an Object. Prefix preservation and the abort rule are proved separately, in ParserProperties.ObjectRunProgress.
- ParserSpec.ArrayRun: its own contract says only that a returned value is an Array. Prefix preservation and stopping at EOF are proved separately, in ParserProperties.ArrayRunProgress.
