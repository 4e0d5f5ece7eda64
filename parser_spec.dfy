/**
 * The parser of src/parser/parser.go as functions of an abstract parser state.
 *
 * The Go loops need not terminate (several states append a diagnostic without
 * consuming a token), so every procedure takes a fuel bound: each pass of a state
 * machine loop spends one unit, and a nested procedure gets what is left after that.
 * A Run is either OutOfFuel or the value the Go code returns; in both cases it carries
 * the parser state reached. The Parser class is proved to follow these functions step
 * for step, and ParserProperties proves that more fuel never changes a Done result.
 */
module ParserSpec {
  import opened Wrappers
  import opened Token
  import opened LexerSpec
  import opened Ast

  /**
   * The parser's diagnostics, one variant per call site of parseError or peekError.
   * ExpectedBraceOrComma and ExpectedArrayBracketOrComma come from two call sites that
   * format the same text (parser.go:104-107 and parser.go:156-159).
   */
  datatype Diagnostic =
    | ExpectedObjectStart(found: string)
    | ExpectedBraceOrComma(found: string)
    | ExpectedArrayBracketOrComma(found: string)
    | ExpectedKey(found: string)
    | ExpectedColon(found: string)
    | InvalidNumber
    | ExpectedValue(found: string)
    | UnexpectedPeek(line: int, expected: TokenType, got: TokenType)

  /** One NextToken call of a lexer from its cursor (position, line): the token and the new cursor. */
  type TokenStep = (nat, int) -> Scan

  /** What the parser relies on from its lexer: every call moves the cursor forward and none yields RightBracket. */
  ghost predicate IsTokenSource(next: TokenStep)
  {
    forall p: nat, l: int :: next(p, l).pos > p && next(p, l).token.kind != RightBracket
  }

  type TokenSource = next: TokenStep | IsTokenSource(next)
    witness (p: nat, l: int) => Scan(Token(EOF, "", l, 0, 0), p + 1, l)

  /** The lexer of the input, as a token source: each call is Lex at the cursor. */
  function LexerStep(input: seq<char>): (next: TokenSource)
    ensures forall p: nat, l: int :: next(p, l) == Lex(input, p, l)
  {
    (p: nat, l: int) => Lex(input, p, l)
  }

  /** The lexer and the float64 parser (strconv.ParseFloat, taken as an oracle: None is an error). */
  datatype Env = Env(next: TokenSource, parseFloat: string -> Option<bv64>)

  /** The lexer cursor, the two-token window and the diagnostics so far. */
  datatype PState = PState(pos: nat, line: int, cur: Token, peek: Token, errors: seq<Diagnostic>)

  datatype Outcome<+T> = OutOfFuel | Done(value: T)

  datatype Run<+T> = Run(outcome: Outcome<T>, state: PState)

  /** What ParseJson returns: a root node and, on failure, the diagnostics (Go joins them into one error). */
  datatype JsonResult = JsonResult(root: RootNode, err: Option<seq<Diagnostic>>)

  /** No token in the window is a RightBracket; true of every window the lexer fills. */
  predicate NoRightBracket(s: PState)
  {
    s.cur.kind != RightBracket && s.peek.kind != RightBracket
  }

  /** The facts every parsing procedure keeps: diagnostics are only appended and the lexer only moves forward. */
  predicate Progress(s: PState, t: PState)
  {
    s.errors <= t.errors && s.pos <= t.pos && (NoRightBracket(s) ==> NoRightBracket(t))
  }

  /** nextToken: peek moves into cur and the lexer supplies a new peek (parser.go:29-32). */
  function Advance(next: TokenSource, s: PState): (t: PState)
    ensures t.cur == s.peek && t.errors == s.errors && t.pos > s.pos
    ensures s.peek.kind != RightBracket ==> NoRightBracket(t)
  {
    var r := next(s.pos, s.line);
    PState(r.pos, r.line, s.peek, r.token, s.errors)
  }

  /** parseError: appends one diagnostic and changes nothing else (parser.go:261-263). */
  function Report(s: PState, d: Diagnostic): (t: PState)
    ensures t.errors == s.errors + [d]
    ensures t.cur == s.cur && t.peek == s.peek && t.pos == s.pos && t.line == s.line
  {
    s.(errors := s.errors + [d])
  }

  /** The state of a parser just built over a lexer at (pos, line): nextToken twice (parser.go:22-27). */
  function Start(next: TokenSource, pos: nat, line: int): (s: PState)
    ensures s.errors == [] && NoRightBracket(s)
  {
    // Go's zero Token (empty Type) fills both slots first; it is shifted out before anyone reads it.
    var zero := Token(EOF, "", 0, 0, 0);
    Advance(next, Advance(next, PState(pos, line, zero, zero, [])))
  }

  /**
   * parseJsonLiteral (parser.go:172-196): String, True and False map to their values, a
   * Number to its float64 or, when it does not parse, to its raw text plus one
   * diagnostic; any other token gives the string "null". Exactly one token is consumed.
   */
  function LiteralRun(env: Env, s: PState): (r: (Value, PState))
    ensures r.1.cur == s.peek && r.1.pos > s.pos && r.1.peek.kind != RightBracket
    ensures r.1.errors == s.errors + (if s.cur.kind == Number && env.parseFloat(s.cur.literal).None? then [InvalidNumber] else [])
  {
    var t := s.cur;
    var next := Advance(env.next, s);
    match t.kind
    case String => (Literal(Str(t.literal)), next)
    case Number =>
      (match env.parseFloat(t.literal)
       case Some(f) => (Literal(Num(f)), next)
       case None => (Literal(Str(t.literal)), Report(next, InvalidNumber)))
    case True => (Literal(Bool(true)), next)
    case False => (Literal(Bool(false)), next)
    case _ => (Literal(Str("null")), next)
  }

  /**
   * parserValue (parser.go:57-66). Only an object parse can come back with no value.
   */
  function ValueRun(env: Env, s: PState, fuel: nat): (r: Run<Option<Value>>)
    ensures r.outcome == Done(None) ==> s.cur.kind == LeftBrace
    decreases fuel, 2
  {
    if s.cur.kind == LeftBrace then
      ObjectRun(env, ObjStart, [], 0, s, fuel)
    else if s.cur.kind == LeftBracket then
      var a := ArrayRun(env, ArrayStart, [], 0, s, fuel);
      Run(if a.outcome.Done? then Done(Some(a.outcome.value)) else OutOfFuel, a.state)
    else
      var (v, next) := LiteralRun(env, s);
      Run(Done(Some(v)), next)
  }

  /**
   * The loop of parseJsonObject (parser.go:68-121) from machine state st, with the
   * properties collected so far and the recorded start offset. ParserProperties proves
   * that properties are only appended and that an abort (None) follows a diagnostic.
   */
  function ObjectRun(env: Env, st: ObjectState, props: seq<Property>, start: int, s: PState, fuel: nat)
    : (r: Run<Option<Value>>)
    ensures r.outcome.Done? && r.outcome.value.Some? ==> r.outcome.value.value.Object?
    decreases fuel, 1
  {
    if s.cur.kind == EOF then Run(Done(Some(Object(props, start, s.cur.start))), s)
    else if fuel == 0 then Run(OutOfFuel, s)
    else match st
      case ObjStart =>
        if s.cur.kind == LeftBrace then ObjectRun(env, ObjOpen, props, s.cur.start, Advance(env.next, s), fuel - 1)
        else Run(Done(None), Report(s, ExpectedObjectStart(s.cur.literal)))
      case ObjOpen =>
        if s.cur.kind == RightBrace then
          var next := Advance(env.next, s);
          Run(Done(Some(Object(props, start, next.cur.end))), next)
        else
          var p := PropertyRun(env, PropertyStart, EmptyProperty, s, fuel - 1);
          if p.outcome.OutOfFuel? then Run(OutOfFuel, p.state)
          else ObjectRun(env, ObjProperty, props + [p.outcome.value], start, p.state, fuel - 1)
      case ObjProperty =>
        if s.cur.kind == RightBrace then
          var next := Advance(env.next, s);
          Run(Done(Some(Object(props, start, next.cur.start))), next)
        else if s.cur.kind == Comma then ObjectRun(env, ObjComma, props, start, Advance(env.next, s), fuel - 1)
        else Run(Done(None), Report(s, ExpectedBraceOrComma(s.cur.literal)))
      case ObjComma =>
        var p := PropertyRun(env, PropertyStart, EmptyProperty, s, fuel - 1);
        if p.outcome.OutOfFuel? then Run(OutOfFuel, p.state)
        else if p.outcome.value.value.Some? then
          ObjectRun(env, ObjProperty, props + [p.outcome.value], start, p.state, fuel - 1)
        else ObjectRun(env, ObjComma, props, start, p.state, fuel - 1)
  }

  /**
   * The loop of parseArrayObject (parser.go:123-170) from machine state st, with the
   * elements collected so far and the recorded start offset.
   */
  function ArrayRun(env: Env, st: ArrayState, items: seq<Option<Value>>, start: int, s: PState, fuel: nat)
    : (r: Run<Value>)
    ensures r.outcome.Done? ==> r.outcome.value.Array?
    decreases fuel, 1
  {
    if s.cur.kind == EOF then Run(Done(Array(items, start, s.cur.start)), s)
    else if fuel == 0 then Run(OutOfFuel, s)
    else match st
      case ArrayStart =>
        if s.cur.kind == LeftBracket then ArrayRun(env, ArrayOpen, items, s.cur.start, Advance(env.next, s), fuel - 1)
        else ArrayRun(env, ArrayStart, items, start, s, fuel - 1)
      case ArrayOpen =>
        if s.cur.kind == RightBracket then Run(Done(Array(items, start, s.cur.end)), Advance(env.next, s))
        else
          var v := ValueRun(env, s, fuel - 1);
          if v.outcome.OutOfFuel? then Run(OutOfFuel, v.state)
          else
            var next := if v.state.peek.kind == RightBracket then Advance(env.next, v.state) else v.state;
            ArrayRun(env, ArrayValue, items + [v.outcome.value], start, next, fuel - 1)
      case ArrayValue =>
        if s.cur.kind == RightBracket then Run(Done(Array(items, start, s.cur.end)), Advance(env.next, s))
        else if s.cur.kind == Comma then ArrayRun(env, ArrayComma, items, start, Advance(env.next, s), fuel - 1)
        else ArrayRun(env, ArrayValue, items, start, Report(s, ExpectedArrayBracketOrComma(s.cur.literal)), fuel - 1)
      case ArrayComma =>
        var v := ValueRun(env, s, fuel - 1);
        if v.outcome.OutOfFuel? then Run(OutOfFuel, v.state)
        else ArrayRun(env, ArrayValue, items + [v.outcome.value], start, v.state, fuel - 1)
  }

  /**
   * The loop of parseProperty (parser.go:198-237) from machine state st with the property
   * built so far. Past the Start state the key never changes.
   */
  function PropertyRun(env: Env, st: PropertyState, prop: Property, s: PState, fuel: nat): (r: Run<Property>)
    ensures st != PropertyStart && r.outcome.Done? ==> r.outcome.value.key == prop.key
    decreases fuel, 1
  {
    if s.cur.kind == EOF then Run(Done(prop), s)
    else if fuel == 0 then Run(OutOfFuel, s)
    else match st
      case PropertyStart =>
        if s.cur.kind == String then
          PropertyRun(env, PropertyKey, prop.(key := Identifier(s.cur.literal)), Advance(env.next, s), fuel - 1)
        else PropertyRun(env, PropertyStart, prop, Report(s, ExpectedKey(s.cur.literal)), fuel - 1)
      case PropertyKey =>
        if s.cur.kind == Colon then PropertyRun(env, PropertyColon, prop, Advance(env.next, s), fuel - 1)
        else PropertyRun(env, PropertyKey, prop, Report(s, ExpectedColon(s.cur.literal)), fuel - 1)
      case PropertyColon =>
        var v := ValueRun(env, s, fuel - 1);
        if v.outcome.OutOfFuel? then Run(OutOfFuel, v.state)
        else Run(Done(prop.(value := v.outcome.value)), v.state)
  }

  /**
   * ParseJson (parser.go:34-51). The root is tagged ArrayRoot exactly when the first
   * token is LeftBracket. It fails exactly when parserValue gives no value; it then
   * appends one more diagnostic and returns the empty root with all diagnostics.
   * ParserProperties proves that a failure carries at least two diagnostics.
   */
  function JsonRun(env: Env, s: PState, fuel: nat): (r: Run<JsonResult>)
    ensures r.outcome.Done? && r.outcome.value.err.None? ==>
      r.outcome.value.root.rootValue.Some? &&
      (r.outcome.value.root.kind == ArrayRoot <==> s.cur.kind == LeftBracket)
    ensures r.outcome.Done? && r.outcome.value.err.Some? ==>
      && s.cur.kind == LeftBrace
      && r.outcome.value.root == EmptyRoot
      && r.outcome.value.err == Some(r.state.errors)
      && |r.state.errors| > 0
      && r.state.errors[|r.state.errors| - 1] == ExpectedValue(r.state.cur.literal)
  {
    var kind := if s.cur.kind == LeftBracket then ArrayRoot else ObjectRoot;
    var v := ValueRun(env, s, fuel);
    match v.outcome
    case OutOfFuel => Run(OutOfFuel, v.state)
    case Done(None) =>
      var failed := Report(v.state, ExpectedValue(v.state.cur.literal));
      Run(Done(JsonResult(EmptyRoot, Some(failed.errors))), failed)
    case Done(Some(value)) => Run(Done(JsonResult(RootNode(Some(value), kind), None)), v.state)
  }

  /**
   * expectPeekType (parser.go:243-259): advances exactly when peek has the expected kind;
   * otherwise appends exactly one diagnostic and leaves the window and the lexer alone.
   */
  function ExpectPeekRun(next: TokenSource, s: PState, kind: TokenType): (r: (bool, PState))
    ensures r.0 <==> s.peek.kind == kind
    ensures r.0 ==> r.1.cur == s.peek && r.1.errors == s.errors && r.1.pos > s.pos
    ensures !r.0 ==>
      && r.1.cur == s.cur && r.1.peek == s.peek && r.1.pos == s.pos && r.1.line == s.line
      && |r.1.errors| == |s.errors| + 1 && s.errors <= r.1.errors
  {
    if s.peek.kind == kind then (true, Advance(next, s))
    else (false, Report(s, UnexpectedPeek(s.cur.line, kind, s.peek.kind)))
  }

  /** lexer.New, parser.New and ParseJson on a whole text, as a caller of the library does. */
  function ParseText(input: seq<char>, parseFloat: string -> Option<bv64>, fuel: nat): Outcome<JsonResult>
  {
    JsonRun(Env(LexerStep(input), parseFloat), Start(LexerStep(input), 0, 0), fuel).outcome
  }
}
