/**
 * The parser of src/parser/parser.go: a two-token window over a Lexer and a list of
 * diagnostics, updated in place. Every method takes the fuel bound described in
 * ParserSpec and is proved to produce the same outcome and the same new state as the
 * corresponding ParserSpec function.
 */
module Parser {
  import opened Wrappers
  import opened Token
  import opened LexerSpec
  import opened Ast
  import opened ParserSpec
  import L = Lexer

  class Parser {
    const lexer: L.Lexer
    /** strconv.ParseFloat(_, 64), supplied by the caller: None stands for a returned error. */
    const parseFloat: string -> Option<bv64>
    var errors: seq<Diagnostic>
    var currentToken: Token
    var peekToken: Token

    ghost predicate Valid()
      reads this, lexer
    {
      lexer.Valid()
    }

    function Environment(): Env
    {
      Env(LexerStep(lexer.input), parseFloat)
    }

    /** The abstract state the ParserSpec functions work on. */
    ghost function State(): PState
      reads this, lexer
      requires Valid()
    {
      PState(lexer.position, lexer.line, currentToken, peekToken, errors)
    }

    /** New: fills the window with the lexer's next two tokens (parser.go:22-27). */
    constructor (l: L.Lexer, parseFloat: string -> Option<bv64>)
      requires l.Valid()
      modifies l
      ensures Valid() && lexer == l && this.parseFloat == parseFloat
      ensures State() == Start(LexerStep(l.input), old(l.position), old(l.line))
    {
      lexer := l;
      this.parseFloat := parseFloat;
      errors := [];
      // Go's zero Token; both copies are shifted out by the two calls below.
      currentToken := Token(EOF, "", 0, 0, 0);
      peekToken := Token(EOF, "", 0, 0, 0);
      new;
      NextToken();
      NextToken();
    }

    /** Errors: the diagnostics collected so far, in order (Go joins them with ", "). */
    function Errors(): (ds: seq<Diagnostic>)
      reads this, lexer
      requires Valid()
      ensures ds == State().errors
    {
      errors
    }

    /** Moves peek into current and pulls exactly one new token from the lexer. */
    method NextToken()
      requires Valid()
      modifies this, lexer
      ensures Valid()
      ensures State() == Advance(LexerStep(lexer.input), old(State()))
    {
      currentToken := peekToken;
      peekToken := lexer.NextToken();
    }

    method ParseError(d: Diagnostic)
      requires Valid()
      modifies this
      ensures Valid()
      ensures State() == Report(old(State()), d)
    {
      errors := errors + [d];
    }

    /** Parses one value and wraps it in a root node, or fails with all diagnostics. */
    method ParseJson(fuel: nat) returns (r: Outcome<JsonResult>)
      requires Valid()
      modifies this, lexer
      ensures Valid()
      ensures Run(r, State()) == JsonRun(Environment(), old(State()), fuel)
    {
      var kind := ObjectRoot;
      if currentToken.kind == LeftBracket {
        kind := ArrayRoot;
      }
      var v := ParserValue(fuel);
      match v
      case OutOfFuel =>
        return OutOfFuel;
      case Done(None) =>
        ParseError(ExpectedValue(currentToken.literal));
        return Done(JsonResult(EmptyRoot, Some(Errors())));
      case Done(Some(value)) =>
        return Done(JsonResult(RootNode(Some(value), kind), None));
    }

    method ParserValue(fuel: nat) returns (r: Outcome<Option<Value>>)
      requires Valid()
      modifies this, lexer
      ensures Valid()
      ensures Run(r, State()) == ValueRun(Environment(), old(State()), fuel)
      decreases fuel, 2
    {
      if currentToken.kind == LeftBrace {
        r := ParseJsonObject(fuel);
      } else if currentToken.kind == LeftBracket {
        var a := ParseArrayObject(fuel);
        r := if a.Done? then Done(Some(a.value)) else OutOfFuel;
      } else {
        var v := ParseJsonLiteral();
        r := Done(Some(v));
      }
    }

    method ParseJsonObject(fuel: nat) returns (r: Outcome<Option<Value>>)
      requires Valid()
      modifies this, lexer
      ensures Valid()
      ensures Run(r, State()) == ObjectRun(Environment(), ObjStart, [], 0, old(State()), fuel)
      decreases fuel, 1
    {
      var objState := ObjStart;
      var props: seq<Property> := [];
      var start := 0;
      var steps: nat := fuel;
      while currentToken.kind != EOF
        invariant Valid() && steps <= fuel
        invariant ObjectRun(Environment(), objState, props, start, State(), steps)
               == ObjectRun(Environment(), ObjStart, [], 0, old(State()), fuel)
        decreases steps
      {
        if steps == 0 {
          return OutOfFuel;
        }
        steps := steps - 1;
        match objState
        case ObjStart =>
          if currentToken.kind == LeftBrace {
            objState := ObjOpen;
            start := currentToken.start;
            NextToken();
          } else {
            ParseError(ExpectedObjectStart(currentToken.literal));
            return Done(None);
          }
        case ObjOpen =>
          if currentToken.kind == RightBrace {
            NextToken();
            return Done(Some(Object(props, start, currentToken.end)));
          }
          var prop := ParseProperty(steps);
          if prop.OutOfFuel? {
            return OutOfFuel;
          }
          props := props + [prop.value];
          objState := ObjProperty;
        case ObjProperty =>
          if currentToken.kind == RightBrace {
            NextToken();
            return Done(Some(Object(props, start, currentToken.start)));
          } else if currentToken.kind == Comma {
            objState := ObjComma;
            NextToken();
          } else {
            ParseError(ExpectedBraceOrComma(currentToken.literal));
            return Done(None);
          }
        case ObjComma =>
          var prop := ParseProperty(steps);
          if prop.OutOfFuel? {
            return OutOfFuel;
          }
          if prop.value.value.Some? {
            props := props + [prop.value];
            objState := ObjProperty;
          }
      }
      return Done(Some(Object(props, start, currentToken.start)));
    }

    method ParseArrayObject(fuel: nat) returns (r: Outcome<Value>)
      requires Valid()
      modifies this, lexer
      ensures Valid()
      ensures Run(r, State()) == ArrayRun(Environment(), ArrayStart, [], 0, old(State()), fuel)
      decreases fuel, 1
    {
      var arrayState := ArrayStart;
      var items: seq<Option<Value>> := [];
      var start := 0;
      var steps: nat := fuel;
      while currentToken.kind != EOF
        invariant Valid() && steps <= fuel
        invariant ArrayRun(Environment(), arrayState, items, start, State(), steps)
               == ArrayRun(Environment(), ArrayStart, [], 0, old(State()), fuel)
        decreases steps
      {
        if steps == 0 {
          return OutOfFuel;
        }
        steps := steps - 1;
        match arrayState
        case ArrayStart =>
          if currentToken.kind == LeftBracket {
            start := currentToken.start;
            arrayState := ArrayOpen;
            NextToken();
          }
        case ArrayOpen =>
          if currentToken.kind == RightBracket {
            var end := currentToken.end;
            NextToken();
            return Done(Array(items, start, end));
          }
          var v := ParserValue(steps);
          if v.OutOfFuel? {
            return OutOfFuel;
          }
          items := items + [v.value];
          arrayState := ArrayValue;
          if peekToken.kind == RightBracket {
            NextToken();
          }
        case ArrayValue =>
          if currentToken.kind == RightBracket {
            var end := currentToken.end;
            NextToken();
            return Done(Array(items, start, end));
          } else if currentToken.kind == Comma {
            arrayState := ArrayComma;
            NextToken();
          } else {
            ParseError(ExpectedArrayBracketOrComma(currentToken.literal));
          }
        case ArrayComma =>
          var v := ParserValue(steps);
          if v.OutOfFuel? {
            return OutOfFuel;
          }
          items := items + [v.value];
          arrayState := ArrayValue;
      }
      return Done(Array(items, start, currentToken.start));
    }

    /** Decodes the current token as a literal and then (Go's deferred call) moves past it. */
    method ParseJsonLiteral() returns (v: Value)
      requires Valid()
      modifies this, lexer
      ensures Valid()
      ensures (v, State()) == LiteralRun(Environment(), old(State()))
    {
      var t := currentToken;
      match t.kind {
      case String =>
        v := Literal(Str(t.literal));
      case Number =>
        var f := parseFloat(t.literal);
        if f.None? {
          ParseError(InvalidNumber);
          v := Literal(Str(t.literal));
        } else {
          v := Literal(Num(f.value));
        }
      case True =>
        v := Literal(Bool(true));
      case False =>
        v := Literal(Bool(false));
      case _ =>
        v := Literal(Str("null"));
      }
      NextToken();
    }

    method ParseProperty(fuel: nat) returns (r: Outcome<Property>)
      requires Valid()
      modifies this, lexer
      ensures Valid()
      ensures Run(r, State()) == PropertyRun(Environment(), PropertyStart, EmptyProperty, old(State()), fuel)
      decreases fuel, 1
    {
      var propertyState := PropertyStart;
      var prop := EmptyProperty;
      var steps: nat := fuel;
      while currentToken.kind != EOF
        invariant Valid() && steps <= fuel
        invariant PropertyRun(Environment(), propertyState, prop, State(), steps)
               == PropertyRun(Environment(), PropertyStart, EmptyProperty, old(State()), fuel)
        decreases steps
      {
        if steps == 0 {
          return OutOfFuel;
        }
        steps := steps - 1;
        match propertyState
        case PropertyStart =>
          if currentToken.kind == String {
            prop := prop.(key := Identifier(currentToken.literal));
            propertyState := PropertyKey;
            NextToken();
          } else {
            ParseError(ExpectedKey(currentToken.literal));
          }
        case PropertyKey =>
          if currentToken.kind == Colon {
            propertyState := PropertyColon;
            NextToken();
          } else {
            ParseError(ExpectedColon(currentToken.literal));
          }
        case PropertyColon =>
          var v := ParserValue(steps);
          if v.OutOfFuel? {
            return OutOfFuel;
          }
          prop := prop.(value := v.value);
          return Done(prop);
      }
      return Done(prop);
    }

    /** Advances past the current token iff peek has kind `kind`; otherwise records a peek diagnostic. */
    method ExpectPeekType(kind: TokenType) returns (ok: bool)
      requires Valid()
      modifies this, lexer
      ensures Valid()
      ensures (ok, State()) == ExpectPeekRun(LexerStep(lexer.input), old(State()), kind)
    {
      if peekToken.kind == kind {
        NextToken();
        return true;
      }
      PeekError(kind);
      return false;
    }

    /** peekError: one diagnostic naming the current line, the expected kind and the peek kind. */
    method PeekError(kind: TokenType)
      requires Valid()
      modifies this
      ensures Valid()
      ensures State() == Report(old(State()), UnexpectedPeek(old(currentToken.line), kind, old(peekToken.kind)))
    {
      errors := errors + [UnexpectedPeek(currentToken.line, kind, peekToken.kind)];
    }
  }
}
