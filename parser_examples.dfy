/**
 * Whole-text runs of lexer.New, parser.New and ParseJson on small inputs, for every
 * float parser: the empty object, duplicate keys, a single-element array that never
 * finishes, line counting, and the same object written with and without spaces.
 */
module ParserExamples {
  import opened Wrappers
  import opened Token
  import opened LexerSpec
  import opened Ast
  import opened ParserSpec
  import opened LexerProperties
  import opened ParserLayout
  import opened ParserProperties

  /** The token after a newline reports the next line. */
  lemma LineAfterNewline()
    ensures TokenStream("{\n}", 0, 0, 2) == [Token(LeftBrace, "{", 0, 0, 1), Token(RightBrace, "}", 1, 2, 3)]
  {
    var input := "{\n}";
    assert WhitespaceEnd(input, 0) == 0;
    assert Lex(input, 0, 0) == Scan(Token(LeftBrace, "{", 0, 0, 1), 1, 0);
    assert WhitespaceEnd(input, 2) == 2;
    assert Lex(input, 1, 0) == Lex(input, 2, 1);
    assert Lex(input, 2, 1) == Scan(Token(RightBrace, "}", 1, 2, 3), 3, 1);
    assert TokenStream(input, 3, 1, 0) == [];
  }

  /**
   * `{}` gives an empty object starting at 0. Its End is read from the token after `}`,
   * which is EOF, whose End is 0: the object ends at 0, not 2.
   */
  lemma EmptyObject(parseFloat: string -> Option<bv64>, fuel: nat)
    requires fuel >= 2
    ensures ParseText("{}", parseFloat, fuel)
         == Done(JsonResult(RootNode(Some(Object([], 0, 0)), ObjectRoot), None))
  {
    var input := "{}";
    var next := LexerStep(input);
    var env := Env(next, parseFloat);
    assert WhitespaceEnd(input, 0) == 0 && WhitespaceEnd(input, 1) == 1 && WhitespaceEnd(input, 2) == 2;
    assert Lex(input, 0, 0) == Scan(Token(LeftBrace, "{", 0, 0, 1), 1, 0);
    assert Lex(input, 1, 0) == Scan(Token(RightBrace, "}", 0, 1, 2), 2, 0);
    assert Lex(input, 2, 0) == Scan(Token(EOF, "", 0, 0, 0), 3, 0);
    var s0 := Start(next, 0, 0);
    assert s0 == PState(2, 0, Token(LeftBrace, "{", 0, 0, 1), Token(RightBrace, "}", 0, 1, 2), []);
    var s1 := Advance(next, s0);
    assert s1.cur == Token(RightBrace, "}", 0, 1, 2) && s1.peek.kind == EOF;
    var s2 := Advance(next, s1);
    assert s2.cur == Token(EOF, "", 0, 0, 0);
    assert ObjectRun(env, ObjOpen, [], 0, s1, fuel - 1) == Run(Done(Some(Object([], 0, 0))), s2);
    assert ObjectRun(env, ObjStart, [], 0, s0, fuel) == Run(Done(Some(Object([], 0, 0))), s2);
  }

  /** The tokens of `[1]`: `]` comes out as LeftBracket. */
  lemma LexBracketOne()
    ensures Lex("[1]", 0, 0) == Scan(Token(LeftBracket, "[", 0, 0, 1), 1, 0)
    ensures Lex("[1]", 1, 0) == Scan(Token(Number, "1", 0, 1, 2), 2, 0)
    ensures Lex("[1]", 2, 0) == Scan(Token(LeftBracket, "]", 0, 2, 3), 3, 0)
    ensures Lex("[1]", 3, 0) == Scan(Token(EOF, "", 0, 0, 0), 4, 0)
  {
    assert WhitespaceEnd("[1]", 0) == 0 && WhitespaceEnd("[1]", 1) == 1;
    assert WhitespaceEnd("[1]", 2) == 2 && WhitespaceEnd("[1]", 3) == 3;
    assert Lex("[1]", 0, 0) == Scan(Token(LeftBracket, "[", 0, 0, 1), 1, 0);
    assert RunEnd("[1]", 1, IsNumber) == 2;
    assert Lex("[1]", 1, 0) == Scan(Token(Number, "1", 0, 1, 2), 2, 0);
    assert Lex("[1]", 2, 0) == Scan(Token(LeftBracket, "]", 0, 2, 3), 3, 0);
    assert Lex("[1]", 3, 0) == Scan(Token(EOF, "", 0, 0, 0), 4, 0);
  }

  /**
   * `[1]` never finishes: `]` is lexed as LeftBracket, so after the element the array
   * machine sits in HasValue on a token that is neither `]` nor `,` and reports it forever.
   */
  lemma SingleElementArrayDiverges(parseFloat: string -> Option<bv64>, fuel: nat)
    ensures ParseText("[1]", parseFloat, fuel) == OutOfFuel
  {
    var input := "[1]";
    var next := LexerStep(input);
    var env := Env(next, parseFloat);
    LexBracketOne();
    var s0 := Start(next, 0, 0);
    assert s0.cur.kind == LeftBracket && s0.peek == Token(Number, "1", 0, 1, 2) && s0.pos == 2;
    if fuel >= 2 {
      var s1 := Advance(next, s0);
      assert s1.cur.kind == Number && s1.peek == Token(LeftBracket, "]", 0, 2, 3) && s1.pos == 3;
      var s2 := Advance(next, s1);
      assert s2.cur.kind == LeftBracket && s2.peek.kind == EOF;
      var lit := LiteralRun(env, s1);
      assert lit.1.cur == s2.cur && lit.1.peek == s2.peek;
      assert ValueRun(env, s1, fuel - 2) == Run(Done(Some(lit.0)), lit.1);
      ArrayValueSpins(env, [] + [Some(lit.0)], 0, lit.1, fuel - 2);
      assert ArrayRun(env, ArrayOpen, [], 0, s1, fuel - 1).outcome == OutOfFuel;
    }
    assert ArrayRun(env, ArrayStart, [], 0, s0, fuel).outcome == OutOfFuel;
  }

  const DuplicateKeysText := "{\"a\":true,\"a\":false}"

  /** The tokens of `{"a":true,"a":false}`. */
  lemma LexDuplicateKeys()
    ensures Lex(DuplicateKeysText, 0, 0) == Scan(Token(LeftBrace, "{", 0, 0, 1), 1, 0)
    ensures Lex(DuplicateKeysText, 1, 0) == Scan(Token(String, "a", 0, 3, 4), 4, 0)
    ensures Lex(DuplicateKeysText, 4, 0) == Scan(Token(Colon, ":", 0, 4, 5), 5, 0)
    ensures Lex(DuplicateKeysText, 5, 0) == Scan(Token(True, "true", 0, 5, 9), 9, 0)
    ensures Lex(DuplicateKeysText, 9, 0) == Scan(Token(Comma, ",", 0, 9, 10), 10, 0)
    ensures Lex(DuplicateKeysText, 10, 0) == Scan(Token(String, "a", 0, 12, 13), 13, 0)
    ensures Lex(DuplicateKeysText, 13, 0) == Scan(Token(Colon, ":", 0, 13, 14), 14, 0)
    ensures Lex(DuplicateKeysText, 14, 0) == Scan(Token(False, "false", 0, 14, 19), 19, 0)
    ensures Lex(DuplicateKeysText, 19, 0) == Scan(Token(RightBrace, "}", 0, 19, 20), 20, 0)
    ensures Lex(DuplicateKeysText, 20, 0) == Scan(Token(EOF, "", 0, 0, 0), 21, 0)
  {
    LexDuplicateKeysAt0();
    LexDuplicateKeysAt1();
    LexDuplicateKeysAt4();
    LexDuplicateKeysAt5();
    LexDuplicateKeysAt9();
    LexDuplicateKeysAt10();
    LexDuplicateKeysAt13();
    LexDuplicateKeysAt14();
    LexDuplicateKeysAt19();
    LexDuplicateKeysAt20();
  }

  lemma LexDuplicateKeysAt0()
    ensures Lex(DuplicateKeysText, 0, 0) == Scan(Token(LeftBrace, "{", 0, 0, 1), 1, 0)
  {
    LexNoSkip(DuplicateKeysText, 0, 0);
  }

  lemma LexDuplicateKeysAt1()
    ensures Lex(DuplicateKeysText, 1, 0) == Scan(Token(String, "a", 0, 3, 4), 4, 0)
  {
    LexNoSkip(DuplicateKeysText, 1, 0);
    StringEndAt(DuplicateKeysText, 1, 3);
  }

  lemma LexDuplicateKeysAt4()
    ensures Lex(DuplicateKeysText, 4, 0) == Scan(Token(Colon, ":", 0, 4, 5), 5, 0)
  {
    LexNoSkip(DuplicateKeysText, 4, 0);
  }

  lemma LexDuplicateKeysAt5()
    ensures Lex(DuplicateKeysText, 5, 0) == Scan(Token(True, "true", 0, 5, 9), 9, 0)
  {
    assert DuplicateKeysText[5..9] == "true";
    KeywordAt(DuplicateKeysText, 5, 0, "true", True);
  }

  lemma LexDuplicateKeysAt9()
    ensures Lex(DuplicateKeysText, 9, 0) == Scan(Token(Comma, ",", 0, 9, 10), 10, 0)
  {
    LexNoSkip(DuplicateKeysText, 9, 0);
  }

  lemma LexDuplicateKeysAt10()
    ensures Lex(DuplicateKeysText, 10, 0) == Scan(Token(String, "a", 0, 12, 13), 13, 0)
  {
    LexNoSkip(DuplicateKeysText, 10, 0);
    StringEndAt(DuplicateKeysText, 10, 12);
  }

  lemma LexDuplicateKeysAt13()
    ensures Lex(DuplicateKeysText, 13, 0) == Scan(Token(Colon, ":", 0, 13, 14), 14, 0)
  {
    LexNoSkip(DuplicateKeysText, 13, 0);
  }

  lemma LexDuplicateKeysAt14()
    ensures Lex(DuplicateKeysText, 14, 0) == Scan(Token(False, "false", 0, 14, 19), 19, 0)
  {
    assert DuplicateKeysText[14..19] == "false";
    KeywordAt(DuplicateKeysText, 14, 0, "false", False);
  }

  lemma LexDuplicateKeysAt19()
    ensures Lex(DuplicateKeysText, 19, 0) == Scan(Token(RightBrace, "}", 0, 19, 20), 20, 0)
  {
    LexNoSkip(DuplicateKeysText, 19, 0);
  }

  lemma LexDuplicateKeysAt20()
    ensures Lex(DuplicateKeysText, 20, 0) == Scan(Token(EOF, "", 0, 0, 0), 21, 0)
  {
    LexNoSkip(DuplicateKeysText, 20, 0);
  }

  /**
   * Duplicate keys are kept as separate properties, in source order:
   * `{"a":true,"a":false}` parses to two properties both named "a".
   */
  lemma DuplicateKeysKept(parseFloat: string -> Option<bv64>, fuel: nat)
    requires fuel >= 10
    ensures ParseText(DuplicateKeysText, parseFloat, fuel)
         == Done(JsonResult(RootNode(Some(Object(
              [Property(Identifier("a"), Some(Literal(Bool(true)))),
               Property(Identifier("a"), Some(Literal(Bool(false))))], 0, 0)), ObjectRoot), None))
  {
    var next := LexerStep(DuplicateKeysText);
    LexDuplicateKeys();
    DuplicateKeysParse(Env(next, parseFloat), fuel);
  }

  /** The parse of `{"a":true,"a":false}` over any token source that yields its tokens. */
  lemma DuplicateKeysParse(env: Env, fuel: nat)
    requires fuel >= 10
    requires env.next(0, 0) == Scan(Token(LeftBrace, "{", 0, 0, 1), 1, 0)
    requires env.next(1, 0) == Scan(Token(String, "a", 0, 3, 4), 4, 0)
    requires env.next(4, 0) == Scan(Token(Colon, ":", 0, 4, 5), 5, 0)
    requires env.next(5, 0) == Scan(Token(True, "true", 0, 5, 9), 9, 0)
    requires env.next(9, 0) == Scan(Token(Comma, ",", 0, 9, 10), 10, 0)
    requires env.next(10, 0) == Scan(Token(String, "a", 0, 12, 13), 13, 0)
    requires env.next(13, 0) == Scan(Token(Colon, ":", 0, 13, 14), 14, 0)
    requires env.next(14, 0) == Scan(Token(False, "false", 0, 14, 19), 19, 0)
    requires env.next(19, 0) == Scan(Token(RightBrace, "}", 0, 19, 20), 20, 0)
    requires env.next(20, 0) == Scan(Token(EOF, "", 0, 0, 0), 21, 0)
    ensures JsonRun(env, Start(env.next, 0, 0), fuel).outcome
         == Done(JsonResult(RootNode(Some(Object(
              [Property(Identifier("a"), Some(Literal(Bool(true)))),
               Property(Identifier("a"), Some(Literal(Bool(false))))], 0, 0)), ObjectRoot), None))
  {
    var s0 := Start(env.next, 0, 0);
    assert s0 == PState(4, 0, Token(LeftBrace, "{", 0, 0, 1), Token(String, "a", 0, 3, 4), []);
    DuplicateKeysObject(env, fuel);
    assert ValueRun(env, s0, fuel) == ObjectRun(env, ObjStart, [], 0, s0, fuel);
  }

  /** The object loop over `{"a":true,"a":false}`, from the opening brace. */
  lemma DuplicateKeysObject(env: Env, fuel: nat)
    requires fuel >= 10
    requires env.next(4, 0) == Scan(Token(Colon, ":", 0, 4, 5), 5, 0)
    requires env.next(5, 0) == Scan(Token(True, "true", 0, 5, 9), 9, 0)
    requires env.next(9, 0) == Scan(Token(Comma, ",", 0, 9, 10), 10, 0)
    requires env.next(10, 0) == Scan(Token(String, "a", 0, 12, 13), 13, 0)
    requires env.next(13, 0) == Scan(Token(Colon, ":", 0, 13, 14), 14, 0)
    requires env.next(14, 0) == Scan(Token(False, "false", 0, 14, 19), 19, 0)
    requires env.next(19, 0) == Scan(Token(RightBrace, "}", 0, 19, 20), 20, 0)
    requires env.next(20, 0) == Scan(Token(EOF, "", 0, 0, 0), 21, 0)
    ensures ObjectRun(env, ObjStart, [], 0,
                      PState(4, 0, Token(LeftBrace, "{", 0, 0, 1), Token(String, "a", 0, 3, 4), []), fuel).outcome
         == Done(Some(Object([Property(Identifier("a"), Some(Literal(Bool(true)))),
                              Property(Identifier("a"), Some(Literal(Bool(false))))], 0, 0)))
  {
    var p1 := Property(Identifier("a"), Some(Literal(Bool(true))));
    var s0 := PState(4, 0, Token(LeftBrace, "{", 0, 0, 1), Token(String, "a", 0, 3, 4), []);
    var s1 := Advance(env.next, s0);
    assert s1 == PState(5, 0, Token(String, "a", 0, 3, 4), Token(Colon, ":", 0, 4, 5), []);
    var s4 := PState(13, 0, Token(Comma, ",", 0, 9, 10), Token(String, "a", 0, 12, 13), []);
    DuplicateKeysFirst(env, fuel - 2);
    assert [] + [p1] == [p1];
    ObjectTakesProperty(env, ObjOpen, [], 0, s1, fuel - 1, p1, s4);
    DuplicateKeysRest(env, fuel - 2);
    ObjectOpens(env, [], 0, s0, fuel);
  }

  /** From the comma after the first property of `{"a":true,"a":false}` to the end of the object. */
  lemma DuplicateKeysRest(env: Env, fuel: nat)
    requires fuel >= 6
    requires env.next(13, 0) == Scan(Token(Colon, ":", 0, 13, 14), 14, 0)
    requires env.next(14, 0) == Scan(Token(False, "false", 0, 14, 19), 19, 0)
    requires env.next(19, 0) == Scan(Token(RightBrace, "}", 0, 19, 20), 20, 0)
    requires env.next(20, 0) == Scan(Token(EOF, "", 0, 0, 0), 21, 0)
    ensures var p1 := Property(Identifier("a"), Some(Literal(Bool(true))));
      var p2 := Property(Identifier("a"), Some(Literal(Bool(false))));
      var s8 := PState(21, 0, Token(RightBrace, "}", 0, 19, 20), Token(EOF, "", 0, 0, 0), []);
      ObjectRun(env, ObjProperty, [p1], 0,
                PState(13, 0, Token(Comma, ",", 0, 9, 10), Token(String, "a", 0, 12, 13), []), fuel)
        == Run(Done(Some(Object([p1, p2], 0, 0))), Advance(env.next, s8))
  {
    var p1 := Property(Identifier("a"), Some(Literal(Bool(true))));
    var p2 := Property(Identifier("a"), Some(Literal(Bool(false))));
    var s4 := PState(13, 0, Token(Comma, ",", 0, 9, 10), Token(String, "a", 0, 12, 13), []);
    var s5 := Advance(env.next, s4);
    assert s5 == PState(14, 0, Token(String, "a", 0, 12, 13), Token(Colon, ":", 0, 13, 14), []);
    var s8 := PState(21, 0, Token(RightBrace, "}", 0, 19, 20), Token(EOF, "", 0, 0, 0), []);
    var done := Run(Done(Some(Object([p1, p2], 0, 0))), Advance(env.next, s8));
    ObjectPropertyStep(env, [p1, p2], 0, s8, fuel - 2);
    assert ObjectRun(env, ObjProperty, [p1, p2], 0, s8, fuel - 2) == done;
    DuplicateKeysSecond(env, fuel - 2);
    assert [p1] + [p2] == [p1, p2];
    ObjectTakesProperty(env, ObjComma, [p1], 0, s5, fuel - 1, p2, s8);
    assert ObjectRun(env, ObjComma, [p1], 0, s5, fuel - 1) == done;
    ObjectPropertyStep(env, [p1], 0, s4, fuel);
  }

  /** The first property of `{"a":true,"a":false}`, from the key up to the comma. */
  lemma DuplicateKeysFirst(env: Env, fuel: nat)
    requires fuel >= 4
    requires env.next(5, 0) == Scan(Token(True, "true", 0, 5, 9), 9, 0)
    requires env.next(9, 0) == Scan(Token(Comma, ",", 0, 9, 10), 10, 0)
    requires env.next(10, 0) == Scan(Token(String, "a", 0, 12, 13), 13, 0)
    ensures PropertyRun(env, PropertyStart, EmptyProperty,
                        PState(5, 0, Token(String, "a", 0, 3, 4), Token(Colon, ":", 0, 4, 5), []), fuel)
         == Run(Done(Property(Identifier("a"), Some(Literal(Bool(true))))),
                PState(13, 0, Token(Comma, ",", 0, 9, 10), Token(String, "a", 0, 12, 13), []))
  {
    var s := PState(5, 0, Token(String, "a", 0, 3, 4), Token(Colon, ":", 0, 4, 5), []);
    ScalarPropertyRun(env, s, fuel);
    var v := Advance(env.next, Advance(env.next, s));
    assert v == PState(10, 0, Token(True, "true", 0, 5, 9), Token(Comma, ",", 0, 9, 10), []);
  }

  /** The second property of `{"a":true,"a":false}`, from the key up to the closing brace. */
  lemma DuplicateKeysSecond(env: Env, fuel: nat)
    requires fuel >= 4
    requires env.next(14, 0) == Scan(Token(False, "false", 0, 14, 19), 19, 0)
    requires env.next(19, 0) == Scan(Token(RightBrace, "}", 0, 19, 20), 20, 0)
    requires env.next(20, 0) == Scan(Token(EOF, "", 0, 0, 0), 21, 0)
    ensures PropertyRun(env, PropertyStart, EmptyProperty,
                        PState(14, 0, Token(String, "a", 0, 12, 13), Token(Colon, ":", 0, 13, 14), []), fuel)
         == Run(Done(Property(Identifier("a"), Some(Literal(Bool(false))))),
                PState(21, 0, Token(RightBrace, "}", 0, 19, 20), Token(EOF, "", 0, 0, 0), []))
  {
    var s := PState(14, 0, Token(String, "a", 0, 12, 13), Token(Colon, ":", 0, 13, 14), []);
    ScalarPropertyRun(env, s, fuel);
    var v := Advance(env.next, Advance(env.next, s));
    assert v == PState(20, 0, Token(False, "false", 0, 14, 19), Token(RightBrace, "}", 0, 19, 20), []);
  }

  // ---------------------------------------------------------------------------------
  // `{ "a" : 1 }` and `{"a":1}` lex to streams with the same kinds and texts.

  const SpacedText := "{ \"a\" : 1 }"
  const CompactText := "{\"a\":1}"

  lemma LexSpaced()
    ensures Lex(SpacedText, 0, 0) == Scan(Token(LeftBrace, "{", 0, 0, 1), 1, 0)
    ensures Lex(SpacedText, 1, 0) == Scan(Token(String, "a", 0, 4, 5), 5, 0)
    ensures Lex(SpacedText, 5, 0) == Scan(Token(Colon, ":", 0, 6, 7), 7, 0)
    ensures Lex(SpacedText, 7, 0) == Scan(Token(Number, "1", 0, 8, 9), 9, 0)
    ensures Lex(SpacedText, 9, 0) == Scan(Token(RightBrace, "}", 0, 10, 11), 11, 0)
  {
    LexSpacedAt0();
    LexSpacedAt1();
    LexSpacedAt5();
    LexSpacedAt7();
    LexSpacedAt9();
  }

  lemma LexSpacedAt0()
    ensures Lex(SpacedText, 0, 0) == Scan(Token(LeftBrace, "{", 0, 0, 1), 1, 0)
  {
    LexNoSkip(SpacedText, 0, 0);
  }

  lemma LexSpacedAt1()
    ensures Lex(SpacedText, 1, 0) == Scan(Token(String, "a", 0, 4, 5), 5, 0)
  {
    LexAfterSpace(SpacedText, 1, 0);
    StringEndAt(SpacedText, 2, 4);
  }

  lemma LexSpacedAt5()
    ensures Lex(SpacedText, 5, 0) == Scan(Token(Colon, ":", 0, 6, 7), 7, 0)
  {
    LexAfterSpace(SpacedText, 5, 0);
  }

  lemma LexSpacedAt7()
    ensures Lex(SpacedText, 7, 0) == Scan(Token(Number, "1", 0, 8, 9), 9, 0)
  {
    LexAfterSpace(SpacedText, 7, 0);
    RunEndAt(SpacedText, 8, 9, IsNumber);
  }

  lemma LexSpacedAt9()
    ensures Lex(SpacedText, 9, 0) == Scan(Token(RightBrace, "}", 0, 10, 11), 11, 0)
  {
    LexAfterSpace(SpacedText, 9, 0);
  }

  lemma LexCompact()
    ensures Lex(CompactText, 0, 0) == Scan(Token(LeftBrace, "{", 0, 0, 1), 1, 0)
    ensures Lex(CompactText, 1, 0) == Scan(Token(String, "a", 0, 3, 4), 4, 0)
    ensures Lex(CompactText, 4, 0) == Scan(Token(Colon, ":", 0, 4, 5), 5, 0)
    ensures Lex(CompactText, 5, 0) == Scan(Token(Number, "1", 0, 5, 6), 6, 0)
    ensures Lex(CompactText, 6, 0) == Scan(Token(RightBrace, "}", 0, 6, 7), 7, 0)
  {
    LexCompactAt0();
    LexCompactAt1();
    LexCompactAt4();
    LexCompactAt5();
    LexCompactAt6();
  }

  lemma LexCompactAt0()
    ensures Lex(CompactText, 0, 0) == Scan(Token(LeftBrace, "{", 0, 0, 1), 1, 0)
  {
    LexNoSkip(CompactText, 0, 0);
  }

  lemma LexCompactAt1()
    ensures Lex(CompactText, 1, 0) == Scan(Token(String, "a", 0, 3, 4), 4, 0)
  {
    LexNoSkip(CompactText, 1, 0);
    StringEndAt(CompactText, 1, 3);
  }

  lemma LexCompactAt4()
    ensures Lex(CompactText, 4, 0) == Scan(Token(Colon, ":", 0, 4, 5), 5, 0)
  {
    LexNoSkip(CompactText, 4, 0);
  }

  lemma LexCompactAt5()
    ensures Lex(CompactText, 5, 0) == Scan(Token(Number, "1", 0, 5, 6), 6, 0)
  {
    LexNoSkip(CompactText, 5, 0);
    RunEndAt(CompactText, 5, 6, IsNumber);
  }

  lemma LexCompactAt6()
    ensures Lex(CompactText, 6, 0) == Scan(Token(RightBrace, "}", 0, 6, 7), 7, 0)
  {
    LexNoSkip(CompactText, 6, 0);
  }

  /** Past the end of the input the lexer yields EOF with empty text, forever. */
  lemma {:induction false} EofPastEnd(input: seq<char>, pos: nat, line: int, k: nat)
    requires pos >= |input|
    ensures var t := NthToken(LexerStep(input), pos, line, k); t.kind == EOF && t.literal == ""
    decreases k
  {
    LexPastEnd(input, pos, line);
    if k > 0 {
      EofPastEnd(input, pos + 1, line, k - 1);
    }
  }

  lemma SpacedAgreesWithCompact()
    ensures StreamsAgree(LexerStep(SpacedText), 0, 0, LexerStep(CompactText), 0, 0)
  {
    var n1 := LexerStep(SpacedText);
    var n2 := LexerStep(CompactText);
    LexSpaced();
    LexCompact();
    forall k: nat
      ensures SameText(NthToken(n1, 11, 0, k), NthToken(n2, 7, 0, k))
    {
      EofPastEnd(SpacedText, 11, 0, k);
      EofPastEnd(CompactText, 7, 0, k);
    }
    AgreeStep(n1, 9, 0, n2, 6, 0);
    AgreeStep(n1, 7, 0, n2, 5, 0);
    AgreeStep(n1, 5, 0, n2, 4, 0);
    AgreeStep(n1, 1, 0, n2, 1, 0);
    AgreeStep(n1, 0, 0, n2, 0, 0);
  }

  /**
   * `{"a":1}` parses, with six units of fuel, to an ObjectRoot object holding the single
   * property "a", whatever the float parser makes of `1`.
   */
  lemma CompactParses(parseFloat: string -> Option<bv64>, fuel: nat)
    requires fuel >= 6
    ensures var r := ParseText(CompactText, parseFloat, fuel);
      && r.Done? && r.value.err.None? && r.value.root.kind == ObjectRoot
      && r.value.root.rootValue.Some? && r.value.root.rootValue.value.Object?
      && |r.value.root.rootValue.value.properties| == 1
      && r.value.root.rootValue.value.properties[0].key == Identifier("a")
  {
    LexCompact();
    CompactParse(Env(LexerStep(CompactText), parseFloat), fuel);
  }

  /** The parse of `{"a":1}` over any token source that yields its tokens. */
  lemma CompactParse(env: Env, fuel: nat)
    requires fuel >= 6
    requires env.next(0, 0) == Scan(Token(LeftBrace, "{", 0, 0, 1), 1, 0)
    requires env.next(1, 0) == Scan(Token(String, "a", 0, 3, 4), 4, 0)
    requires env.next(4, 0) == Scan(Token(Colon, ":", 0, 4, 5), 5, 0)
    requires env.next(5, 0) == Scan(Token(Number, "1", 0, 5, 6), 6, 0)
    requires env.next(6, 0) == Scan(Token(RightBrace, "}", 0, 6, 7), 7, 0)
    ensures var r := JsonRun(env, Start(env.next, 0, 0), fuel).outcome;
      && r.Done? && r.value.err.None? && r.value.root.kind == ObjectRoot
      && r.value.root.rootValue.Some? && r.value.root.rootValue.value.Object?
      && |r.value.root.rootValue.value.properties| == 1
      && r.value.root.rootValue.value.properties[0].key == Identifier("a")
  {
    var s0 := Start(env.next, 0, 0);
    assert s0 == PState(4, 0, Token(LeftBrace, "{", 0, 0, 1), Token(String, "a", 0, 3, 4), []);
    CompactObject(env, fuel);
    assert ValueRun(env, s0, fuel) == ObjectRun(env, ObjStart, [], 0, s0, fuel);
  }

  /** The object loop over `{"a":1}`, from the opening brace. */
  lemma CompactObject(env: Env, fuel: nat)
    requires fuel >= 6
    requires env.next(4, 0) == Scan(Token(Colon, ":", 0, 4, 5), 5, 0)
    requires env.next(5, 0) == Scan(Token(Number, "1", 0, 5, 6), 6, 0)
    requires env.next(6, 0) == Scan(Token(RightBrace, "}", 0, 6, 7), 7, 0)
    ensures var r := ObjectRun(env, ObjStart, [], 0,
                               PState(4, 0, Token(LeftBrace, "{", 0, 0, 1), Token(String, "a", 0, 3, 4), []), fuel).outcome;
      && r.Done? && r.value.Some? && r.value.value.Object?
      && |r.value.value.properties| == 1 && r.value.value.properties[0].key == Identifier("a")
  {
    var s0 := PState(4, 0, Token(LeftBrace, "{", 0, 0, 1), Token(String, "a", 0, 3, 4), []);
    var s1 := Advance(env.next, s0);
    assert s1 == PState(5, 0, Token(String, "a", 0, 3, 4), Token(Colon, ":", 0, 4, 5), []);
    CompactProperty(env, fuel - 2);
    var v := PState(7, 0, Token(Number, "1", 0, 5, 6), Token(RightBrace, "}", 0, 6, 7), []);
    var (value, t) := LiteralRun(env, v);
    var p := Property(Identifier("a"), Some(value));
    ObjectTakesProperty(env, ObjOpen, [], 0, s1, fuel - 1, p, t);
    assert [] + [p] == [p];
    ObjectPropertyStep(env, [p], 0, t, fuel - 2);
    assert ObjectRun(env, ObjOpen, [], 0, s1, fuel - 1).outcome == Done(Some(Object([p], 0, Advance(env.next, t).cur.start)));
    ObjectOpens(env, [], 0, s0, fuel);
  }

  /** The property of `{"a":1}`, from the key up to the closing brace. */
  lemma CompactProperty(env: Env, fuel: nat)
    requires fuel >= 4
    requires env.next(5, 0) == Scan(Token(Number, "1", 0, 5, 6), 6, 0)
    requires env.next(6, 0) == Scan(Token(RightBrace, "}", 0, 6, 7), 7, 0)
    ensures var v := PState(7, 0, Token(Number, "1", 0, 5, 6), Token(RightBrace, "}", 0, 6, 7), []);
      PropertyRun(env, PropertyStart, EmptyProperty,
                  PState(5, 0, Token(String, "a", 0, 3, 4), Token(Colon, ":", 0, 4, 5), []), fuel)
        == Run(Done(Property(Identifier("a"), Some(LiteralRun(env, v).0))), LiteralRun(env, v).1)
  {
    var s := PState(5, 0, Token(String, "a", 0, 3, 4), Token(Colon, ":", 0, 4, 5), []);
    ScalarPropertyRun(env, s, fuel);
    assert Advance(env.next, Advance(env.next, s))
        == PState(7, 0, Token(Number, "1", 0, 5, 6), Token(RightBrace, "}", 0, 6, 7), []);
  }

  /**
   * Whitespace between tokens does not change the parse: `{ "a" : 1 }` and `{"a":1}`
   * both finish (with enough fuel) or neither does, with the same diagnostics, root kind
   * and tree up to offsets, for every float parser and every fuel bound.
   */
  lemma WhitespaceInsensitive(parseFloat: string -> Option<bv64>, fuel: nat)
    ensures var r1 := ParseText(SpacedText, parseFloat, fuel);
      var r2 := ParseText(CompactText, parseFloat, fuel);
      && (r1.Done? <==> r2.Done?)
      && (fuel >= 6 ==> r1.Done? && r2.Done?)
      && (r1.Done? && r2.Done? ==> UnspannedResult(r1.value) == UnspannedResult(r2.value))
    ensures var n1 := LexerStep(SpacedText);
      var n2 := LexerStep(CompactText);
      JsonRun(Env(n1, parseFloat), Start(n1, 0, 0), fuel).state.errors
        == JsonRun(Env(n2, parseFloat), Start(n2, 0, 0), fuel).state.errors
  {
    SpacedAgreesWithCompact();
    LayoutIrrelevant(LexerStep(SpacedText), 0, 0, LexerStep(CompactText), 0, 0, parseFloat, fuel);
    if fuel >= 6 {
      CompactParses(parseFloat, fuel);
    }
  }
}
