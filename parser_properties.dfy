/**
 * Properties of the parser model: fuel only bounds the Go loops (more fuel never changes
 * a finished result), the states that append a diagnostic without consuming a token
 * spin forever, property keys come from String tokens, and worked inputs.
 */
module ParserProperties {
  import opened Wrappers
  import opened Token
  import opened LexerSpec
  import opened Ast
  import opened ParserSpec

  // ---------------------------------------------------------------------------------
  // Every procedure only appends diagnostics, only moves the lexer forward, keeps the
  // window free of RightBracket, and only appends properties and elements.

  /** What parseJsonObject keeps, besides Progress: properties are only appended, an abort follows a diagnostic. */
  ghost predicate ObjectKeeps(props: seq<Property>, s: PState, r: Run<Option<Value>>)
  {
    && Progress(s, r.state)
    && (r.outcome == Done(None) ==> |s.errors| < |r.state.errors|)
    && (r.outcome.Done? && r.outcome.value.Some? ==>
          r.outcome.value.value.Object? && props <= r.outcome.value.value.properties)
  }

  /**
   * What parseArrayObject keeps, besides Progress: elements are only appended, and on a
   * window without RightBracket (every window the lexer fills) the two closing branches
   * cannot fire, so a finished array parse always stops at EOF.
   */
  ghost predicate ArrayKeeps(items: seq<Option<Value>>, s: PState, r: Run<Value>)
  {
    && Progress(s, r.state)
    && (r.outcome.Done? ==> r.outcome.value.Array? && items <= r.outcome.value.elements)
    && (NoRightBracket(s) && r.outcome.Done? ==> r.state.cur.kind == EOF)
  }

  lemma {:induction false} ValueRunProgress(env: Env, s: PState, fuel: nat)
    ensures var r := ValueRun(env, s, fuel);
      Progress(s, r.state) && (r.outcome == Done(None) ==> |s.errors| < |r.state.errors|)
    decreases fuel, 2, 0
  {
    if s.cur.kind == LeftBrace {
      ObjectRunProgress(env, ObjStart, [], 0, s, fuel);
    } else if s.cur.kind == LeftBracket {
      ArrayRunProgress(env, ArrayStart, [], 0, s, fuel);
    }
  }

  lemma {:induction false} ObjectRunProgress(
    env: Env, st: ObjectState, props: seq<Property>, start: int, s: PState, fuel: nat)
    ensures ObjectKeeps(props, s, ObjectRun(env, st, props, start, s, fuel))
    decreases fuel, 1, 1
  {
    if s.cur.kind != EOF && fuel > 0 {
      match st
      case ObjStart =>
        if s.cur.kind == LeftBrace {
          ObjectRunProgress(env, ObjOpen, props, s.cur.start, Advance(env.next, s), fuel - 1);
        }
      case ObjOpen => ObjectOpenProgress(env, props, start, s, fuel);
      case ObjProperty =>
        if s.cur.kind == Comma {
          ObjectRunProgress(env, ObjComma, props, start, Advance(env.next, s), fuel - 1);
        }
      case ObjComma => ObjectCommaProgress(env, props, start, s, fuel);
    }
  }

  lemma {:induction false} ObjectOpenProgress(env: Env, props: seq<Property>, start: int, s: PState, fuel: nat)
    requires s.cur.kind != EOF && fuel > 0
    ensures ObjectKeeps(props, s, ObjectRun(env, ObjOpen, props, start, s, fuel))
    decreases fuel, 1, 0
  {
    if s.cur.kind != RightBrace {
      var p := PropertyRun(env, PropertyStart, EmptyProperty, s, fuel - 1);
      PropertyRunProgress(env, PropertyStart, EmptyProperty, s, fuel - 1);
      if p.outcome.Done? {
        ObjectRunProgress(env, ObjProperty, props + [p.outcome.value], start, p.state, fuel - 1);
      }
    }
  }

  lemma {:induction false} ObjectCommaProgress(env: Env, props: seq<Property>, start: int, s: PState, fuel: nat)
    requires s.cur.kind != EOF && fuel > 0
    ensures ObjectKeeps(props, s, ObjectRun(env, ObjComma, props, start, s, fuel))
    decreases fuel, 1, 0
  {
    var p := PropertyRun(env, PropertyStart, EmptyProperty, s, fuel - 1);
    PropertyRunProgress(env, PropertyStart, EmptyProperty, s, fuel - 1);
    if p.outcome.Done? {
      if p.outcome.value.value.Some? {
        ObjectRunProgress(env, ObjProperty, props + [p.outcome.value], start, p.state, fuel - 1);
      } else {
        ObjectRunProgress(env, ObjComma, props, start, p.state, fuel - 1);
      }
    }
  }

  lemma {:induction false} ArrayRunProgress(
    env: Env, st: ArrayState, items: seq<Option<Value>>, start: int, s: PState, fuel: nat)
    ensures ArrayKeeps(items, s, ArrayRun(env, st, items, start, s, fuel))
    decreases fuel, 1, 1
  {
    if s.cur.kind != EOF && fuel > 0 {
      match st
      case ArrayStart =>
        if s.cur.kind == LeftBracket {
          ArrayRunProgress(env, ArrayOpen, items, s.cur.start, Advance(env.next, s), fuel - 1);
        } else {
          ArrayRunProgress(env, ArrayStart, items, start, s, fuel - 1);
        }
      case ArrayOpen => ArrayOpenProgress(env, items, start, s, fuel);
      case ArrayValue =>
        if s.cur.kind == Comma {
          ArrayRunProgress(env, ArrayComma, items, start, Advance(env.next, s), fuel - 1);
        } else if s.cur.kind != RightBracket {
          ArrayRunProgress(env, ArrayValue, items, start, Report(s, ExpectedArrayBracketOrComma(s.cur.literal)), fuel - 1);
        }
      case ArrayComma => ArrayCommaProgress(env, items, start, s, fuel);
    }
  }

  /** ArrayKeeps from a later state and a longer prefix gives ArrayKeeps from an earlier one. */
  lemma ArrayKeepsWeakens(items: seq<Option<Value>>, items': seq<Option<Value>>, s: PState, t: PState, r: Run<Value>)
    requires items <= items' && Progress(s, t) && ArrayKeeps(items', t, r)
    ensures ArrayKeeps(items, s, r)
  {
  }

  lemma {:induction false} ArrayOpenProgress(env: Env, items: seq<Option<Value>>, start: int, s: PState, fuel: nat)
    requires s.cur.kind != EOF && fuel > 0
    ensures ArrayKeeps(items, s, ArrayRun(env, ArrayOpen, items, start, s, fuel))
    decreases fuel, 1, 0
  {
    if s.cur.kind != RightBracket {
      var v := ValueRun(env, s, fuel - 1);
      ValueRunProgress(env, s, fuel - 1);
      if v.outcome.Done? {
        var next := if v.state.peek.kind == RightBracket then Advance(env.next, v.state) else v.state;
        var r := ArrayRun(env, ArrayValue, items + [v.outcome.value], start, next, fuel - 1);
        ArrayRunProgress(env, ArrayValue, items + [v.outcome.value], start, next, fuel - 1);
        ArrayKeepsWeakens(items, items + [v.outcome.value], s, next, r);
        ArrayTakesValue(env, ArrayOpen, items, start, s, fuel, v.outcome.value, v.state);
      }
    }
  }

  lemma {:induction false} ArrayCommaProgress(env: Env, items: seq<Option<Value>>, start: int, s: PState, fuel: nat)
    requires s.cur.kind != EOF && fuel > 0
    ensures ArrayKeeps(items, s, ArrayRun(env, ArrayComma, items, start, s, fuel))
    decreases fuel, 1, 0
  {
    var v := ValueRun(env, s, fuel - 1);
    ValueRunProgress(env, s, fuel - 1);
    if v.outcome.Done? {
      var r := ArrayRun(env, ArrayValue, items + [v.outcome.value], start, v.state, fuel - 1);
      ArrayRunProgress(env, ArrayValue, items + [v.outcome.value], start, v.state, fuel - 1);
      ArrayKeepsWeakens(items, items + [v.outcome.value], s, v.state, r);
      ArrayTakesValue(env, ArrayComma, items, start, s, fuel, v.outcome.value, v.state);
    }
  }

  lemma {:induction false} PropertyRunProgress(env: Env, st: PropertyState, prop: Property, s: PState, fuel: nat)
    ensures Progress(s, PropertyRun(env, st, prop, s, fuel).state)
    decreases fuel, 1, 1
  {
    if s.cur.kind != EOF && fuel > 0 {
      match st
      case PropertyStart =>
        if s.cur.kind == String {
          PropertyRunProgress(env, PropertyKey, prop.(key := Identifier(s.cur.literal)), Advance(env.next, s), fuel - 1);
        } else {
          PropertyRunProgress(env, PropertyStart, prop, Report(s, ExpectedKey(s.cur.literal)), fuel - 1);
        }
      case PropertyKey =>
        if s.cur.kind == Colon {
          PropertyRunProgress(env, PropertyColon, prop, Advance(env.next, s), fuel - 1);
        } else {
          PropertyRunProgress(env, PropertyKey, prop, Report(s, ExpectedColon(s.cur.literal)), fuel - 1);
        }
      case PropertyColon =>
        ValueRunProgress(env, s, fuel - 1);
    }
  }

  /**
   * ParseJson keeps Progress, and a failure carries at least two diagnostics: the one
   * the object parse reported and the closing ExpectedValue.
   */
  lemma JsonRunProgress(env: Env, s: PState, fuel: nat)
    ensures var r := JsonRun(env, s, fuel);
      && Progress(s, r.state)
      && (r.outcome.Done? && r.outcome.value.err.Some? ==> |r.state.errors| >= |s.errors| + 2)
  {
    ValueRunProgress(env, s, fuel);
  }

  /**
   * ParseJson fails exactly when parserValue finishes without a value, and then the
   * diagnostics are those of parserValue plus one ExpectedValue naming the token reached.
   */
  lemma JsonFailsExactlyWithoutValue(env: Env, s: PState, fuel: nat)
    ensures var r := JsonRun(env, s, fuel);
      var v := ValueRun(env, s, fuel);
      && (r.outcome.Done? <==> v.outcome.Done?)
      && (r.outcome.Done? ==> (r.outcome.value.err.Some? <==> v.outcome.value.None?))
      && (r.outcome.Done? && v.outcome.value.None? ==>
            r.state.errors == v.state.errors + [ExpectedValue(v.state.cur.literal)])
      && (r.outcome.Done? && v.outcome.value.Some? ==>
            r.state == v.state && r.outcome.value.root.rootValue == v.outcome.value)
  {
  }

  /**
   * What a literal decodes to: booleans come only from True and False tokens, floats only
   * from Number tokens the float parser accepts, and every other token that is not a
   * String or Number, the `null` keyword included, becomes the string "null", the same
   * value a String token "null" gives.
   */
  lemma LiteralDecoding(env: Env, s: PState)
    ensures var v := LiteralRun(env, s).0;
      && v.Literal?
      && (v.scalar.Bool? <==> s.cur.kind in {True, False})
      && (v.scalar.Bool? ==> v.scalar.b == (s.cur.kind == True))
      && (v.scalar.Num? <==> s.cur.kind == Number && env.parseFloat(s.cur.literal).Some?)
      && (v.scalar.Num? ==> Some(v.scalar.bits) == env.parseFloat(s.cur.literal))
      && (s.cur.kind in {String, Number} && v.scalar.Str? ==> v.scalar.s == s.cur.literal)
      && (s.cur.kind !in {String, Number, True, False} ==> v == Literal(Str("null")))
      && (s.cur.kind == Null ==> v == LiteralRun(env, s.(cur := Token(String, "null", 0, 0, 0))).0)
  {
  }

  // ---------------------------------------------------------------------------------
  // Fuel is only a bound: a result reached within f steps is the result for any g >= f.

  lemma {:induction false} ValueRunMonotone(env: Env, s: PState, f: nat, g: nat)
    requires f <= g && ValueRun(env, s, f).outcome.Done?
    ensures ValueRun(env, s, g) == ValueRun(env, s, f)
    decreases f, 2, 0
  {
    if s.cur.kind == LeftBrace {
      ObjectRunMonotone(env, ObjStart, [], 0, s, f, g);
    } else if s.cur.kind == LeftBracket {
      ArrayRunMonotone(env, ArrayStart, [], 0, s, f, g);
    }
  }

  lemma {:induction false} ObjectRunMonotone(
    env: Env, st: ObjectState, props: seq<Property>, start: int, s: PState, f: nat, g: nat)
    requires f <= g && ObjectRun(env, st, props, start, s, f).outcome.Done?
    ensures ObjectRun(env, st, props, start, s, g) == ObjectRun(env, st, props, start, s, f)
    decreases f, 1, 1
  {
    if s.cur.kind != EOF {
      match st
      case ObjStart => ObjectStartMonotone(env, props, start, s, f, g);
      case ObjOpen => ObjectOpenMonotone(env, props, start, s, f, g);
      case ObjProperty => ObjectPropertyMonotone(env, props, start, s, f, g);
      case ObjComma => ObjectCommaMonotone(env, props, start, s, f, g);
    }
  }

  lemma {:induction false} ObjectStartMonotone(env: Env, props: seq<Property>, start: int, s: PState, f: nat, g: nat)
    requires f <= g && s.cur.kind != EOF && ObjectRun(env, ObjStart, props, start, s, f).outcome.Done?
    ensures ObjectRun(env, ObjStart, props, start, s, g) == ObjectRun(env, ObjStart, props, start, s, f)
    decreases f, 1, 0
  {
    if s.cur.kind == LeftBrace {
      ObjectRunMonotone(env, ObjOpen, props, s.cur.start, Advance(env.next, s), f - 1, g - 1);
    }
  }

  lemma {:induction false} ObjectOpenMonotone(env: Env, props: seq<Property>, start: int, s: PState, f: nat, g: nat)
    requires f <= g && s.cur.kind != EOF && ObjectRun(env, ObjOpen, props, start, s, f).outcome.Done?
    ensures ObjectRun(env, ObjOpen, props, start, s, g) == ObjectRun(env, ObjOpen, props, start, s, f)
    decreases f, 1, 0
  {
    if s.cur.kind != RightBrace {
      var p := PropertyRun(env, PropertyStart, EmptyProperty, s, f - 1);
      PropertyRunMonotone(env, PropertyStart, EmptyProperty, s, f - 1, g - 1);
      ObjectRunMonotone(env, ObjProperty, props + [p.outcome.value], start, p.state, f - 1, g - 1);
    }
  }

  lemma {:induction false} ObjectPropertyMonotone(env: Env, props: seq<Property>, start: int, s: PState, f: nat, g: nat)
    requires f <= g && s.cur.kind != EOF && ObjectRun(env, ObjProperty, props, start, s, f).outcome.Done?
    ensures ObjectRun(env, ObjProperty, props, start, s, g) == ObjectRun(env, ObjProperty, props, start, s, f)
    decreases f, 1, 0
  {
    if s.cur.kind == Comma {
      ObjectRunMonotone(env, ObjComma, props, start, Advance(env.next, s), f - 1, g - 1);
    }
  }

  lemma {:induction false} ObjectCommaMonotone(env: Env, props: seq<Property>, start: int, s: PState, f: nat, g: nat)
    requires f <= g && s.cur.kind != EOF && ObjectRun(env, ObjComma, props, start, s, f).outcome.Done?
    ensures ObjectRun(env, ObjComma, props, start, s, g) == ObjectRun(env, ObjComma, props, start, s, f)
    decreases f, 1, 0
  {
    var p := PropertyRun(env, PropertyStart, EmptyProperty, s, f - 1);
    PropertyRunMonotone(env, PropertyStart, EmptyProperty, s, f - 1, g - 1);
    if p.outcome.value.value.Some? {
      ObjectRunMonotone(env, ObjProperty, props + [p.outcome.value], start, p.state, f - 1, g - 1);
    } else {
      ObjectRunMonotone(env, ObjComma, props, start, p.state, f - 1, g - 1);
    }
  }

  lemma {:induction false} ArrayRunMonotone(
    env: Env, st: ArrayState, items: seq<Option<Value>>, start: int, s: PState, f: nat, g: nat)
    requires f <= g && ArrayRun(env, st, items, start, s, f).outcome.Done?
    ensures ArrayRun(env, st, items, start, s, g) == ArrayRun(env, st, items, start, s, f)
    decreases f, 1, 1
  {
    if s.cur.kind != EOF {
      match st
      case ArrayStart => ArrayStartMonotone(env, items, start, s, f, g);
      case ArrayOpen => ArrayOpenMonotone(env, items, start, s, f, g);
      case ArrayValue => ArrayValueMonotone(env, items, start, s, f, g);
      case ArrayComma => ArrayCommaMonotone(env, items, start, s, f, g);
    }
  }

  lemma {:induction false} ArrayStartMonotone(env: Env, items: seq<Option<Value>>, start: int, s: PState, f: nat, g: nat)
    requires f <= g && s.cur.kind != EOF && ArrayRun(env, ArrayStart, items, start, s, f).outcome.Done?
    ensures ArrayRun(env, ArrayStart, items, start, s, g) == ArrayRun(env, ArrayStart, items, start, s, f)
    decreases f, 1, 0
  {
    if s.cur.kind == LeftBracket {
      ArrayRunMonotone(env, ArrayOpen, items, s.cur.start, Advance(env.next, s), f - 1, g - 1);
    } else {
      ArrayRunMonotone(env, ArrayStart, items, start, s, f - 1, g - 1);
    }
  }

  lemma {:induction false} ArrayOpenMonotone(env: Env, items: seq<Option<Value>>, start: int, s: PState, f: nat, g: nat)
    requires f <= g && s.cur.kind != EOF && ArrayRun(env, ArrayOpen, items, start, s, f).outcome.Done?
    ensures ArrayRun(env, ArrayOpen, items, start, s, g) == ArrayRun(env, ArrayOpen, items, start, s, f)
    decreases f, 1, 0
  {
    if s.cur.kind != RightBracket {
      var v := ValueRun(env, s, f - 1);
      ValueRunMonotone(env, s, f - 1, g - 1);
      var next := if v.state.peek.kind == RightBracket then Advance(env.next, v.state) else v.state;
      ArrayRunMonotone(env, ArrayValue, items + [v.outcome.value], start, next, f - 1, g - 1);
    }
  }

  lemma {:induction false} ArrayValueMonotone(env: Env, items: seq<Option<Value>>, start: int, s: PState, f: nat, g: nat)
    requires f <= g && s.cur.kind != EOF && ArrayRun(env, ArrayValue, items, start, s, f).outcome.Done?
    ensures ArrayRun(env, ArrayValue, items, start, s, g) == ArrayRun(env, ArrayValue, items, start, s, f)
    decreases f, 1, 0
  {
    if s.cur.kind == Comma {
      ArrayRunMonotone(env, ArrayComma, items, start, Advance(env.next, s), f - 1, g - 1);
    } else if s.cur.kind != RightBracket {
      ArrayRunMonotone(env, ArrayValue, items, start, Report(s, ExpectedArrayBracketOrComma(s.cur.literal)), f - 1, g - 1);
    }
  }

  lemma {:induction false} ArrayCommaMonotone(env: Env, items: seq<Option<Value>>, start: int, s: PState, f: nat, g: nat)
    requires f <= g && s.cur.kind != EOF && ArrayRun(env, ArrayComma, items, start, s, f).outcome.Done?
    ensures ArrayRun(env, ArrayComma, items, start, s, g) == ArrayRun(env, ArrayComma, items, start, s, f)
    decreases f, 1, 0
  {
    var v := ValueRun(env, s, f - 1);
    ValueRunMonotone(env, s, f - 1, g - 1);
    ArrayRunMonotone(env, ArrayValue, items + [v.outcome.value], start, v.state, f - 1, g - 1);
  }

  lemma {:induction false} PropertyRunMonotone(
    env: Env, st: PropertyState, prop: Property, s: PState, f: nat, g: nat)
    requires f <= g && PropertyRun(env, st, prop, s, f).outcome.Done?
    ensures PropertyRun(env, st, prop, s, g) == PropertyRun(env, st, prop, s, f)
    decreases f, 1, 1
  {
    if s.cur.kind != EOF {
      match st
      case PropertyStart => PropertyStartMonotone(env, prop, s, f, g);
      case PropertyKey => PropertyKeyMonotone(env, prop, s, f, g);
      case PropertyColon => PropertyColonMonotone(env, prop, s, f, g);
    }
  }

  lemma {:induction false} PropertyStartMonotone(env: Env, prop: Property, s: PState, f: nat, g: nat)
    requires f <= g && s.cur.kind != EOF && PropertyRun(env, PropertyStart, prop, s, f).outcome.Done?
    ensures PropertyRun(env, PropertyStart, prop, s, g) == PropertyRun(env, PropertyStart, prop, s, f)
    decreases f, 1, 0
  {
    if s.cur.kind == String {
      PropertyRunMonotone(env, PropertyKey, prop.(key := Identifier(s.cur.literal)), Advance(env.next, s), f - 1, g - 1);
    } else {
      PropertyRunMonotone(env, PropertyStart, prop, Report(s, ExpectedKey(s.cur.literal)), f - 1, g - 1);
    }
  }

  lemma {:induction false} PropertyKeyMonotone(env: Env, prop: Property, s: PState, f: nat, g: nat)
    requires f <= g && s.cur.kind != EOF && PropertyRun(env, PropertyKey, prop, s, f).outcome.Done?
    ensures PropertyRun(env, PropertyKey, prop, s, g) == PropertyRun(env, PropertyKey, prop, s, f)
    decreases f, 1, 0
  {
    if s.cur.kind == Colon {
      PropertyRunMonotone(env, PropertyColon, prop, Advance(env.next, s), f - 1, g - 1);
    } else {
      PropertyRunMonotone(env, PropertyKey, prop, Report(s, ExpectedColon(s.cur.literal)), f - 1, g - 1);
    }
  }

  lemma {:induction false} PropertyColonMonotone(env: Env, prop: Property, s: PState, f: nat, g: nat)
    requires f <= g && s.cur.kind != EOF && PropertyRun(env, PropertyColon, prop, s, f).outcome.Done?
    ensures PropertyRun(env, PropertyColon, prop, s, g) == PropertyRun(env, PropertyColon, prop, s, f)
    decreases f, 1, 0
  {
    ValueRunMonotone(env, s, f - 1, g - 1);
  }

  /** A finished ParseJson is the same for every larger fuel: the bound never changes what Go returns. */
  lemma ParseTextMonotone(input: seq<char>, parseFloat: string -> Option<bv64>, f: nat, g: nat)
    requires f <= g && ParseText(input, parseFloat, f).Done?
    ensures ParseText(input, parseFloat, g) == ParseText(input, parseFloat, f)
  {
    ValueRunMonotone(Env(LexerStep(input), parseFloat), Start(LexerStep(input), 0, 0), f, g);
  }

  // ---------------------------------------------------------------------------------
  // States that report without consuming a token never finish.

  /** n copies of one diagnostic: what n passes through a reporting state append. */
  function Repeated(d: Diagnostic, n: nat): (ds: seq<Diagnostic>)
    ensures |ds| == n && forall i :: 0 <= i < n ==> ds[i] == d
  {
    if n == 0 then [] else [d] + Repeated(d, n - 1)
  }

  /**
   * In the Start state a token other than String (or EOF) is reported and kept, forever:
   * the window and the lexer stay put and each pass appends one ExpectedKey.
   */
  lemma {:induction false} PropertyStartSpins(env: Env, prop: Property, s: PState, fuel: nat)
    requires s.cur.kind != String && s.cur.kind != EOF
    ensures var r := PropertyRun(env, PropertyStart, prop, s, fuel);
      && r.outcome == OutOfFuel
      && r.state == s.(errors := s.errors + Repeated(ExpectedKey(s.cur.literal), fuel))
    decreases fuel
  {
    var d := ExpectedKey(s.cur.literal);
    if fuel > 0 {
      PropertyStartSpins(env, prop, Report(s, d), fuel - 1);
      assert s.errors + [d] + Repeated(d, fuel - 1) == s.errors + Repeated(d, fuel);
    } else {
      assert s.errors + Repeated(d, 0) == s.errors;
    }
  }

  /**
   * In the HaveKey state a token other than Colon (or EOF) is reported and kept, forever:
   * the window and the lexer stay put and each pass appends one ExpectedColon.
   */
  lemma {:induction false} PropertyKeySpins(env: Env, prop: Property, s: PState, fuel: nat)
    requires s.cur.kind != Colon && s.cur.kind != EOF
    ensures var r := PropertyRun(env, PropertyKey, prop, s, fuel);
      && r.outcome == OutOfFuel
      && r.state == s.(errors := s.errors + Repeated(ExpectedColon(s.cur.literal), fuel))
    decreases fuel
  {
    var d := ExpectedColon(s.cur.literal);
    if fuel > 0 {
      PropertyKeySpins(env, prop, Report(s, d), fuel - 1);
      assert s.errors + [d] + Repeated(d, fuel - 1) == s.errors + Repeated(d, fuel);
    } else {
      assert s.errors + Repeated(d, 0) == s.errors;
    }
  }

  /**
   * After an array value, a token other than `]`, `,` (or EOF) is reported and kept,
   * forever: the window and the lexer stay put and each pass appends one diagnostic.
   */
  lemma {:induction false} ArrayValueSpins(env: Env, items: seq<Option<Value>>, start: int, s: PState, fuel: nat)
    requires s.cur.kind !in {RightBracket, Comma, EOF}
    ensures var r := ArrayRun(env, ArrayValue, items, start, s, fuel);
      && r.outcome == OutOfFuel
      && r.state == s.(errors := s.errors + Repeated(ExpectedArrayBracketOrComma(s.cur.literal), fuel))
    decreases fuel
  {
    var d := ExpectedArrayBracketOrComma(s.cur.literal);
    if fuel > 0 {
      ArrayValueSpins(env, items, start, Report(s, d), fuel - 1);
      assert s.errors + [d] + Repeated(d, fuel - 1) == s.errors + Repeated(d, fuel);
    } else {
      assert s.errors + Repeated(d, 0) == s.errors;
    }
  }

  // ---------------------------------------------------------------------------------
  // One key/value pair per property, the key taken from the String token.

  /**
   * A finished parseProperty either started on a String token and holds its literal as
   * key, or met EOF at once and is the empty property.
   */
  lemma PropertyKeyFromString(env: Env, s: PState, fuel: nat)
    ensures var r := PropertyRun(env, PropertyStart, EmptyProperty, s, fuel);
      r.outcome.Done? ==>
        || (s.cur.kind == String && r.outcome.value.key == Identifier(s.cur.literal))
        || (s.cur.kind == EOF && r.outcome.value == EmptyProperty)
  {
    if s.cur.kind != EOF && s.cur.kind != String {
      PropertyStartSpins(env, EmptyProperty, s, fuel);
    }
  }

  /**
   * A property written `"key" : v` with v a scalar token (not `{`, `[` or EOF) takes three
   * machine steps: its key is the String token's text and its value is v's literal.
   */
  lemma ScalarPropertyRun(env: Env, s: PState, fuel: nat)
    requires fuel >= 3 && s.cur.kind == String && s.peek.kind == Colon
    requires Advance(env.next, s).peek.kind !in {LeftBrace, LeftBracket, EOF}
    ensures var v := Advance(env.next, Advance(env.next, s));
      PropertyRun(env, PropertyStart, EmptyProperty, s, fuel)
        == Run(Done(Property(Identifier(s.cur.literal), Some(LiteralRun(env, v).0))), LiteralRun(env, v).1)
  {
    var s1 := Advance(env.next, s);
    var v := Advance(env.next, s1);
    var key := EmptyProperty.(key := Identifier(s.cur.literal));
    assert PropertyRun(env, PropertyColon, key, v, fuel - 2)
        == Run(Done(key.(value := Some(LiteralRun(env, v).0))), LiteralRun(env, v).1);
    assert PropertyRun(env, PropertyKey, key, s1, fuel - 1) == PropertyRun(env, PropertyColon, key, v, fuel - 2);
  }

  /** In Start, the opening brace records its offset and moves the machine to Open. */
  lemma ObjectOpens(env: Env, props: seq<Property>, start: int, s: PState, fuel: nat)
    requires fuel > 0 && s.cur.kind == LeftBrace
    ensures ObjectRun(env, ObjStart, props, start, s, fuel)
         == ObjectRun(env, ObjOpen, props, s.cur.start, Advance(env.next, s), fuel - 1)
  {
  }

  /** In HasProperty, `}` closes the object with End taken from the token after it, and `,` moves to Comma. */
  lemma ObjectPropertyStep(env: Env, props: seq<Property>, start: int, s: PState, fuel: nat)
    requires fuel > 0 && s.cur.kind in {RightBrace, Comma}
    ensures var next := Advance(env.next, s);
      ObjectRun(env, ObjProperty, props, start, s, fuel)
        == if s.cur.kind == RightBrace then Run(Done(Some(Object(props, start, next.cur.start))), next)
           else ObjectRun(env, ObjComma, props, start, next, fuel - 1)
  {
  }

  /** In Open and Comma, a finished property with a value is appended and the machine moves to HasProperty. */
  lemma ObjectTakesProperty(env: Env, st: ObjectState, props: seq<Property>, start: int, s: PState, fuel: nat,
                            p: Property, t: PState)
    requires st in {ObjOpen, ObjComma} && fuel > 0 && s.cur.kind !in {EOF, RightBrace}
    requires PropertyRun(env, PropertyStart, EmptyProperty, s, fuel - 1) == Run(Done(p), t) && p.value.Some?
    ensures ObjectRun(env, st, props, start, s, fuel) == ObjectRun(env, ObjProperty, props + [p], start, t, fuel - 1)
  {
  }

  /**
   * In Open and Comma, a finished value is appended last and the machine moves to HasValue;
   * only in Open, a `]` waiting in peek is skipped by one extra advance.
   */
  lemma ArrayTakesValue(env: Env, st: ArrayState, items: seq<Option<Value>>, start: int, s: PState, fuel: nat,
                        v: Option<Value>, t: PState)
    requires st in {ArrayOpen, ArrayComma} && fuel > 0 && s.cur.kind != EOF
    requires st == ArrayOpen ==> s.cur.kind != RightBracket
    requires ValueRun(env, s, fuel - 1) == Run(Done(v), t)
    ensures var next := if st == ArrayOpen && t.peek.kind == RightBracket then Advance(env.next, t) else t;
      ArrayRun(env, st, items, start, s, fuel) == ArrayRun(env, ArrayValue, items + [v], start, next, fuel - 1)
  {
  }

  /** After a property, a token other than `}`, `,` or EOF appends one diagnostic and aborts the object. */
  lemma ObjectAbortsOnBadSeparator(env: Env, props: seq<Property>, start: int, s: PState, fuel: nat)
    requires fuel > 0 && s.cur.kind !in {RightBrace, Comma, EOF}
    ensures ObjectRun(env, ObjProperty, props, start, s, fuel)
         == Run(Done(None), s.(errors := s.errors + [ExpectedBraceOrComma(s.cur.literal)]))
  {
  }

  /** At EOF every machine stops; an unclosed object or array takes the EOF token's Start as its End. */
  lemma EofEndsContainers(env: Env, st: ObjectState, ast: ArrayState, props: seq<Property>,
                          items: seq<Option<Value>>, start: int, s: PState, fuel: nat)
    requires s.cur.kind == EOF
    ensures ObjectRun(env, st, props, start, s, fuel) == Run(Done(Some(Object(props, start, s.cur.start))), s)
    ensures ArrayRun(env, ast, items, start, s, fuel) == Run(Done(Array(items, start, s.cur.start)), s)
  {
  }

  /** The parser's window after New holds the lexer's first two tokens. */
  lemma StartWindow(input: seq<char>, pos: nat, line: int)
    ensures Start(LexerStep(input), pos, line).cur == TokenStream(input, pos, line, 2)[0]
    ensures Start(LexerStep(input), pos, line).peek == TokenStream(input, pos, line, 2)[1]
  {
    var r := Lex(input, pos, line);
    assert TokenStream(input, pos, line, 2) == [r.token] + TokenStream(input, r.pos, r.line, 1);
  }
}
