/**
 * The parser reads only the kind and the literal of each token; offsets and line numbers
 * are copied into Start/End fields and never steer it. So two token streams that agree on
 * kinds and literals (say, the same JSON text laid out with different whitespace) parse
 * alike: both runs finish or neither does, with the same diagnostics, and the trees are
 * equal once every Start and End is erased.
 */
module ParserLayout {
  import opened Wrappers
  import opened Token
  import opened LexerSpec
  import opened Ast
  import opened ParserSpec

  // ---------------------------------------------------------------------------------
  // Trees up to offsets, and token streams up to offsets and lines.

  /** The tree with every Start and End set to 0: what is left when layout is ignored. */
  function Unspanned(v: Value): (w: Value)
    ensures w.Object? <==> v.Object?
    ensures w.Array? <==> v.Array?
    ensures w.Literal? ==> w == v
    decreases v, 0
  {
    match v
    case Object(props, _, _) => Object(UnspannedProperties(props), 0, 0)
    case Array(items, _, _) => Array(UnspannedElements(items), 0, 0)
    case Literal(_) => v
  }

  function UnspannedOption(o: Option<Value>): (r: Option<Value>)
    ensures r.Some? <==> o.Some?
    decreases o, 1
  {
    match o
    case None => None
    case Some(v) => Some(Unspanned(v))
  }

  function UnspannedProperty(p: Property): (q: Property)
    ensures q.key == p.key
    decreases p, 2
  {
    Property(p.key, UnspannedOption(p.value))
  }

  function UnspannedProperties(ps: seq<Property>): (qs: seq<Property>)
    ensures |qs| == |ps|
    decreases ps, 3
  {
    seq(|ps|, i requires 0 <= i < |ps| => UnspannedProperty(ps[i]))
  }

  function UnspannedElements(items: seq<Option<Value>>): (rs: seq<Option<Value>>)
    ensures |rs| == |items|
    decreases items, 3
  {
    seq(|items|, i requires 0 <= i < |items| => UnspannedOption(items[i]))
  }

  /** Erasing offsets commutes with appending a property. */
  lemma UnspannedPropertiesAppend(ps: seq<Property>, p: Property)
    ensures UnspannedProperties(ps + [p]) == UnspannedProperties(ps) + [UnspannedProperty(p)]
  {
    var l := UnspannedProperties(ps + [p]);
    var r := UnspannedProperties(ps) + [UnspannedProperty(p)];
    assert forall i :: 0 <= i < |l| ==> l[i] == r[i];
  }

  /** Erasing offsets commutes with appending an element. */
  lemma UnspannedElementsAppend(items: seq<Option<Value>>, o: Option<Value>)
    ensures UnspannedElements(items + [o]) == UnspannedElements(items) + [UnspannedOption(o)]
  {
    var l := UnspannedElements(items + [o]);
    var r := UnspannedElements(items) + [UnspannedOption(o)];
    assert forall i :: 0 <= i < |l| ==> l[i] == r[i];
  }

  /** What ParseJson returns, with every offset in the tree erased. */
  function UnspannedResult(j: JsonResult): (k: JsonResult)
    ensures k.err == j.err && k.root.kind == j.root.kind
  {
    JsonResult(RootNode(UnspannedOption(j.root.rootValue), j.root.kind), j.err)
  }

  /** Two tokens the parser cannot tell apart: same kind and same text. */
  predicate SameText(a: Token, b: Token)
  {
    a.kind == b.kind && a.literal == b.literal
  }

  /** The k-th token (counting from 0) a token source yields from cursor (pos, line). */
  function NthToken(next: TokenSource, pos: nat, line: int, k: nat): Token
    decreases k
  {
    var r := next(pos, line);
    if k == 0 then r.token else NthToken(next, r.pos, r.line, k - 1)
  }

  /** Over the lexer, NthToken is TokenStream read one index at a time. */
  lemma {:induction false} NthTokenOfLexer(input: seq<char>, pos: nat, line: int, n: nat, k: nat)
    requires k < n
    ensures NthToken(LexerStep(input), pos, line, k) == TokenStream(input, pos, line, n)[k]
    decreases k
  {
    var r := Lex(input, pos, line);
    if k > 0 {
      NthTokenOfLexer(input, r.pos, r.line, n - 1, k - 1);
    }
  }

  /** The two token streams agree on kind and text at every index. */
  ghost predicate StreamsAgree(n1: TokenSource, p1: nat, l1: int, n2: TokenSource, p2: nat, l2: int)
  {
    forall k: nat :: SameText(NthToken(n1, p1, l1, k), NthToken(n2, p2, l2, k))
  }

  /**
   * Two parser states that differ only in layout: the same float parser, windows with the
   * same kinds and texts, the same diagnostics, and lexers whose remaining streams agree.
   */
  ghost predicate Alike(e1: Env, s: PState, e2: Env, t: PState)
  {
    && e1.parseFloat == e2.parseFloat
    && SameText(s.cur, t.cur) && SameText(s.peek, t.peek) && s.errors == t.errors
    && StreamsAgree(e1.next, s.pos, s.line, e2.next, t.pos, t.line)
  }

  /** Two runs that differ only in layout: both finish or neither does, and the values agree up to offsets. */
  ghost predicate ValueRunsAlike(e1: Env, r1: Run<Option<Value>>, e2: Env, r2: Run<Option<Value>>)
  {
    && (r1.outcome.Done? <==> r2.outcome.Done?)
    && (r1.outcome.Done? && r2.outcome.Done? ==> UnspannedOption(r1.outcome.value) == UnspannedOption(r2.outcome.value))
    && Alike(e1, r1.state, e2, r2.state)
  }

  ghost predicate ArrayRunsAlike(e1: Env, r1: Run<Value>, e2: Env, r2: Run<Value>)
  {
    && (r1.outcome.Done? <==> r2.outcome.Done?)
    && (r1.outcome.Done? && r2.outcome.Done? ==> Unspanned(r1.outcome.value) == Unspanned(r2.outcome.value))
    && Alike(e1, r1.state, e2, r2.state)
  }

  ghost predicate PropertyRunsAlike(e1: Env, r1: Run<Property>, e2: Env, r2: Run<Property>)
  {
    && (r1.outcome.Done? <==> r2.outcome.Done?)
    && (r1.outcome.Done? && r2.outcome.Done? ==> UnspannedProperty(r1.outcome.value) == UnspannedProperty(r2.outcome.value))
    && Alike(e1, r1.state, e2, r2.state)
  }

  // ---------------------------------------------------------------------------------
  // One step at a time.

  /** nextToken keeps two states alike: peek moves into cur and both lexers yield tokens with the same text. */
  lemma AdvanceAlike(e1: Env, s: PState, e2: Env, t: PState)
    requires Alike(e1, s, e2, t)
    ensures Alike(e1, Advance(e1.next, s), e2, Advance(e2.next, t))
  {
    var r1 := e1.next(s.pos, s.line);
    var r2 := e2.next(t.pos, t.line);
    assert SameText(NthToken(e1.next, s.pos, s.line, 0), NthToken(e2.next, t.pos, t.line, 0));
    forall k: nat
      ensures SameText(NthToken(e1.next, r1.pos, r1.line, k), NthToken(e2.next, r2.pos, r2.line, k))
    {
      assert NthToken(e1.next, s.pos, s.line, k + 1) == NthToken(e1.next, r1.pos, r1.line, k);
      assert NthToken(e2.next, t.pos, t.line, k + 1) == NthToken(e2.next, r2.pos, r2.line, k);
    }
  }

  /** Streams agree when their first tokens have the same text and the streams after them agree. */
  lemma AgreeStep(n1: TokenSource, p1: nat, l1: int, n2: TokenSource, p2: nat, l2: int)
    requires SameText(n1(p1, l1).token, n2(p2, l2).token)
    requires StreamsAgree(n1, n1(p1, l1).pos, n1(p1, l1).line, n2, n2(p2, l2).pos, n2(p2, l2).line)
    ensures StreamsAgree(n1, p1, l1, n2, p2, l2)
  {
    var r1 := n1(p1, l1);
    var r2 := n2(p2, l2);
    forall k: nat
      ensures SameText(NthToken(n1, p1, l1, k), NthToken(n2, p2, l2, k))
    {
      if k > 0 {
        assert NthToken(n1, p1, l1, k) == NthToken(n1, r1.pos, r1.line, k - 1);
        assert NthToken(n2, p2, l2, k) == NthToken(n2, r2.pos, r2.line, k - 1);
      }
    }
  }

  /** After New, the windows hold the first two tokens of streams that agree. */
  lemma StartAlike(n1: TokenSource, p1: nat, l1: int, n2: TokenSource, p2: nat, l2: int,
                   parseFloat: string -> Option<bv64>)
    requires StreamsAgree(n1, p1, l1, n2, p2, l2)
    ensures Alike(Env(n1, parseFloat), Start(n1, p1, l1), Env(n2, parseFloat), Start(n2, p2, l2))
  {
    var e1 := Env(n1, parseFloat);
    var e2 := Env(n2, parseFloat);
    var zero := Token(EOF, "", 0, 0, 0);
    var s := PState(p1, l1, zero, zero, []);
    var t := PState(p2, l2, zero, zero, []);
    assert Alike(e1, s, e2, t);
    AdvanceAlike(e1, s, e2, t);
    AdvanceAlike(e1, Advance(n1, s), e2, Advance(n2, t));
  }

  /** parseJsonLiteral gives the very same value on alike states, and alike states after. */
  lemma LiteralAlike(e1: Env, s: PState, e2: Env, t: PState)
    requires Alike(e1, s, e2, t)
    ensures LiteralRun(e1, s).0 == LiteralRun(e2, t).0
    ensures Alike(e1, LiteralRun(e1, s).1, e2, LiteralRun(e2, t).1)
  {
    AdvanceAlike(e1, s, e2, t);
  }

  // ---------------------------------------------------------------------------------
  // The mutually recursive procedures, state by state.

  lemma {:induction false} ValueAlike(e1: Env, s: PState, e2: Env, t: PState, fuel: nat)
    requires Alike(e1, s, e2, t)
    ensures ValueRunsAlike(e1, ValueRun(e1, s, fuel), e2, ValueRun(e2, t, fuel))
    decreases fuel, 2, 0
  {
    if s.cur.kind == LeftBrace {
      ObjectAlike(e1, ObjStart, [], 0, s, e2, [], 0, t, fuel);
    } else if s.cur.kind == LeftBracket {
      var a1 := ArrayRun(e1, ArrayStart, [], 0, s, fuel);
      var a2 := ArrayRun(e2, ArrayStart, [], 0, t, fuel);
      ArrayAlike(e1, ArrayStart, [], 0, s, e2, [], 0, t, fuel);
      assert ArrayRunsAlike(e1, a1, e2, a2);
    } else {
      LiteralAlike(e1, s, e2, t);
    }
  }

  lemma {:induction false} ObjectAlike(
    e1: Env, st: ObjectState, props1: seq<Property>, start1: int, s: PState,
    e2: Env, props2: seq<Property>, start2: int, t: PState, fuel: nat)
    requires Alike(e1, s, e2, t) && UnspannedProperties(props1) == UnspannedProperties(props2)
    ensures ValueRunsAlike(e1, ObjectRun(e1, st, props1, start1, s, fuel),
                           e2, ObjectRun(e2, st, props2, start2, t, fuel))
    decreases fuel, 1, 1
  {
    if s.cur.kind != EOF && fuel > 0 {
      match st
      case ObjStart =>
        if s.cur.kind == LeftBrace {
          AdvanceAlike(e1, s, e2, t);
          ObjectAlike(e1, ObjOpen, props1, s.cur.start, Advance(e1.next, s),
                      e2, props2, t.cur.start, Advance(e2.next, t), fuel - 1);
        }
      case ObjOpen =>
        if s.cur.kind == RightBrace {
          AdvanceAlike(e1, s, e2, t);
        } else {
          ObjectTakesAlike(e1, ObjOpen, props1, start1, s, e2, props2, start2, t, fuel);
        }
      case ObjProperty =>
        if s.cur.kind == Comma || s.cur.kind == RightBrace {
          AdvanceAlike(e1, s, e2, t);
        }
        if s.cur.kind == Comma {
          ObjectAlike(e1, ObjComma, props1, start1, Advance(e1.next, s),
                      e2, props2, start2, Advance(e2.next, t), fuel - 1);
        }
      case ObjComma =>
        ObjectTakesAlike(e1, ObjComma, props1, start1, s, e2, props2, start2, t, fuel);
    }
  }

  /** The Open and Comma states, which run parseProperty and then take or drop what it returns. */
  lemma {:induction false} ObjectTakesAlike(
    e1: Env, st: ObjectState, props1: seq<Property>, start1: int, s: PState,
    e2: Env, props2: seq<Property>, start2: int, t: PState, fuel: nat)
    requires st == ObjOpen || st == ObjComma
    requires s.cur.kind != EOF && fuel > 0 && (st == ObjOpen ==> s.cur.kind != RightBrace)
    requires Alike(e1, s, e2, t) && UnspannedProperties(props1) == UnspannedProperties(props2)
    ensures ValueRunsAlike(e1, ObjectRun(e1, st, props1, start1, s, fuel),
                           e2, ObjectRun(e2, st, props2, start2, t, fuel))
    decreases fuel, 1, 0
  {
    var p1 := PropertyRun(e1, PropertyStart, EmptyProperty, s, fuel - 1);
    var p2 := PropertyRun(e2, PropertyStart, EmptyProperty, t, fuel - 1);
    PropertyAlike(e1, PropertyStart, EmptyProperty, s, e2, EmptyProperty, t, fuel - 1);
    if p1.outcome.Done? {
      var q1 := p1.outcome.value;
      var q2 := p2.outcome.value;
      assert UnspannedProperty(q1) == UnspannedProperty(q2);
      assert q1.value.Some? <==> q2.value.Some?;
      if st == ObjOpen || q1.value.Some? {
        UnspannedPropertiesAppend(props1, q1);
        UnspannedPropertiesAppend(props2, q2);
        ObjectAlike(e1, ObjProperty, props1 + [q1], start1, p1.state,
                    e2, props2 + [q2], start2, p2.state, fuel - 1);
      } else {
        ObjectAlike(e1, ObjComma, props1, start1, p1.state, e2, props2, start2, p2.state, fuel - 1);
      }
    }
  }

  lemma {:induction false} ArrayAlike(
    e1: Env, st: ArrayState, items1: seq<Option<Value>>, start1: int, s: PState,
    e2: Env, items2: seq<Option<Value>>, start2: int, t: PState, fuel: nat)
    requires Alike(e1, s, e2, t) && UnspannedElements(items1) == UnspannedElements(items2)
    ensures ArrayRunsAlike(e1, ArrayRun(e1, st, items1, start1, s, fuel),
                           e2, ArrayRun(e2, st, items2, start2, t, fuel))
    decreases fuel, 1, 1
  {
    if s.cur.kind != EOF && fuel > 0 {
      match st
      case ArrayStart =>
        if s.cur.kind == LeftBracket {
          AdvanceAlike(e1, s, e2, t);
          ArrayAlike(e1, ArrayOpen, items1, s.cur.start, Advance(e1.next, s),
                     e2, items2, t.cur.start, Advance(e2.next, t), fuel - 1);
        } else {
          ArrayAlike(e1, ArrayStart, items1, start1, s, e2, items2, start2, t, fuel - 1);
        }
      case ArrayOpen =>
        if s.cur.kind == RightBracket {
          AdvanceAlike(e1, s, e2, t);
        } else {
          ArrayTakesAlike(e1, ArrayOpen, items1, start1, s, e2, items2, start2, t, fuel);
        }
      case ArrayValue =>
        if s.cur.kind == RightBracket {
          AdvanceAlike(e1, s, e2, t);
        } else if s.cur.kind == Comma {
          AdvanceAlike(e1, s, e2, t);
          ArrayAlike(e1, ArrayComma, items1, start1, Advance(e1.next, s),
                     e2, items2, start2, Advance(e2.next, t), fuel - 1);
        } else {
          var d := ExpectedArrayBracketOrComma(s.cur.literal);
          assert Alike(e1, Report(s, d), e2, Report(t, d));
          ArrayAlike(e1, ArrayValue, items1, start1, Report(s, d), e2, items2, start2, Report(t, d), fuel - 1);
        }
      case ArrayComma =>
        ArrayTakesAlike(e1, ArrayComma, items1, start1, s, e2, items2, start2, t, fuel);
    }
  }

  /** The Open and Comma states, which run parserValue and append what it returns. */
  lemma {:induction false} ArrayTakesAlike(
    e1: Env, st: ArrayState, items1: seq<Option<Value>>, start1: int, s: PState,
    e2: Env, items2: seq<Option<Value>>, start2: int, t: PState, fuel: nat)
    requires st == ArrayOpen || st == ArrayComma
    requires s.cur.kind != EOF && fuel > 0 && (st == ArrayOpen ==> s.cur.kind != RightBracket)
    requires Alike(e1, s, e2, t) && UnspannedElements(items1) == UnspannedElements(items2)
    ensures ArrayRunsAlike(e1, ArrayRun(e1, st, items1, start1, s, fuel),
                           e2, ArrayRun(e2, st, items2, start2, t, fuel))
    decreases fuel, 1, 0
  {
    var v1 := ValueRun(e1, s, fuel - 1);
    var v2 := ValueRun(e2, t, fuel - 1);
    ValueAlike(e1, s, e2, t, fuel - 1);
    if v1.outcome.Done? {
      UnspannedElementsAppend(items1, v1.outcome.value);
      UnspannedElementsAppend(items2, v2.outcome.value);
      var n1 := v1.state;
      var n2 := v2.state;
      if st == ArrayOpen && v1.state.peek.kind == RightBracket {
        AdvanceAlike(e1, v1.state, e2, v2.state);
        n1 := Advance(e1.next, v1.state);
        n2 := Advance(e2.next, v2.state);
      }
      ArrayAlike(e1, ArrayValue, items1 + [v1.outcome.value], start1, n1,
                 e2, items2 + [v2.outcome.value], start2, n2, fuel - 1);
      assert ArrayRun(e1, st, items1, start1, s, fuel)
          == ArrayRun(e1, ArrayValue, items1 + [v1.outcome.value], start1, n1, fuel - 1);
      assert ArrayRun(e2, st, items2, start2, t, fuel)
          == ArrayRun(e2, ArrayValue, items2 + [v2.outcome.value], start2, n2, fuel - 1);
    }
  }

  lemma {:induction false} PropertyAlike(
    e1: Env, st: PropertyState, prop1: Property, s: PState,
    e2: Env, prop2: Property, t: PState, fuel: nat)
    requires Alike(e1, s, e2, t) && UnspannedProperty(prop1) == UnspannedProperty(prop2)
    ensures PropertyRunsAlike(e1, PropertyRun(e1, st, prop1, s, fuel), e2, PropertyRun(e2, st, prop2, t, fuel))
    decreases fuel, 1, 1
  {
    if s.cur.kind != EOF && fuel > 0 {
      match st
      case PropertyStart =>
        if s.cur.kind == String {
          AdvanceAlike(e1, s, e2, t);
          PropertyAlike(e1, PropertyKey, prop1.(key := Identifier(s.cur.literal)), Advance(e1.next, s),
                        e2, prop2.(key := Identifier(t.cur.literal)), Advance(e2.next, t), fuel - 1);
        } else {
          var d := ExpectedKey(s.cur.literal);
          assert Alike(e1, Report(s, d), e2, Report(t, d));
          PropertyAlike(e1, PropertyStart, prop1, Report(s, d), e2, prop2, Report(t, d), fuel - 1);
        }
      case PropertyKey =>
        if s.cur.kind == Colon {
          AdvanceAlike(e1, s, e2, t);
          PropertyAlike(e1, PropertyColon, prop1, Advance(e1.next, s), e2, prop2, Advance(e2.next, t), fuel - 1);
        } else {
          var d := ExpectedColon(s.cur.literal);
          assert Alike(e1, Report(s, d), e2, Report(t, d));
          PropertyAlike(e1, PropertyKey, prop1, Report(s, d), e2, prop2, Report(t, d), fuel - 1);
        }
      case PropertyColon =>
        ValueAlike(e1, s, e2, t, fuel - 1);
    }
  }

  // ---------------------------------------------------------------------------------
  // The whole parse.

  /** ParseJson on alike states: both finish or neither, with the same diagnostics and root kind, and trees equal up to offsets. */
  lemma JsonAlike(e1: Env, s: PState, e2: Env, t: PState, fuel: nat)
    requires Alike(e1, s, e2, t)
    ensures var r1 := JsonRun(e1, s, fuel);
      var r2 := JsonRun(e2, t, fuel);
      && (r1.outcome.Done? <==> r2.outcome.Done?)
      && (r1.outcome.Done? && r2.outcome.Done? ==> UnspannedResult(r1.outcome.value) == UnspannedResult(r2.outcome.value))
      && r1.state.errors == r2.state.errors
  {
    ValueAlike(e1, s, e2, t, fuel);
  }

  /**
   * Layout does not matter: parsers built over two token sources whose streams agree on
   * every token's kind and text give the same result, except for the Start and End
   * offsets in the tree, and leave the same diagnostics behind, a successful parse included.
   */
  lemma LayoutIrrelevant(n1: TokenSource, p1: nat, l1: int, n2: TokenSource, p2: nat, l2: int,
                         parseFloat: string -> Option<bv64>, fuel: nat)
    requires StreamsAgree(n1, p1, l1, n2, p2, l2)
    ensures var r1 := JsonRun(Env(n1, parseFloat), Start(n1, p1, l1), fuel);
      var r2 := JsonRun(Env(n2, parseFloat), Start(n2, p2, l2), fuel);
      && (r1.outcome.Done? <==> r2.outcome.Done?)
      && (r1.outcome.Done? && r2.outcome.Done? ==> UnspannedResult(r1.outcome.value) == UnspannedResult(r2.outcome.value))
      && r1.state.errors == r2.state.errors
  {
    StartAlike(n1, p1, l1, n2, p2, l2, parseFloat);
    JsonAlike(Env(n1, parseFloat), Start(n1, p1, l1), Env(n2, parseFloat), Start(n2, p2, l2), fuel);
  }
}
