/** What one NextToken call produces, case by case, and how the token stream ends. */
module LexerProperties {
  import opened Wrappers
  import opened Token
  import opened LexerSpec

  /** Whitespace skipping stops at the first character that is not space, tab, CR or LF and counts each LF once. */
  lemma SkipsWhitespace(input: seq<char>, pos: nat, line: int)
    ensures var p := WhitespaceEnd(input, pos);
      && pos <= p
      && (forall k :: pos <= k < p ==> IsWhitespace(input[k]))
      && !IsWhitespace(CharAt(input, p))
      && Lex(input, pos, line).line == line + NewlinesBetween(input, pos, p)
  {
  }

  /** NewlinesBetween counts exactly the LF characters: splitting the range adds the counts. */
  lemma {:induction false} NewlinesAdd(input: seq<char>, p: nat, m: nat, e: nat)
    requires p <= m <= e
    ensures NewlinesBetween(input, p, e) == NewlinesBetween(input, p, m) + NewlinesBetween(input, m, e)
    decreases m - p
  {
    if p < m {
      NewlinesAdd(input, p + 1, m, e);
    }
  }

  /** Lexing at a character that is not whitespace runs the token switch right there. */
  lemma LexNoSkip(input: seq<char>, pos: nat, line: int)
    requires !IsWhitespace(CharAt(input, pos))
    ensures WhitespaceEnd(input, pos) == pos
    ensures Lex(input, pos, line) == LexAt(input, pos, line)
  {
  }

  /** Lexing at a single space runs the token switch at the next character, on the same line. */
  lemma LexAfterSpace(input: seq<char>, pos: nat, line: int)
    requires CharAt(input, pos) == ' ' && !IsWhitespace(CharAt(input, pos + 1))
    ensures Lex(input, pos, line) == LexAt(input, pos + 1, line)
  {
    RunEndAt(input, pos, pos + 1, IsWhitespace);
    LexSkips(input, pos, line);
    assert NewlinesBetween(input, pos, pos + 1) == 0 + NewlinesBetween(input, pos + 1, pos + 1);
  }

  /** Past the end of the input every call yields EOF and moves the cursor by one. */
  lemma LexPastEnd(input: seq<char>, pos: nat, line: int)
    requires pos >= |input|
    ensures Lex(input, pos, line) == Scan(Token(EOF, "", line, 0, 0), pos + 1, line)
  {
    LexNoSkip(input, pos, line);
  }

  /** A run is maximal at e exactly when RunEnd says so: the end of a maximal run is unique. */
  lemma {:induction false} RunEndAt(input: seq<char>, p: nat, e: nat, inRun: char -> bool)
    requires !inRun('\0') && p <= e
    requires forall k :: p <= k < e ==> inRun(CharAt(input, k))
    requires !inRun(CharAt(input, e))
    ensures RunEnd(input, p, inRun) == e
    decreases e - p
  {
    if p < e {
      RunEndAt(input, p + 1, e, inRun);
    }
  }

  /** A keyword followed by a non-letter is lexed as that keyword's token. */
  lemma KeywordAt(input: seq<char>, p: nat, line: int, word: string, kind: TokenType)
    requires word in ValidJsonIdentifiers && ValidJsonIdentifiers[word] == kind
    requires p + |word| <= |input| && input[p..p + |word|] == word
    requires !IsLetter(CharAt(input, p + |word|))
    ensures Lex(input, p, line) == Scan(Token(kind, word, line, p, p + |word|), p + |word|, line)
  {
    var e := p + |word|;
    assert word == "true" || word == "false" || word == "null";
    forall k | p <= k < e
      ensures IsLetter(CharAt(input, k))
    {
      assert input[k] == input[p..e][k - p];
    }
    RunEndAt(input, p, e, IsLetter);
    LexNoSkip(input, p, line);
    assert LexAt(input, p, line) == IdentifierScan(input, p, line);
  }

  /** The closing index of a string is unique: the first index after the quote that closes it. */
  lemma StringEndAt(input: seq<char>, p: nat, e: nat)
    requires p < e && p < |input|
    requires ClosesString(input, e)
    requires forall k :: p < k < e ==> !ClosesString(input, k)
    ensures StringEnd(input, p) == e
  {
    assert ClosesString(input, StringEnd(input, p));
  }

  /** The six punctuation characters give one-character tokens spanning [p, p+1); `]` is read as LeftBracket. */
  lemma PunctuationToken(input: seq<char>, pos: nat, line: int)
    requires CharAt(input, WhitespaceEnd(input, pos)) in "{}[]:,"
    ensures var p := WhitespaceEnd(input, pos);
      var c := CharAt(input, p);
      var r := Lex(input, pos, line);
      && r.token.literal == [c] && r.token.start == p && r.token.end == p + 1 && r.pos == p + 1
      && (c == '{' <==> r.token.kind == LeftBrace)
      && (c == '}' <==> r.token.kind == RightBrace)
      && ((c == '[' || c == ']') <==> r.token.kind == LeftBracket)
      && (c == ':' <==> r.token.kind == Colon)
      && (c == ',' <==> r.token.kind == Comma)
  {
    LexSkips(input, pos, line);
  }

  /** No input and no cursor ever yields a RightBracket token. */
  lemma {:induction false} NeverRightBracket(input: seq<char>, pos: nat, line: int, n: nat)
    ensures forall i :: 0 <= i < n ==> TokenStream(input, pos, line, n)[i].kind != RightBracket
    decreases n
  {
    if n > 0 {
      var r := Lex(input, pos, line);
      NeverRightBracket(input, r.pos, r.line, n - 1);
      var ts := TokenStream(input, pos, line, n);
      assert ts == [r.token] + TokenStream(input, r.pos, r.line, n - 1);
      forall i | 0 <= i < n
        ensures ts[i].kind != RightBracket
      {
        if i > 0 {
          assert ts[i] == TokenStream(input, r.pos, r.line, n - 1)[i - 1];
        }
      }
    }
  }

  /**
   * A double quote starts a String token whose literal is the raw text after the quote up
   * to the first quote not preceded by a backslash (or to NUL / the end of input); escapes
   * are kept as written. Start is the index of that closing quote, End one more.
   */
  lemma StringToken(input: seq<char>, pos: nat, line: int)
    requires CharAt(input, WhitespaceEnd(input, pos)) == '"'
    ensures var p := WhitespaceEnd(input, pos);
      var t := Lex(input, pos, line).token;
      && t.kind == String
      && p < t.start <= |input|
      && t.literal == input[p + 1..t.start]
      && ClosesString(input, t.start)
      && (forall k :: p < k < t.start ==> !ClosesString(input, k))
      && t.end == t.start + 1
      && Lex(input, pos, line).pos == t.start + 1
  {
    LexSkips(input, pos, line);
  }

  /** A Number token is the maximal run of digits, `.` and `-` starting at Start; End - Start is its length. */
  lemma NumberToken(input: seq<char>, pos: nat, line: int)
    requires IsNumber(CharAt(input, WhitespaceEnd(input, pos)))
    ensures var p := WhitespaceEnd(input, pos);
      var r := Lex(input, pos, line);
      && r.token.kind == Number
      && r.token.start == p <= r.token.end <= |input|
      && r.token.literal == input[p..r.token.end]
      && r.token.end - r.token.start == |r.token.literal| > 0
      && (forall k :: 0 <= k < |r.token.literal| ==> IsNumber(r.token.literal[k]))
      && !IsNumber(CharAt(input, r.token.end))
      && r.pos == r.token.end
  {
    LexSkips(input, pos, line);
  }

  /**
   * A maximal run of lowercase letters becomes True, False or Null when it is that keyword;
   * any other run becomes an Illegal token carrying the run, whose End is left at 0.
   */
  lemma IdentifierToken(input: seq<char>, pos: nat, line: int)
    requires IsLetter(CharAt(input, WhitespaceEnd(input, pos)))
    ensures var p := WhitespaceEnd(input, pos);
      var r := Lex(input, pos, line);
      var e := RunEnd(input, p, IsLetter);
      && p < e <= |input|
      && (forall k :: p <= k < e ==> IsLetter(input[k]))
      && !IsLetter(CharAt(input, e))
      && r.token.literal == input[p..e] && r.token.start == p && r.pos == e
      && (r.token.kind == True <==> r.token.literal == "true")
      && (r.token.kind == False <==> r.token.literal == "false")
      && (r.token.kind == Null <==> r.token.literal == "null")
      && (r.token.kind == Illegal <==> r.token.literal !in {"true", "false", "null"})
      && r.token.end == (if r.token.kind == Illegal then 0 else e)
  {
    var p := WhitespaceEnd(input, pos);
    var ln := line + NewlinesBetween(input, pos, p);
    LexSkips(input, pos, line);
    assert LexAt(input, p, ln) == IdentifierScan(input, p, ln);
  }

  /** NUL (or the end of input) gives EOF with empty literal and zero offsets. */
  lemma EofToken(input: seq<char>, pos: nat, line: int)
    requires CharAt(input, WhitespaceEnd(input, pos)) == '\0'
    ensures var r := Lex(input, pos, line);
      r.token == Token(EOF, "", r.line, 0, 0) && r.pos == WhitespaceEnd(input, pos) + 1
  {
    LexSkips(input, pos, line);
  }

  /** Any other character gives an Illegal token holding it, with the fixed offsets 1 and 2. */
  lemma OtherToken(input: seq<char>, pos: nat, line: int)
    requires var c := CharAt(input, WhitespaceEnd(input, pos));
      c !in "{}[]:,\"\0" && !IsLetter(c) && !IsNumber(c)
    ensures var p := WhitespaceEnd(input, pos);
      var r := Lex(input, pos, line);
      r.token == Token(Illegal, [CharAt(input, p)], r.line, 1, 2) && r.pos == p + 1
  {
    LexSkips(input, pos, line);
  }

  /** Once only whitespace is left, this and every later call return EOF. */
  lemma {:induction false} EofForever(input: seq<char>, pos: nat, line: int, n: nat)
    requires WhitespaceEnd(input, pos) >= |input|
    ensures forall i :: 0 <= i < n ==> TokenStream(input, pos, line, n)[i] == Token(EOF, "", TokenStream(input, pos, line, n)[i].line, 0, 0)
    decreases n
  {
    if n > 0 {
      var r := Lex(input, pos, line);
      EofToken(input, pos, line);
      assert WhitespaceEnd(input, r.pos) == r.pos;
      EofForever(input, r.pos, r.line, n - 1);
      var ts := TokenStream(input, pos, line, n);
      assert ts == [r.token] + TokenStream(input, r.pos, r.line, n - 1);
      forall i | 0 <= i < n
        ensures ts[i] == Token(EOF, "", ts[i].line, 0, 0)
      {
        if i > 0 {
          assert ts[i] == TokenStream(input, r.pos, r.line, n - 1)[i - 1];
        }
      }
    }
  }

  /** A NUL inside the input reads as EOF, yet the lexer goes on past it: "\0{" lexes as EOF then `{`. */
  lemma EmbeddedNul()
    ensures TokenStream("\0{", 0, 0, 2) == [Token(EOF, "", 0, 0, 0), Token(LeftBrace, "{", 0, 1, 2)]
  {
    var r0 := Lex("\0{", 0, 0);
    assert WhitespaceEnd("\0{", 0) == 0;
    assert r0 == Scan(Token(EOF, "", 0, 0, 0), 1, 0);
    assert WhitespaceEnd("\0{", 1) == 1;
    var r1 := Lex("\0{", 1, 0);
    assert r1.token == Token(LeftBrace, "{", 0, 1, 2);
    assert TokenStream("\0{", 2, 0, 0) == [];
  }
}
