/**
 * The scanning rules of src/lexer/lexer.go as functions of the input and a cursor
 * position. Lex(input, pos, line) is what one NextToken call returns and where it
 * leaves the cursor; the Lexer class is proved against it.
 */
module LexerSpec {
  import opened Wrappers
  import opened Token

  /**
   * The character the lexer holds at index i: NUL once i is past the end (lexer.go:22-26).
   * NUL therefore marks either the end of the input or a NUL inside it.
   */
  function CharAt(input: seq<char>, i: nat): (c: char)
    ensures c == '\0' <==> i >= |input| || input[i] == '\0'
    ensures c != '\0' ==> i < |input| && input[i] == c
  {
    if i < |input| then input[i] else '\0'
  }

  /** isLetter (lexer.go:137-139). A letter is none of the characters the token switch tests before it. */
  predicate IsLetter(c: char): (b: bool)
    ensures b ==> c != '\0' && !IsWhitespace(c) && c !in "{}[]:,\""
  {
    'a' <= c <= 'z'
  }

  /**
   * isNumber (lexer.go:133-135). A number character is none of the characters the token
   * switch tests before it, letters included, so the order of the switch cases is immaterial.
   */
  predicate IsNumber(c: char): (b: bool)
    ensures b ==> c != '\0' && !IsWhitespace(c) && !IsLetter(c) && c !in "{}[]:,\""
  {
    '0' <= c <= '9' || c == '.' || c == '-'
  }

  predicate IsWhitespace(c: char) { c == ' ' || c == '\t' || c == '\n' || c == '\r' }

  /**
   * The end of the maximal run of characters satisfying inRun that starts at p:
   * every character in [p, e) is in the run and the one at e is not.
   */
  function RunEnd(input: seq<char>, p: nat, inRun: char -> bool): (e: nat)
    requires !inRun('\0')
    ensures p <= e
    ensures e > p ==> e <= |input|
    ensures forall k :: p <= k < e ==> k < |input| && inRun(input[k])
    ensures !inRun(CharAt(input, e))
    decreases |input| - p
  {
    if inRun(CharAt(input, p)) then RunEnd(input, p + 1, inRun) else p
  }

  /** Where skipWhitespace stops when started at p. */
  function WhitespaceEnd(input: seq<char>, p: nat): (e: nat)
  {
    RunEnd(input, p, IsWhitespace)
  }

  /** The number of LF characters among the indexes [p, e). */
  function NewlinesBetween(input: seq<char>, p: nat, e: nat): (n: nat)
    ensures n <= if e <= p then 0 else e - p
    decreases e - p
  {
    if e <= p then 0
    else (if CharAt(input, p) == '\n' then 1 else 0) + NewlinesBetween(input, p + 1, e)
  }

  /**
   * Index k, reached while scanning a string, ends it: the lexer sees NUL there, or a
   * quote whose preceding character is not a backslash (lexer.go:108).
   */
  predicate ClosesString(input: seq<char>, k: nat)
    requires 0 < k
  {
    CharAt(input, k) == '\0' || (CharAt(input, k) == '"' && CharAt(input, k - 1) != '\\')
  }

  /** The index at which readString stops when the opening quote is at p: the first closing index after p. */
  function StringEnd(input: seq<char>, p: nat): (e: nat)
    requires p < |input|
    ensures p < e <= |input|
    ensures ClosesString(input, e)
    ensures forall k :: p < k < e ==> !ClosesString(input, k)
    decreases |input| - p
  {
    if ClosesString(input, p + 1) then p + 1 else StringEnd(input, p + 1)
  }

  /** newToken with a one-character literal (lexer.go:123-131). */
  function NewToken(kind: TokenType, line: int, start: int, end: int, c: char): (t: Token)
  {
    Token(kind, [c], line, start, end)
  }

  /** The token produced by one NextToken call and the cursor (position, line) it leaves. */
  datatype Scan = Scan(token: Token, pos: nat, line: int)

  /** The string case of NextToken: the opening quote is at p (lexer.go:48-53). */
  function StringScan(input: seq<char>, p: nat, ln: int): (r: Scan)
    requires p < |input|
    ensures r.pos > p && r.line == r.token.line == ln && r.token.kind == String
  {
    var e := StringEnd(input, p);
    Scan(Token(String, input[p + 1..e], ln, e, e + 1), e + 1, ln)
  }

  /** The identifier case of NextToken: a keyword, or Illegal with End left at 0 (lexer.go:59-71). */
  function IdentifierScan(input: seq<char>, p: nat, ln: int): (r: Scan)
    requires IsLetter(CharAt(input, p))
    ensures r.pos > p && r.line == r.token.line == ln
    ensures r.token.kind in {True, False, Null, Illegal}
  {
    var e := RunEnd(input, p, IsLetter);
    var ident := input[p..e];
    match LookupIdentifier(ident)
    case Success(kind) => Scan(Token(kind, ident, ln, p, e), e, ln)
    case Failure(_) => Scan(Token(Illegal, ident, ln, p, 0), e, ln)
  }

  /** The number case of NextToken (lexer.go:72-78). */
  function NumberScan(input: seq<char>, p: nat, ln: int): (r: Scan)
    requires IsNumber(CharAt(input, p))
    ensures r.pos > p && r.line == r.token.line == ln && r.token.kind == Number
  {
    var e := RunEnd(input, p, IsNumber);
    Scan(Token(Number, input[p..e], ln, p, e), e, ln)
  }

  /**
   * The switch of NextToken at index p, the first character that is not whitespace,
   * on line ln (lexer.go:38-83). The cursor moves forward, RightBracket is never
   * produced, and the token is EOF exactly when the character there is NUL.
   */
  function LexAt(input: seq<char>, p: nat, ln: int): (r: Scan)
    ensures r.pos > p && r.line == r.token.line == ln
    ensures r.token.kind != RightBracket
    ensures r.token.kind == EOF <==> CharAt(input, p) == '\0'
  {
    var c := CharAt(input, p);
    if c == '{' then Scan(NewToken(LeftBrace, ln, p, p + 1, c), p + 1, ln)
    else if c == '}' then Scan(NewToken(RightBrace, ln, p, p + 1, c), p + 1, ln)
    else if c == '[' then Scan(NewToken(LeftBracket, ln, p, p + 1, c), p + 1, ln)
    else if c == ']' then Scan(NewToken(LeftBracket, ln, p, p + 1, c), p + 1, ln)
    else if c == ':' then Scan(NewToken(Colon, ln, p, p + 1, c), p + 1, ln)
    else if c == ',' then Scan(NewToken(Comma, ln, p, p + 1, c), p + 1, ln)
    else if c == '"' then StringScan(input, p, ln)
    else if c == '\0' then Scan(Token(EOF, "", ln, 0, 0), p + 1, ln)
    else if IsLetter(c) then IdentifierScan(input, p, ln)
    else if IsNumber(c) then NumberScan(input, p, ln)
    else Scan(NewToken(Illegal, ln, 1, 2, c), p + 1, ln)
  }

  /**
   * One call of NextToken from cursor position pos on line line (lexer.go:31-84):
   * skipWhitespace consumes whitespace one character at a time, counting LFs, and the
   * switch runs at the first other character. Every call moves the cursor forward,
   * RightBracket is never produced, the token reports the line reached after the skipped
   * whitespace, and the token is EOF exactly when the first non-whitespace character is
   * NUL (or the input is exhausted).
   */
  function Lex(input: seq<char>, pos: nat, line: int): (r: Scan)
    ensures r.pos > pos
    ensures r.token.kind != RightBracket
    ensures r.token.line == r.line == line + NewlinesBetween(input, pos, WhitespaceEnd(input, pos))
    ensures r.token.kind == EOF <==> CharAt(input, WhitespaceEnd(input, pos)) == '\0'
    decreases |input| - pos
  {
    var c := CharAt(input, pos);
    if IsWhitespace(c) then Lex(input, pos + 1, if c == '\n' then line + 1 else line)
    else LexAt(input, pos, line)
  }

  /** Lex is the switch applied where whitespace skipping stops, on the line it reaches. */
  lemma {:induction false} LexSkips(input: seq<char>, pos: nat, line: int)
    ensures var p := WhitespaceEnd(input, pos);
      Lex(input, pos, line) == LexAt(input, p, line + NewlinesBetween(input, pos, p))
    decreases |input| - pos
  {
    var c := CharAt(input, pos);
    if IsWhitespace(c) {
      var line' := if c == '\n' then line + 1 else line;
      var p := WhitespaceEnd(input, pos);
      assert p == WhitespaceEnd(input, pos + 1);
      assert NewlinesBetween(input, pos, p) == (if c == '\n' then 1 else 0) + NewlinesBetween(input, pos + 1, p);
      assert Lex(input, pos, line) == Lex(input, pos + 1, line');
      LexSkips(input, pos + 1, line');
    } else {
      assert WhitespaceEnd(input, pos) == pos && NewlinesBetween(input, pos, pos) == 0;
    }
  }

  /** The first n tokens of successive NextToken calls from (pos, line). */
  function TokenStream(input: seq<char>, pos: nat, line: int, n: nat): (ts: seq<Token>)
    ensures |ts| == n
    decreases n
  {
    if n == 0 then []
    else
      var r := Lex(input, pos, line);
      [r.token] + TokenStream(input, r.pos, r.line, n - 1)
  }
}
