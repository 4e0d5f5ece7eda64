/**
 * The lexer of src/lexer/lexer.go: a cursor over the input runes whose fields readChar
 * updates one character at a time. Each method is proved against LexerSpec.
 */
module Lexer {
  import opened Wrappers
  import opened Token
  import opened LexerSpec
  import opened LexerProperties

  class Lexer {
    const input: seq<char>
    /** The character at position (Go's `char`; NUL past the end). */
    var ch: char
    var position: int
    var readPosition: int
    var line: int

    /** readChar always leaves readPosition one past position, and ch is the character there. */
    ghost predicate Valid()
      reads this
    {
      0 <= position && readPosition == position + 1 && ch == CharAt(input, position)
    }

    /** New: loads the first character, at position 0 on line 0 (lexer.go:15-19). */
    constructor (input: seq<char>)
      ensures Valid() && this.input == input
      ensures position == 0 && line == 0
    {
      this.input := input;
      ch, position, readPosition, line := '\0', 0, 0, 0;
      new;
      ReadChar();
    }

    /** Moves to readPosition; ch becomes NUL once readPosition has reached the end of the input. */
    method ReadChar()
      requires 0 <= readPosition
      modifies this
      ensures position == old(readPosition) && readPosition == position + 1
      ensures ch == if old(readPosition) >= |input| then '\0' else input[old(readPosition)]
      ensures line == old(line)
      ensures Valid()
    {
      if readPosition >= |input| {
        ch := '\0';
      } else {
        ch := input[readPosition];
      }
      position := readPosition;
      readPosition := readPosition + 1;
    }

    /** Skips space, tab, CR and LF, adding one to line per LF skipped. */
    method SkipWhitespace()
      requires Valid()
      modifies this
      ensures Valid()
      ensures position == WhitespaceEnd(input, old(position))
      ensures line == old(line) + NewlinesBetween(input, old(position), position)
    {
      ghost var start := position;
      while ch == ' ' || ch == '\t' || ch == '\n' || ch == '\r'
        invariant Valid() && start <= position
        invariant WhitespaceEnd(input, position) == WhitespaceEnd(input, start)
        invariant line == old(line) + NewlinesBetween(input, start, position)
        decreases |input| - position
      {
        NewlinesAdd(input, start, position, position + 1);
        if ch == '\n' {
          line := line + 1;
        }
        ReadChar();
      }
    }

    /** Reads the maximal run of lowercase letters at the cursor. */
    method ReadIdentifier() returns (ident: string)
      requires Valid() && position <= |input|
      modifies this
      ensures Valid() && line == old(line)
      ensures position == RunEnd(input, old(position), IsLetter)
      ensures ident == input[old(position)..position]
    {
      var start := position;
      while IsLetter(ch)
        invariant Valid() && line == old(line) && start <= position
        invariant RunEnd(input, position, IsLetter) == RunEnd(input, start, IsLetter)
        decreases |input| - position
      {
        ReadChar();
      }
      ident := input[start..position];
    }

    /** Reads the maximal run of digits, `.` and `-` at the cursor. */
    method ReadNumber() returns (number: string)
      requires Valid() && position <= |input|
      modifies this
      ensures Valid() && line == old(line)
      ensures position == RunEnd(input, old(position), IsNumber)
      ensures number == input[old(position)..position]
    {
      var start := position;
      while IsNumber(ch)
        invariant Valid() && line == old(line) && start <= position
        invariant RunEnd(input, position, IsNumber) == RunEnd(input, start, IsNumber)
        decreases |input| - position
      {
        ReadChar();
      }
      number := input[start..position];
    }

    /**
     * Reads from the opening quote at the cursor up to the first closing index
     * (StringEnd) and returns the raw text in between; escapes are not decoded.
     */
    method ReadString() returns (s: string)
      requires Valid() && position < |input|
      modifies this
      ensures Valid() && line == old(line)
      ensures position == StringEnd(input, old(position))
      ensures s == input[old(position) + 1..position]
    {
      var start := position + 1;
      while true
        invariant Valid() && line == old(line)
        invariant old(position) <= position < |input|
        invariant StringEnd(input, position) == StringEnd(input, old(position))
        decreases |input| - position
      {
        var prev := ch;
        ReadChar();
        if (ch == '"' && prev != '\\') || ch == '\0' {
          break;
        }
      }
      s := input[start..position];
    }

    /** Produces one token and advances the cursor past it, exactly as Lex describes. */
    method NextToken() returns (t: Token)
      requires Valid()
      modifies this
      ensures Valid()
      ensures Scan(t, position, line) == Lex(input, old(position), old(line))
    {
      SkipWhitespace();
      LexSkips(input, old(position), old(line));
      // Each branch below produces the Scan that the matching case of LexAt describes.
      ghost var scan := LexAt(input, position, line);
      if ch == '{' {
        t := NewToken(LeftBrace, line, position, position + 1, ch);
        assert Scan(t, position + 1, line) == scan;
      } else if ch == '}' {
        t := NewToken(RightBrace, line, position, position + 1, ch);
        assert Scan(t, position + 1, line) == scan;
      } else if ch == '[' {
        t := NewToken(LeftBracket, line, position, position + 1, ch);
        assert Scan(t, position + 1, line) == scan;
      } else if ch == ']' {
        t := NewToken(LeftBracket, line, position, position + 1, ch);
        assert Scan(t, position + 1, line) == scan;
      } else if ch == ':' {
        t := NewToken(Colon, line, position, position + 1, ch);
        assert Scan(t, position + 1, line) == scan;
      } else if ch == ',' {
        t := NewToken(Comma, line, position, position + 1, ch);
        assert Scan(t, position + 1, line) == scan;
      } else if ch == '"' {
        var literal := ReadString();
        t := Token(String, literal, line, position, position + 1);
        assert Scan(t, position + 1, line) == scan;
      } else if ch == '\0' {
        t := Token(EOF, "", line, 0, 0);
        assert Scan(t, position + 1, line) == scan;
      } else if IsLetter(ch) {
        var start := position;
        var ident := ReadIdentifier();
        var kind := LookupIdentifier(ident);
        if kind.Failure? {
          return Token(Illegal, ident, line, start, 0);
        }
        return Token(kind.value, ident, line, start, position);
      } else if IsNumber(ch) {
        var start := position;
        var number := ReadNumber();
        return Token(Number, number, line, start, position);
      } else {
        t := NewToken(Illegal, line, 1, 2, ch);
        assert Scan(t, position + 1, line) == scan;
      }
      ReadChar();
    }
  }
}
