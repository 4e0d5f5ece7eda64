/**
 * Token kinds, the token record and the keyword table of the JSON lexer
 * (src/token/token.go).
 */
module Token {
  import opened Wrappers

  /** The thirteen kinds of token. Go stores each as a string constant; see Name(). */
  datatype TokenType =
    | Illegal | EOF | String | Number
    | LeftBrace | RightBrace | LeftBracket | RightBracket
    | Comma | Colon | True | False | Null
  {
    /** The string value Go gives the kind; never the empty string returned on a failed lookup. */
    function Name(): (r: string)
      ensures r != ""
    {
      match this
      case Illegal => "ILLEGAL"
      case EOF => "EOF"
      case String => "STRING"
      case Number => "NUMBER"
      case LeftBrace => "{"
      case RightBrace => "}"
      case LeftBracket => "["
      case RightBracket => "]"
      case Comma => ","
      case Colon => ":"
      case True => "TRUE"
      case False => "FALSE"
      case Null => "NULL"
    }
  }

  /** One lexical unit: its kind, raw text, the line it was read on and a start/end offset pair. */
  datatype Token = Token(kind: TokenType, literal: string, line: int, start: int, end: int)

  /** The only identifiers the lexer accepts. */
  const ValidJsonIdentifiers: map<string, TokenType> :=
    map["true" := True, "false" := False, "null" := Null]

  /**
   * Looks an identifier up in the keyword table. Go returns an error (and the empty Type)
   * for anything else; here the failure carries the rejected identifier.
   */
  function LookupIdentifier(identifier: string): (r: Result<TokenType, string>)
    ensures r == Success(True) <==> identifier == "true"
    ensures r == Success(False) <==> identifier == "false"
    ensures r == Success(Null) <==> identifier == "null"
    ensures r.Failure? <==> identifier !in {"true", "false", "null"}
    ensures r.Failure? ==> r.error == identifier
  {
    if identifier in ValidJsonIdentifiers then Success(ValidJsonIdentifiers[identifier])
    else Failure(identifier)
  }

  /** Distinct kinds have distinct Go string values. */
  lemma NamesDistinct(a: TokenType, b: TokenType)
    ensures a.Name() == b.Name() ==> a == b
  {
  }
}
