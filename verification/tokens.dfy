/** Tokens and tokenizer errors (src/tokenizer/token.rs, src/tokenizer/error.rs). */
module Tokens {
  import opened Wrappers
  import opened Locations

  /**
   * A lexical unit, with the variants the tokenizer and the parser use.
   * A number carries its lexeme, which satisfies the float grammar.
   */
  datatype Token =
    | String(text: string)
    | Identifier(name: string)
    | Number(lexeme: string)
    | OpenBrace
    | CloseBrace
    | OpenSquareBracket
    | CloseSquareBracket
    | Colon
    | Comma

  /** A token paired with the location current when it was completed. */
  type TokenAndLocation = (Token, Location)

  /** Why tokenizing stopped. */
  datatype TokenizerError =
    | ExpectedCharacter(expected: char, location: Location)
    | UnexpectedCharacter(character: char, location: Location)
  {
    /** Every tokenizer error has a position. */
    function Where(): (r: Option<Location>)
      ensures r.Some?
      ensures r.value == location
    {
      match this
      case ExpectedCharacter(_, loc) => Some(loc)
      case UnexpectedCharacter(_, loc) => Some(loc)
    }
  }
}
