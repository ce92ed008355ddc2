/**
 * The recursive-descent parser over a token cursor (src/parser/mod.rs).
 *
 * The pure functions below state what each parsing routine returns when
 * the cursor stands at position `i` of the token sequence, and where it
 * leaves the cursor; the class `Parser` holds the cursor, and its methods
 * are proved to agree with those functions.
 */
module Parser {
  import opened Wrappers
  import opened Locations
  import opened Tokens
  import opened Values
  import opened ElementStreams

  /** Why parsing stopped. Only `UnexpectedEOF` has no position. */
  datatype ParserError =
    | ExpectedToken(expected: Token, actual: Token, location: Location)
    | UnexpectedToken(actual: Token, location: Location)
    | UnexpectedEOF
  {
    /** The position a diagnostic points at, absent only at end of input. */
    function Where(): (r: Option<Location>)
      ensures r.None? <==> UnexpectedEOF?
      ensures r.Some? ==> r.value == location
    {
      match this
      case ExpectedToken(_, _, loc) => Some(loc)
      case UnexpectedToken(_, loc) => Some(loc)
      case UnexpectedEOF => None
    }
  }

  /** A parse result and the cursor position after it. */
  datatype Parsed<T> = Parsed(value: T, next: nat)

  // ----- the parsing routines as functions of (tokens, position) ---------------

  /** `expect_token`: the next token must be `expected`; the position after it. */
  function ExpectTokenAt(ts: seq<TokenAndLocation>, i: nat, expected: Token): Result<nat, ParserError>
    requires i <= |ts|
  {
    if i == |ts| then Err(UnexpectedEOF)
    else if ts[i].0 != expected then Err(ExpectedToken(expected, ts[i].0, ts[i].1))
    else Ok(i + 1)
  }

  /**
   * `check_for_trailing_comma` with the cursor at `i`, just past a closing
   * token: the token two back, the one before the closer, must not be a comma.
   */
  function TrailingCommaAt(ts: seq<TokenAndLocation>, i: nat): Result<(), ParserError>
    requires i <= |ts|
  {
    if i < 2 then Ok(())
    else if ts[i - 2].0 == Comma then Err(UnexpectedToken(ts[i - 2].0, ts[i - 2].1))
    else Ok(())
  }

  /** `try_parse_value` at position `i`. */
  function ParseValueAt(ts: seq<TokenAndLocation>, i: nat): (r: Result<Parsed<JsonValue>, ParserError>)
    requires i <= |ts|
    ensures r.Ok? ==> i < r.value.next <= |ts|
    decreases |ts| - i, 2
  {
    if i == |ts| then Err(UnexpectedEOF)
    else
      var (token, location) := ts[i];
      match token
      case String(text) => Ok(Parsed(JsonValue.String(text), i + 1))
      case Number(lexeme) => Ok(Parsed(JsonValue.Number(lexeme), i + 1))
      case Identifier(name) =>
        if name == "true" then Ok(Parsed(Boolean(true), i + 1))
        else if name == "false" then Ok(Parsed(Boolean(false), i + 1))
        else if name == "null" then Ok(Parsed(Null, i + 1))
        else Err(UnexpectedToken(token, location))
      case OpenSquareBracket => ParseArrayAt(ts, i)
      case OpenBrace => ParseObjectAt(ts, i)
      case _ => Err(UnexpectedToken(token, location))
  }

  /** `try_parse_array` at position `i`. */
  function ParseArrayAt(ts: seq<TokenAndLocation>, i: nat): (r: Result<Parsed<JsonValue>, ParserError>)
    requires i <= |ts|
    ensures r.Ok? ==> i < r.value.next <= |ts|
    decreases |ts| - i, 1
  {
    match ExpectTokenAt(ts, i, OpenSquareBracket)
    case Err(e) => Err(e)
    case Ok(j) => ArrayItems(ts, j, [])
  }

  /**
   * The loop of `try_parse_array` with the cursor at `i` and `values`
   * collected so far: a closing bracket ends the array (after the
   * trailing-comma check); otherwise a value, then a comma or a closing
   * bracket.
   */
  function ArrayItems(ts: seq<TokenAndLocation>, i: nat, values: seq<JsonValue>): (r: Result<Parsed<JsonValue>, ParserError>)
    requires i <= |ts|
    ensures r.Ok? ==> i < r.value.next <= |ts|
    decreases |ts| - i, 3
  {
    if i == |ts| then Err(UnexpectedEOF)
    else if ts[i].0 == CloseSquareBracket then
      match TrailingCommaAt(ts, i + 1)
      case Err(e) => Err(e)
      case Ok(_) => Ok(Parsed(Array(values), i + 1))
    else
      match ParseValueAt(ts, i)
      case Err(e) => Err(e)
      case Ok(item) =>
        if item.next == |ts| then Err(UnexpectedEOF)
        else
          var (next, location) := ts[item.next];
          match next
          case Comma => ArrayItems(ts, item.next + 1, values + [item.value])
          case CloseSquareBracket => Ok(Parsed(Array(values + [item.value]), item.next + 1))
          case _ => Err(UnexpectedToken(next, location))
  }

  /** `parse_object` at position `i`. */
  function ParseObjectAt(ts: seq<TokenAndLocation>, i: nat): (r: Result<Parsed<JsonValue>, ParserError>)
    requires i <= |ts|
    ensures r.Ok? ==> i < r.value.next <= |ts|
    decreases |ts| - i, 1
  {
    match ExpectTokenAt(ts, i, OpenBrace)
    case Err(e) => Err(e)
    case Ok(j) => ObjectMembers(ts, j, map[])
  }

  /**
   * The loop of `parse_object` with the cursor at `i` and the members
   * inserted so far: the end of input or a closing brace (after the
   * trailing-comma check) ends the object; any other token starts a
   * key-value pair, inserted over any earlier value of its key.
   */
  function ObjectMembers(ts: seq<TokenAndLocation>, i: nat, members: map<string, JsonValue>): (r: Result<Parsed<JsonValue>, ParserError>)
    requires i <= |ts|
    ensures r.Ok? ==> i <= r.value.next <= |ts|
    decreases |ts| - i, 0
  {
    if i == |ts| then Ok(Parsed(Object(members), i))
    else
      var (token, location) := ts[i];
      if token == CloseBrace then
        match TrailingCommaAt(ts, i + 1)
        case Err(e) => Err(e)
        case Ok(_) => Ok(Parsed(Object(members), i + 1))
      else
        match KeyValuePairAt(ts, i + 1, token, location)
        case Err(e) => Err(e)
        case Ok(pair) => ObjectMembers(ts, pair.next, members[pair.value.0 := pair.value.1])
  }

  /**
   * `try_parse_key_value_pair` for the already consumed `token` at
   * `location`, with the cursor at `i`: a string key, a colon, a value,
   * then a token must follow, and a comma there is skipped.
   */
  function KeyValuePairAt(ts: seq<TokenAndLocation>, i: nat, token: Token, location: Location): (r: Result<Parsed<(string, JsonValue)>, ParserError>)
    requires i <= |ts|
    ensures r.Ok? ==> i < r.value.next <= |ts|
    decreases |ts| - i, 0
  {
    if !token.String? then Err(UnexpectedToken(token, location))
    else
      match ExpectTokenAt(ts, i, Colon)
      case Err(e) => Err(e)
      case Ok(j) =>
        match ParseValueAt(ts, j)
        case Err(e) => Err(e)
        case Ok(v) =>
          if v.next == |ts| then Err(UnexpectedEOF)
          else Ok(Parsed((token.text, v.value), if ts[v.next].0 == Comma then v.next + 1 else v.next))
  }

  /** What `Parser::new(tokens).parse_object()` returns. */
  function Parse(ts: seq<TokenAndLocation>): Result<JsonValue, ParserError>
  {
    match ParseObjectAt(ts, 0)
    case Ok(p) => Ok(p.value)
    case Err(e) => Err(e)
  }

  /** A method result `r` with the cursor at `index` agrees with the function result `spec`. */
  ghost predicate Agrees<T>(r: Result<T, ParserError>, spec: Result<Parsed<T>, ParserError>, index: nat)
  {
    (spec.Ok? ==> r == Ok(spec.value.value) && index == spec.value.next) &&
    (spec.Err? ==> r == Err(spec.error))
  }

  // ----- the parser --------------------------------------------------------------

  /** A token cursor; every parsing routine advances it. */
  class Parser {
    const stream: ElementStream<TokenAndLocation>

    ghost predicate Valid()
      reads this, stream
    {
      stream.Valid()
    }

    /** A parser at the first of `tokens`. */
    constructor (tokens: seq<TokenAndLocation>)
      ensures Valid() && fresh(stream)
      ensures stream.elements == tokens && stream.index == 0
    {
      stream := new ElementStream(tokens);
    }

    /** Parses an object; the end of input inside it ends it without an error. */
    method ParseObject() returns (r: Result<JsonValue, ParserError>)
      requires Valid()
      modifies stream
      ensures Valid() && old(stream.index) <= stream.index
      ensures Agrees(r, ParseObjectAt(stream.elements, old(stream.index)), stream.index)
      decreases |stream.elements| - stream.index, 1
    {
      ghost var ts := stream.elements;
      var opening := ExpectToken(OpenBrace);
      if opening.Err? {
        return Err(opening.error);
      }
      var members: map<string, JsonValue> := map[];
      ghost var spec := ObjectMembers(ts, stream.index, members);
      while true
        invariant Valid() && old(stream.index) < stream.index
        invariant spec == ObjectMembers(ts, stream.index, members)
        decreases |ts| - stream.index
      {
        var next := stream.Consume();
        if next.None? {
          break;
        }
        var (token, location) := next.value;
        if token == CloseBrace {
          var checked := CheckForTrailingComma();
          if checked.Err? {
            return Err(checked.error);
          }
          break;
        }
        var pair := TryParseKeyValuePair(token, location);
        if pair.Err? {
          return Err(pair.error);
        }
        members := members[pair.value.0 := pair.value.1];
      }
      return Ok(Object(members));
    }

    /** Parses an array. */
    method TryParseArray() returns (r: Result<JsonValue, ParserError>)
      requires Valid()
      modifies stream
      ensures Valid() && old(stream.index) <= stream.index
      ensures Agrees(r, ParseArrayAt(stream.elements, old(stream.index)), stream.index)
      decreases |stream.elements| - stream.index, 1
    {
      ghost var ts := stream.elements;
      var opening := ExpectToken(OpenSquareBracket);
      if opening.Err? {
        return Err(opening.error);
      }
      var values: seq<JsonValue> := [];
      ghost var spec := ArrayItems(ts, stream.index, values);
      while true
        invariant Valid() && old(stream.index) < stream.index
        invariant spec == ArrayItems(ts, stream.index, values)
        decreases |ts| - stream.index
      {
        var peeked := stream.Peek();
        match peeked {
          case Some((token, _)) =>
            if token == CloseSquareBracket {
              stream.Skip();
              var checked := CheckForTrailingComma();
              if checked.Err? {
                return Err(checked.error);
              }
              break;
            }
          case None =>
            return Err(UnexpectedEOF);
        }
        var value := TryParseValue();
        if value.Err? {
          return Err(value.error);
        }
        values := values + [value.value];
        var next := TryConsume();
        if next.Err? {
          return Err(next.error);
        }
        var (nextToken, location) := next.value;
        match nextToken {
          case Comma =>
          case CloseSquareBracket =>
            break;
          case _ =>
            return Err(UnexpectedToken(nextToken, location));
        }
      }
      return Ok(Array(values));
    }

    /** Parses a string, number, literal, array or object. */
    method TryParseValue() returns (r: Result<JsonValue, ParserError>)
      requires Valid()
      modifies stream
      ensures Valid() && old(stream.index) <= stream.index
      ensures Agrees(r, ParseValueAt(stream.elements, old(stream.index)), stream.index)
      decreases |stream.elements| - stream.index, 2
    {
      var peeked := TryPeek();
      if peeked.Err? {
        return Err(peeked.error);
      }
      var (firstToken, location) := peeked.value;
      var value: JsonValue;
      match firstToken {
        case String(text) =>
          stream.Skip();
          value := JsonValue.String(text);
        case Number(lexeme) =>
          stream.Skip();
          value := JsonValue.Number(lexeme);
        case Identifier(name) =>
          stream.Skip();
          if name == "true" {
            value := Boolean(true);
          } else if name == "false" {
            value := Boolean(false);
          } else if name == "null" {
            value := Null;
          } else {
            return Err(UnexpectedToken(firstToken, location));
          }
        case OpenSquareBracket =>
          var parsedArray := TryParseArray();
          if parsedArray.Err? {
            return Err(parsedArray.error);
          }
          value := parsedArray.value;
        case OpenBrace =>
          var parsedObject := ParseObject();
          if parsedObject.Err? {
            return Err(parsedObject.error);
          }
          value := parsedObject.value;
        case _ =>
          return Err(UnexpectedToken(firstToken, location));
      }
      return Ok(value);
    }

    /** Parses the rest of a key-value pair whose first token was already consumed. */
    method TryParseKeyValuePair(token: Token, location: Location) returns (r: Result<(string, JsonValue), ParserError>)
      requires Valid()
      modifies stream
      ensures Valid() && old(stream.index) <= stream.index
      ensures Agrees(r, KeyValuePairAt(stream.elements, old(stream.index), token, location), stream.index)
      decreases |stream.elements| - stream.index, 0
    {
      if !token.String? {
        return Err(UnexpectedToken(token, location));
      }
      var key := token.text;
      var colon := ExpectToken(Colon);
      if colon.Err? {
        return Err(colon.error);
      }
      var value := TryParseValue();
      if value.Err? {
        return Err(value.error);
      }
      var next := TryPeek();
      if next.Err? {
        return Err(next.error);
      }
      if next.value.0 == Comma {
        stream.Skip();
      }
      return Ok((key, value.value));
    }

    /** Consumes the next token, which must be `expected`. */
    method ExpectToken(expected: Token) returns (r: Result<(), ParserError>)
      requires Valid()
      modifies stream
      ensures Valid()
      ensures stream.index == if old(stream.index) < |stream.elements| then old(stream.index) + 1 else old(stream.index)
      ensures var spec := ExpectTokenAt(stream.elements, old(stream.index), expected);
        (r.Ok? <==> spec.Ok?) && (spec.Ok? ==> stream.index == spec.value) && (spec.Err? ==> r.error == spec.error)
    {
      var next := TryConsume();
      if next.Err? {
        return Err(next.error);
      }
      var (nextToken, location) := next.value;
      if nextToken != expected {
        return Err(ExpectedToken(expected, nextToken, location));
      }
      return Ok(());
    }

    /** Fails if the token before the closer just consumed is a comma. */
    method CheckForTrailingComma() returns (r: Result<(), ParserError>)
      requires Valid()
      ensures r == TrailingCommaAt(stream.elements, stream.index)
    {
      var previous := stream.Previous(2);
      if previous.None? {
        return Ok(());
      }
      var (token, location) := previous.value;
      if token == Comma {
        return Err(UnexpectedToken(token, location));
      }
      return Ok(());
    }

    /** The next token, consumed; `UnexpectedEOF` at the end. */
    method TryConsume() returns (r: Result<TokenAndLocation, ParserError>)
      requires Valid()
      modifies stream
      ensures Valid()
      ensures old(stream.index) < |stream.elements| ==>
        r == Ok(stream.elements[old(stream.index)]) && stream.index == old(stream.index) + 1
      ensures old(stream.index) == |stream.elements| ==> r == Err(UnexpectedEOF) && stream.index == old(stream.index)
    {
      var next := stream.Consume();
      if next.None? {
        return Err(UnexpectedEOF);
      }
      return Ok(next.value);
    }

    /** The next token, not consumed; `UnexpectedEOF` at the end. */
    method TryPeek() returns (r: Result<TokenAndLocation, ParserError>)
      requires Valid()
      ensures stream.index < |stream.elements| ==> r == Ok(stream.elements[stream.index])
      ensures stream.index == |stream.elements| ==> r == Err(UnexpectedEOF)
    {
      var next := stream.Peek();
      if next.None? {
        return Err(UnexpectedEOF);
      }
      return Ok(next.value);
    }
  }
}
