/**
 * The single-pass character scanner (src/tokenizer/mod.rs).
 *
 * The pure functions below state what one pass produces from a character
 * sequence, a cursor position and the current (line, column); the class
 * `Tokenizer` is the scanner itself, whose methods are proved to agree
 * with those functions.
 */
module Tokenizer {
  import opened Wrappers
  import opened Locations
  import opened Tokens
  import opened ElementStreams

  // ----- character classes ---------------------------------------------------

  /** An ASCII decimal digit, as the float grammar uses them. */
  predicate IsDigit(c: char)
  {
    '0' <= c <= '9'
  }

  /** `char::is_numeric`, restricted to ASCII, where it is the decimal digits. */
  predicate IsNumeric(c: char)
  {
    IsDigit(c)
  }

  /** `char::is_alphanumeric`, restricted to ASCII letters and digits. */
  predicate IsAlphanumeric(c: char)
  {
    IsNumeric(c) || 'a' <= c <= 'z' || 'A' <= c <= 'Z'
  }

  /** A character that starts or continues a number lexeme. */
  predicate IsJsonNumber(c: char)
  {
    c == '-' || c == '.' || c == 'e' || c == 'E' || IsNumeric(c)
  }

  /** The classes of characters over which the sub-scanners run. */
  datatype CharClass = NumberChars | IdentifierChars | StringChars | CommentChars

  predicate InClass(cls: CharClass, c: char)
  {
    match cls
    case NumberChars => IsJsonNumber(c)
    case IdentifierChars => IsAlphanumeric(c)
    case StringChars => c != '"' && c != '\n'
    case CommentChars => c != '\n'
  }

  /** The end of the longest run of `cls` characters starting at `i`. */
  function RunEnd(s: seq<char>, i: nat, cls: CharClass): (k: nat)
    requires i <= |s|
    ensures i <= k <= |s|
    ensures forall j :: i <= j < k ==> InClass(cls, s[j])
    ensures k == |s| || !InClass(cls, s[k])
    decreases |s| - i
  {
    if i < |s| && InClass(cls, s[i]) then RunEnd(s, i + 1, cls) else i
  }

  // ----- the float grammar -----------------------------------------------------

  /**
   * The text `str::parse::<f64>` accepts, for lexemes made of number
   * characters: an optional sign, digits with at most one point and at
   * least one digit, then an optional exponent `e`/`E`, optional sign,
   * one or more digits. (The spellings `inf`, `infinity` and `nan` cannot
   * occur in such a lexeme.) It is read left to right by the automaton
   * below.
   */
  predicate ParsesAsFloat(lexeme: string)
  {
    FloatAccepts(lexeme, 0, AtStart)
  }

  /** Where a left-to-right reading of a float stands; `digits` records a mantissa digit so far. */
  datatype FloatState =
    | AtStart
    | InInteger(digits: bool)
    | InFraction(digits: bool)
    | AtExponent
    | AfterExponentSign
    | InExponent

  /** The state after reading `c`, or `None` when `c` cannot come next. */
  function FloatNext(st: FloatState, c: char): Option<FloatState>
  {
    var sign, exp := c == '+' || c == '-', c == 'e' || c == 'E';
    match st
    case AtStart =>
      if sign then Some(InInteger(false)) else if IsDigit(c) then Some(InInteger(true))
      else if c == '.' then Some(InFraction(false)) else None
    case InInteger(d) =>
      if IsDigit(c) then Some(InInteger(true)) else if c == '.' then Some(InFraction(d))
      else if exp && d then Some(AtExponent) else None
    case InFraction(d) =>
      if IsDigit(c) then Some(InFraction(true)) else if exp && d then Some(AtExponent) else None
    case AtExponent =>
      if sign then Some(AfterExponentSign) else if IsDigit(c) then Some(InExponent) else None
    case AfterExponentSign =>
      if IsDigit(c) then Some(InExponent) else None
    case InExponent =>
      if IsDigit(c) then Some(InExponent) else None
  }

  /** Reading `l[i..]` from `st` ends in a state where the text so far is a float. */
  predicate FloatAccepts(l: string, i: nat, st: FloatState)
    requires i <= |l|
    decreases |l| - i
  {
    if i == |l| then st == InInteger(true) || st == InFraction(true) || st == InExponent
    else
      match FloatNext(st, l[i])
      case None => false
      case Some(next) => FloatAccepts(l, i + 1, next)
  }

  // ----- newline normalisation -------------------------------------------------

  /** `content.replace("\r\n", "\n")`: each `\r\n` pair, scanned left to right, becomes `\n`. */
  function NormalizeNewlines(s: string): (r: string)
    ensures |r| <= |s|
    ensures forall c :: c in r ==> c in s
  {
    if |s| >= 2 && s[0] == '\r' && s[1] == '\n' then ['\n'] + NormalizeNewlines(s[2..])
    else if s == [] then []
    else [s[0]] + NormalizeNewlines(s[1..])
  }

  /** The number of newlines in `s`. */
  function Newlines(s: string): nat
  {
    if s == [] then 0 else (if s[0] == '\n' then 1 else 0) + Newlines(s[1..])
  }

  // ----- the sub-scanners ------------------------------------------------------

  /** What a sub-scan produced, where the cursor stopped and the column after it. */
  datatype Scanned<T> = Scanned(value: T, next: nat, column: nat)

  /**
   * The string scan that follows an opening quote at `i - 1`: the payload
   * runs to the closing quote, which is consumed but not kept; a newline
   * first is an error; the end of input first ends the payload. Every
   * consume, including the one that finds the end of input, advances the
   * column.
   */
  function ScanString(s: seq<char>, i: nat, line: nat, column: nat): (r: Result<Scanned<string>, TokenizerError>)
    requires i <= |s|
    ensures r.Ok? ==>
      var n := |r.value.value|;
      i + n <= |s| && r.value.value == s[i..i + n] &&
      '"' !in r.value.value && '\n' !in r.value.value &&
      r.value.column == column + n + 1 &&
      ((i + n == |s| && r.value.next == |s|) ||
       (i + n < |s| && s[i + n] == '"' && r.value.next == i + n + 1))
    ensures r.Err? ==>
      r.error.ExpectedCharacter? && r.error.expected == '"' &&
      r.error.location.line == line && column < r.error.location.column &&
      var n := r.error.location.column - column - 1;
      i + n < |s| && s[i + n] == '\n' && '"' !in s[i..i + n] && '\n' !in s[i..i + n]
  {
    var k := RunEnd(s, i, StringChars);
    assert forall j :: i <= j < k ==> s[j] != '"' && s[j] != '\n';
    if k < |s| && s[k] == '\n' then
      Err(ExpectedCharacter('"', Location(line, column + (k - i) + 1)))
    else
      Ok(Scanned(s[i..k], if k < |s| then k + 1 else k, column + (k - i) + 1))
  }

  /**
   * The identifier scan after its first character `first`: the maximal
   * run of alphanumeric characters from `i`, each skipped with a column
   * step.
   */
  function ScanIdentifier(s: seq<char>, i: nat, first: char, column: nat): (r: Scanned<string>)
    requires i <= |s|
    ensures i <= r.next <= |s|
    ensures r.value == [first] + s[i..r.next]
    ensures forall j :: i <= j < r.next ==> IsAlphanumeric(s[j])
    ensures r.next == |s| || !IsAlphanumeric(s[r.next])
    ensures r.column == column + |r.value| - 1
  {
    var k := RunEnd(s, i, IdentifierChars);
    Scanned([first] + s[i..k], k, column + (k - i))
  }

  /**
   * The greedy number scan after its first character `first`: the maximal
   * run of number characters from `i`; the lexeme becomes a token only if
   * it parses as a float, otherwise it is dropped without an error.
   */
  function ScanNumber(s: seq<char>, i: nat, first: char, column: nat): (r: Scanned<Option<Token>>)
    requires i <= |s|
    ensures i <= r.next <= |s|
    ensures forall j :: i <= j < r.next ==> IsJsonNumber(s[j])
    ensures r.next == |s| || !IsJsonNumber(s[r.next])
    ensures r.column == column + (r.next - i)
    ensures r.value.Some? <==> ParsesAsFloat([first] + s[i..r.next])
    ensures r.value.Some? ==> r.value.value == Number([first] + s[i..r.next])
  {
    var k := RunEnd(s, i, NumberChars);
    var lexeme := [first] + s[i..k];
    Scanned(if ParsesAsFloat(lexeme) then Some(Number(lexeme)) else None, k, column + (k - i))
  }

  /** The token of a punctuation character. */
  function Punctuation(c: char): Option<Token>
  {
    match c
    case '{' => Some(OpenBrace)
    case '}' => Some(CloseBrace)
    case ':' => Some(Colon)
    case ',' => Some(Comma)
    case '[' => Some(OpenSquareBracket)
    case ']' => Some(CloseSquareBracket)
    case _ => None
  }

  // ----- one pass --------------------------------------------------------------

  function Prepend(x: TokenAndLocation, r: Result<seq<TokenAndLocation>, TokenizerError>): Result<seq<TokenAndLocation>, TokenizerError>
  {
    match r
    case Ok(ts) => Ok([x] + ts)
    case Err(e) => Err(e)
  }

  function Concat(ts: seq<TokenAndLocation>, r: Result<seq<TokenAndLocation>, TokenizerError>): Result<seq<TokenAndLocation>, TokenizerError>
  {
    match r
    case Ok(rest) => Ok(ts + rest)
    case Err(e) => Err(e)
  }

  lemma ConcatPrepend(ts: seq<TokenAndLocation>, x: TokenAndLocation, r: Result<seq<TokenAndLocation>, TokenizerError>)
    ensures Concat(ts, Prepend(x, r)) == Concat(ts + [x], r)
  {
    if r.Ok? {
      assert ts + ([x] + r.value) == ts + [x] + r.value;
    }
  }

  /** What one iteration of the scanning loop does with the character at the cursor. */
  datatype Step =
    | Emitted(item: TokenAndLocation, next: nat, line: nat, column: nat)
    | Skipped(next: nat, line: nat, column: nat)
    | Failed(error: TokenizerError)

  /**
   * One iteration at position `i` with the counters at (`line`, `column`):
   * consume the character, advancing the column, then dispatch on it. A
   * step that does not fail consumes at least that character.
   */
  function StepAt(s: seq<char>, i: nat, line: nat, column: nat): (r: Step)
    requires i < |s|
    ensures !r.Failed? ==> i < r.next <= |s|
  {
    var c, col := s[i], column + 1;
    if Punctuation(c).Some? then
      Emitted((Punctuation(c).value, Location(line, col)), i + 1, line, col)
    else if c == '"' then
      match ScanString(s, i + 1, line, col)
      case Err(e) => Failed(e)
      case Ok(str) => Emitted((String(str.value), Location(line, str.column)), str.next, line, str.column)
    else if c == '/' then
      Skipped(RunEnd(s, i + 1, CommentChars), line, col)
    else if c == ' ' then
      Skipped(i + 1, line, col)
    else if c == '\n' then
      Skipped(i + 1, line + 1, 0)
    else if IsJsonNumber(c) then
      var num := ScanNumber(s, i + 1, c, col);
      if num.value.Some? then
        Emitted((num.value.value, Location(line, num.column)), num.next, line, num.column)
      else
        Skipped(num.next, line, num.column)
    else if IsAlphanumeric(c) then
      var id := ScanIdentifier(s, i + 1, c, col);
      Emitted((Identifier(id.value), Location(line, id.column)), id.next, line, id.column)
    else
      Failed(UnexpectedCharacter(c, Location(line, col)))
  }

  /**
   * The tokens that `process` emits from position `i` of `s` when the
   * counters stand at (`line`, `column`), or the first error. Every token
   * takes at least one character.
   */
  function Lex(s: seq<char>, i: nat, line: nat, column: nat): (r: Result<seq<TokenAndLocation>, TokenizerError>)
    requires i <= |s|
    ensures r.Ok? ==> |r.value| <= |s| - i
    decreases |s| - i
  {
    if i == |s| then Ok([])
    else
      match StepAt(s, i, line, column)
      case Emitted(x, j, l, c) => Prepend(x, Lex(s, j, l, c))
      case Skipped(j, l, c) => Lex(s, j, l, c)
      case Failed(e) => Err(e)
  }

  /**
   * The counters (line, column) at which the `process` loop stops after a
   * pass from `i`: the consume that finds the end of input still advances
   * the column. `None` exactly when the pass fails.
   */
  function LexEnd(s: seq<char>, i: nat, line: nat, column: nat): (r: Option<(nat, nat)>)
    requires i <= |s|
    ensures r.Some? <==> Lex(s, i, line, column).Ok?
    decreases |s| - i
  {
    if i == |s| then Some((line, column + 1))
    else
      match StepAt(s, i, line, column)
      case Emitted(_, j, l, c) => LexEnd(s, j, l, c)
      case Skipped(j, l, c) => LexEnd(s, j, l, c)
      case Failed(_) => None
  }

  /** What `Tokenizer::new(content).process()` returns. */
  function Tokenize(content: string): Result<seq<TokenAndLocation>, TokenizerError>
  {
    Lex(NormalizeNewlines(content), 0, 0, 0)
  }

  // ----- the scanner -----------------------------------------------------------

  /** A character cursor with running line and column counters. */
  class Tokenizer {
    const stream: ElementStream<char>
    var line: nat
    var column: nat

    ghost predicate Valid()
      reads this, stream
    {
      stream.Valid()
    }

    /** A scanner over `content` with every `\r\n` reduced to `\n`, at (0, 0). */
    constructor (content: string)
      ensures Valid() && fresh(stream)
      ensures stream.elements == NormalizeNewlines(content) && stream.index == 0
      ensures line == 0 && column == 0
    {
      stream := new ElementStream(NormalizeNewlines(content));
      line, column := 0, 0;
    }

    function CurrentLocation(): Location
      reads this
    {
      Location(line, column)
    }

    /** Runs the scanner to the end of input or to the first error. */
    method Process() returns (r: Result<seq<TokenAndLocation>, TokenizerError>)
      requires Valid()
      modifies this, stream
      ensures Valid()
      ensures r == Lex(stream.elements, old(stream.index), old(line), old(column))
      ensures r.Ok? ==> stream.index == |stream.elements|
      ensures r.Ok? ==> LexEnd(stream.elements, old(stream.index), old(line), old(column)) == Some((line, column))
    {
      ghost var s := stream.elements;
      ghost var spec := Lex(s, stream.index, line, column);
      ghost var stop := LexEnd(s, stream.index, line, column);
      var tokens: seq<TokenAndLocation> := [];
      assert spec.Ok? ==> [] + spec.value == spec.value;
      while true
        invariant Valid() && stream.elements == s
        invariant spec == Concat(tokens, Lex(s, stream.index, line, column))
        invariant stop == LexEnd(s, stream.index, line, column)
        decreases |s| - stream.index
      {
        ghost var i, line0, col0 := stream.index, line, column;
        var character := Consume();
        if character.None? {
          break;
        }
        var step := Dispatch(character.value);
        match step
        case Failed(e) =>
          return Err(e);
        case Skipped(_, _, _) =>
        case Emitted(x, _, _, _) =>
          ConcatPrepend(tokens, x, Lex(s, stream.index, line, column));
          tokens := tokens + [x];
      }
      assert tokens + [] == tokens;
      return Ok(tokens);
    }

    /**
     * The body of one loop iteration once `c` has been consumed: the
     * outcome is what `StepAt` says of the position `c` was read from, and
     * unless it fails the counters stand where it says.
     */
    method Dispatch(c: char) returns (r: Step)
      requires Valid() && 0 < stream.index <= |stream.elements| && 0 < column
      requires stream.elements[stream.index - 1] == c
      modifies this, stream
      ensures Valid()
      ensures r == StepAt(stream.elements, old(stream.index) - 1, old(line), old(column) - 1)
      ensures !r.Failed? ==> stream.index == r.next && line == r.line && column == r.column
      ensures r.Failed? ==> line == old(line) && column == r.error.location.column
      ensures r.Failed? && r.error.UnexpectedCharacter? ==> stream.index == old(stream.index)
      ensures r.Failed? && r.error.ExpectedCharacter? ==>
        stream.index == RunEnd(stream.elements, old(stream.index), StringChars) + 1
    {
      match c {
        case '{' => r := Emitted((OpenBrace, CurrentLocation()), stream.index, line, column);
        case '}' => r := Emitted((CloseBrace, CurrentLocation()), stream.index, line, column);
        case ':' => r := Emitted((Colon, CurrentLocation()), stream.index, line, column);
        case ',' => r := Emitted((Comma, CurrentLocation()), stream.index, line, column);
        case '[' => r := Emitted((OpenSquareBracket, CurrentLocation()), stream.index, line, column);
        case ']' => r := Emitted((CloseSquareBracket, CurrentLocation()), stream.index, line, column);
        case '"' =>
          var str := TryParseString();
          if str.Err? {
            return Failed(str.error);
          }
          r := Emitted((str.value, CurrentLocation()), stream.index, line, column);
        case '/' =>
          SkipComment();
          r := Skipped(stream.index, line, column);
        case ' ' =>
          r := Skipped(stream.index, line, column);
        case '\n' =>
          line := line + 1;
          column := 0;
          r := Skipped(stream.index, line, column);
        case _ =>
          if IsJsonNumber(c) {
            var token := TryParseNumber(c);
            if token.Some? {
              r := Emitted((token.value, CurrentLocation()), stream.index, line, column);
            } else {
              r := Skipped(stream.index, line, column);
            }
          } else if IsAlphanumeric(c) {
            var id := TryParseIdentifier(c);
            r := Emitted((id.value, CurrentLocation()), stream.index, line, column);
          } else {
            r := Failed(UnexpectedCharacter(c, CurrentLocation()));
          }
      }
    }

    /** Skips comment characters up to, not including, the next newline; the column does not move. */
    method SkipComment()
      requires Valid()
      modifies stream
      ensures Valid()
      ensures stream.index == RunEnd(stream.elements, old(stream.index), CommentChars)
    {
      ghost var end := RunEnd(stream.elements, stream.index, CommentChars);
      while true
        invariant Valid()
        invariant old(stream.index) <= stream.index <= end
        invariant RunEnd(stream.elements, stream.index, CommentChars) == end
        decreases |stream.elements| - stream.index
      {
        var character := stream.Peek();
        if character.None? {
          break;
        }
        if character.value == '\n' {
          break;
        }
        stream.Skip();
      }
    }

    /** The string scan after an opening quote. */
    method TryParseString() returns (r: Result<Token, TokenizerError>)
      requires Valid()
      modifies this, stream
      ensures Valid() && line == old(line)
      ensures var spec := ScanString(stream.elements, old(stream.index), old(line), old(column));
        (r.Ok? <==> spec.Ok?) &&
        (spec.Ok? ==> r.value == String(spec.value.value) && stream.index == spec.value.next && column == spec.value.column) &&
        (spec.Err? ==>
           r.error == spec.error && column == spec.error.location.column &&
           stream.index == RunEnd(stream.elements, old(stream.index), StringChars) + 1)
    {
      ghost var s, start, col0 := stream.elements, stream.index, column;
      ghost var end := RunEnd(s, start, StringChars);
      var characters: string := [];
      while true
        invariant Valid() && line == old(line)
        invariant start <= stream.index <= end
        invariant characters == s[start..stream.index]
        invariant column == col0 + (stream.index - start)
        decreases |s| - stream.index
      {
        var character := Consume();
        if character.None? {
          break;
        }
        if character.value == '"' {
          break;
        }
        if character.value == '\n' {
          return Err(ExpectedCharacter('"', CurrentLocation()));
        }
        characters := characters + [character.value];
      }
      return Ok(String(characters));
    }

    /** The identifier scan after its first character. */
    method TryParseIdentifier(first: char) returns (r: Result<Token, TokenizerError>)
      requires Valid()
      modifies this, stream
      ensures Valid() && line == old(line)
      ensures var spec := ScanIdentifier(stream.elements, old(stream.index), first, old(column));
        r == Ok(Identifier(spec.value)) && stream.index == spec.next && column == spec.column
    {
      ghost var s, start, col0 := stream.elements, stream.index, column;
      ghost var end := RunEnd(s, start, IdentifierChars);
      var characters: string := [first];
      while true
        invariant Valid() && line == old(line)
        invariant start <= stream.index <= end
        invariant characters == [first] + s[start..stream.index]
        invariant column == col0 + (stream.index - start)
        decreases |s| - stream.index
      {
        var character := stream.Peek();
        if character.None? {
          break;
        }
        if !IsAlphanumeric(character.value) {
          break;
        }
        if character.value == '\n' {
          // A newline is not alphanumeric, so the error return here is unreachable.
          assert false;
        }
        Skip();
        characters := characters + [character.value];
      }
      return Ok(Identifier(characters));
    }

    /** The greedy number scan after its first character. */
    method TryParseNumber(first: char) returns (r: Option<Token>)
      requires Valid()
      modifies this, stream
      ensures Valid() && line == old(line)
      ensures var spec := ScanNumber(stream.elements, old(stream.index), first, old(column));
        r == spec.value && stream.index == spec.next && column == spec.column
    {
      ghost var s, start, col0 := stream.elements, stream.index, column;
      ghost var end := RunEnd(s, start, NumberChars);
      var characters: string := [first];
      while true
        invariant Valid() && line == old(line)
        invariant start <= stream.index <= end
        invariant characters == [first] + s[start..stream.index]
        invariant column == col0 + (stream.index - start)
        decreases |s| - stream.index
      {
        var character := stream.Peek();
        if character.None? {
          break;
        }
        if !IsJsonNumber(character.value) {
          break;
        }
        Skip();
        characters := characters + [character.value];
      }
      ghost var spec := ScanNumber(s, start, first, col0);
      assert spec.next == end == stream.index;
      assert characters == [first] + s[start..spec.next];
      if ParsesAsFloat(characters) {
        return Some(Number(characters));
      }
      return None;
    }

    /** Consumes one character; the column advances even when the input is exhausted. */
    method Consume() returns (r: Option<char>)
      requires Valid()
      modifies this, stream
      ensures Valid() && line == old(line) && column == old(column) + 1
      ensures old(stream.index) < |stream.elements| ==>
        r == Some(stream.elements[old(stream.index)]) && stream.index == old(stream.index) + 1
      ensures old(stream.index) == |stream.elements| ==> r == None && stream.index == old(stream.index)
    {
      column := column + 1;
      r := stream.Consume();
    }

    /** Skips one character; the column advances even when the input is exhausted. */
    method Skip()
      requires Valid()
      modifies this, stream
      ensures Valid() && line == old(line) && column == old(column) + 1
      ensures stream.index == if old(stream.index) < |stream.elements| then old(stream.index) + 1 else old(stream.index)
    {
      column := column + 1;
      stream.Skip();
    }
  }
}
