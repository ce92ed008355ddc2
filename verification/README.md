# jsonp in Dafny

A model of the core of `jsonp`, a small JSON-like reader written in Rust.
It reads in two passes:

* **Tokenizer.** The tokenizer walks the characters of the input once.
  - It keeps a `line` and a `column` counter, and `\r\n` is first reduced to `\n`.
  - It emits punctuation, string, number and identifier tokens, each paired with the location where it was completed.
  - Spaces, newlines and `/` comments produce no token.
  - A number lexeme that does not parse as a float is dropped silently.
  - A newline inside a string, or a character of no known class, aborts with a `TokenizerError`.
* **Parser.** The recursive-descent parser reads that token sequence and builds a `JsonValue`.
  - Objects are hash maps, so a later duplicate key wins.
  - Commas between object members are optional.
  - A trailing comma before `}` or `]` is an error.
  - The identifiers `true`, `false` and `null` are literals.

Both passes move a cursor over a sequence, the `ElementStream`. It has `peek`, `previous`, `consume` and `skip`.

Module layout, one module per file:

| module | file | models |
|---|---|---|
| `Wrappers` | wrappers.dfy | `Option` / `Result` |
| `Locations` | locations.dfy | `Location` (line, column) and reading order |
| `Tokens` | tokens.dfy | `Token`, `TokenAndLocation`, `TokenizerError` |
| `Values` | values.dfy | `JsonValue` |
| `ElementStreams` | element_stream.dfy | the cursor class `ElementStream<T>` |
| `Tokenizer` | tokenizer.dfy | character classes, the scanning functions, the pure pass `Lex`, and the class `Tokenizer` |
| `TokenizerProperties` | tokenizer_properties.dfy | what `Lex` does on each kind of character; reading order; line bounds |
| `Parser` | parser.dfy | `ParserError`, the parsing functions `…At` over (tokens, position), and the class `Parser` |
| `ParserProperties` | parser_properties.dfy | error cases, literals, trailing commas, order, last write wins, and parsing the tokens of a document |
| `Documents` | documents.dfy | a reference description of written JSON: its text, its tokens and its value |
| `RoundTrip` | round_trip.dfy | rendering a document and tokenizing it gives its tokens; tokenizing then parsing gives its value |

**How the model is built.**
* Each state-changing routine of the source is a method of a `class`.
  - The class holds the source's fields: the cursor `index`, the counters `line`/`column`, and the `element_stream`.
  - Each method is proved against a pure function of the old state.
  - For example, `Tokenizer.Process` returns exactly `Lex(elements, index, line, column)`.
  - Likewise, `Parser.TryParseValue` returns what `ParseValueAt(tokens, index)` says; on success it also leaves the cursor where that function says.
* The properties are proved about those functions.
* The round-trip lemmas tie the two passes together:
  - Write an object out as text (`Documents.Render`) without newlines.
  - Tokenizing that text gives the token sequence `Documents.Emit`, with its exact locations.
  - Parsing those tokens gives the document's meaning, with later keys winning.

## Model

| member | source | states |
|---|---|---|
| ElementStreams.ElementStream.constructor | src/element_stream.rs:7-9 | a new cursor stands at index 0 over exactly the given elements |
| ElementStreams.ElementStream.Peek | src/element_stream.rs:11-17 | the element at the cursor, or `None` when exhausted; nothing changes |
| ElementStreams.ElementStream.Previous | src/element_stream.rs:19-22 | `None` when stepping back `back` would go before the start; else the element `back` places before the cursor (when in range); nothing changes |
| ElementStreams.ElementStream.Consume | src/element_stream.rs:24-33 | a non-exhausted cursor yields the element at `index` and advances by exactly one; an exhausted one yields `None` and stays put; the index never passes the end |
| ElementStreams.ElementStream.Skip | src/element_stream.rs:35-41 | advances by one if and only if the cursor is not exhausted |
| Tokens.TokenizerError.Where | src/tokenizer/error.rs:12-17 | every tokenizer error carries the location it was raised at |
| Tokenizer.NormalizeNewlines | src/tokenizer/mod.rs:16-22 | the normalised text is no longer and adds no character other than those of the input |
| Tokenizer.RunEnd | src/tokenizer/mod.rs:84-96 | the end of the maximal run of characters of a class: every character before it is in the class, the one at it is not |
| Tokenizer.ScanString | src/tokenizer/mod.rs:98-119 | the string payload is exactly the characters after the opening quote up to the closing quote or end of input, free of `"` and `\n`; a `\n` first yields `ExpectedCharacter('"')` at that newline's column |
| Tokenizer.ScanIdentifier | src/tokenizer/mod.rs:121-143 | an identifier is its first character followed by the maximal run of alphanumeric characters, one column each |
| Tokenizer.ScanNumber | src/tokenizer/mod.rs:145-166 | the number scan takes the maximal run of number characters; it yields a `Number` token exactly when the lexeme parses as a float (`ParsesAsFloat`, standing for `parse::<f64>()` at src/tokenizer/mod.rs:161-165), and otherwise nothing |
| Tokenizer.StepAt | src/tokenizer/mod.rs:24-75 | every iteration that does not fail consumes at least the character it read |
| Tokenizer.Lex | src/tokenizer/mod.rs:24-75 | a pass emits no more tokens than there are characters left |
| Tokenizer.LexEnd | src/tokenizer/mod.rs:24-75 | the counters where the loop stops are defined exactly when the pass does not fail |
| Tokenizer.Tokenizer.constructor | src/tokenizer/mod.rs:16-22 | the tokenizer starts at (0, 0) over the input with `\r\n` reduced to `\n` |
| Tokenizer.Tokenizer.Process | src/tokenizer/mod.rs:24-75 | the loop returns exactly the pass `Lex` from the current position and counters: all tokens in order, or the first error; after a successful run the cursor stands at the end of the input and the counters stand where `LexEnd` says (`Tokenizer.Tokenize` is this pass from (0, 0) over the normalised text) |
| Tokenizer.Tokenizer.Dispatch | src/tokenizer/mod.rs:30-66 | one dispatch on the consumed character does what `StepAt` says; unless it fails it leaves cursor and counters where `StepAt` says; when it fails the line is unchanged, the column is the error's column (from `CurrentLocation`, src/tokenizer/mod.rs:77-82), and the cursor is unchanged after an unexpected character or just past the newline that broke a string |
| Tokenizer.Tokenizer.SkipComment | src/tokenizer/mod.rs:84-96 | skips up to, not including, the next newline (or to the end), without moving the column |
| Tokenizer.Tokenizer.TryParseString | src/tokenizer/mod.rs:98-119 | the string loop agrees with `ScanString`: on success payload, cursor and column; on the newline error the error itself, with the column at the newline and the cursor just past it |
| Tokenizer.Tokenizer.TryParseIdentifier | src/tokenizer/mod.rs:121-143 | the identifier loop agrees with `ScanIdentifier` and never fails |
| Tokenizer.Tokenizer.TryParseNumber | src/tokenizer/mod.rs:145-166 | the number loop agrees with `ScanNumber`, including dropping a lexeme that does not parse |
| Tokenizer.Tokenizer.Consume | src/tokenizer/mod.rs:168-171 | yields the next character if any, and advances the column by one even at end of input |
| Tokenizer.Tokenizer.Skip | src/tokenizer/mod.rs:173-176 | advances the cursor if not exhausted, and the column by one in any case |
| TokenizerProperties.RunEndAt | src/tokenizer/mod.rs:84-96 | the end of a maximal run is unique: any position bounding such a run is `RunEnd` |
| TokenizerProperties.NormalizeWithoutCarriageReturn | src/tokenizer/mod.rs:16-22 | text without `\r` is left unchanged |
| TokenizerProperties.NormalizeWithoutNewline | src/tokenizer/mod.rs:16-22 | text without `\n` is left unchanged |
| TokenizerProperties.NormalizeKeepsNewlines | src/tokenizer/mod.rs:16-22 | normalising keeps the number of `\n` |
| TokenizerProperties.LexPunctuation | src/tokenizer/mod.rs:32-38 | each of `{ } : , [ ]` emits exactly its punctuation token at the next column |
| TokenizerProperties.LexBlank | src/tokenizer/mod.rs:47-53 | a space emits nothing and moves one column; a newline emits nothing, adds a line and resets the column to 0 |
| TokenizerProperties.LexCommentThenNewline | src/tokenizer/mod.rs:42-53 | a comment emits nothing, and the newline ending it is still counted as a new line |
| TokenizerProperties.LexCommentAtEnd | src/tokenizer/mod.rs:84-96 | a comment running to the end of input ends the pass without tokens |
| TokenizerProperties.LexClosedString | src/tokenizer/mod.rs:98-119 | a closed string emits the characters strictly between its quotes |
| TokenizerProperties.LexStringBrokenByNewline | src/tokenizer/mod.rs:110-112 | a newline inside a string aborts the pass with `ExpectedCharacter('"')` at that column |
| TokenizerProperties.LexStringAtEnd | src/tokenizer/mod.rs:102-104 | an unterminated string at end of input is emitted with what was collected, without error |
| TokenizerProperties.LexNumberStart | src/tokenizer/mod.rs:55-59 | the number check comes first: `e`/`E` is alphanumeric but starts a number scan (the number characters are `- . e E` and digits, `IsJsonNumber` for `is_json_number` at src/tokenizer/mod.rs:178-184) |
| TokenizerProperties.ScanNumberAt | src/tokenizer/mod.rs:145-166 | over a maximal run of number characters, the scan ends at its end and yields the run as a token exactly when it parses |
| TokenizerProperties.LexDropsMalformedNumber | src/tokenizer/mod.rs:161-165 | a run of number characters that does not parse is dropped: no token and no error |
| TokenizerProperties.LexNumber | src/tokenizer/mod.rs:145-166 | a run that parses is emitted as one `Number` token located at its last column |
| TokenizerProperties.LexIdentifier | src/tokenizer/mod.rs:121-143 | an identifier token is the maximal alphanumeric run from a non-number start |
| TokenizerProperties.LexUnexpectedCharacter | src/tokenizer/mod.rs:55-66 | any other character aborts with `UnexpectedCharacter(c)` at its column |
| TokenizerProperties.StepMovesForward | src/tokenizer/mod.rs:24-75 | each iteration moves the counters strictly forward in reading order, and an emitted token carries the counters after it |
| TokenizerProperties.LexInReadingOrder | src/tokenizer/mod.rs:69-71 | tokens come out in strictly increasing reading order, each after the starting location |
| TokenizerProperties.StepLines | src/tokenizer/mod.rs:47-53 | one iteration changes the line only at a newline character it consumed |
| TokenizerProperties.StepKeepsLineCount | src/tokenizer/mod.rs:47-53 | an iteration that does not fail advances the line exactly once per newline it consumes |
| TokenizerProperties.LexEndLine | src/tokenizer/mod.rs:49-53 | after a pass that does not fail, the line counter is the starting line plus the number of newlines read |
| TokenizerProperties.LexLines | src/tokenizer/mod.rs:49-53 | every token's line lies between the starting line and that line plus the number of newlines ahead |
| Parser.ParserError.Where | src/main.rs:22-25 | a parser error has a location exactly when it is not `UnexpectedEOF` |
| Parser.ParseValueAt | src/parser/mod.rs:88-129 | a parsed value consumes at least one token |
| Parser.ParseArrayAt | src/parser/mod.rs:53-85 | a parsed array consumes at least one token |
| Parser.ArrayItems | src/parser/mod.rs:59-84 | the array loop, when it succeeds, consumes at least the closing bracket |
| Parser.ParseObjectAt | src/parser/mod.rs:28-51 | a parsed object consumes at least one token |
| Parser.ObjectMembers | src/parser/mod.rs:35-48 | the object loop never moves the cursor back |
| Parser.KeyValuePairAt | src/parser/mod.rs:133-154 | a parsed pair consumes at least its colon |
| Parser.Parser.constructor | src/parser/mod.rs:20-24 | the parser's cursor starts at the first token |
| Parser.Parser.ParseObject | src/parser/mod.rs:28-51 | the object routine returns what `ParseObjectAt` says, and on success leaves the cursor just after the object |
| Parser.Parser.TryParseArray | src/parser/mod.rs:53-85 | the array routine agrees with `ParseArrayAt` |
| Parser.Parser.TryParseValue | src/parser/mod.rs:88-129 | the value dispatch agrees with `ParseValueAt` |
| Parser.Parser.TryParseKeyValuePair | src/parser/mod.rs:133-154 | the pair routine agrees with `KeyValuePairAt` |
| Parser.Parser.ExpectToken | src/parser/mod.rs:158-165 | consumes one token if any; succeeds exactly when it is the expected one (as `ExpectTokenAt` says); otherwise `ExpectedToken(expected, actual, location)`, or `UnexpectedEOF` at the end |
| Parser.Parser.CheckForTrailingComma | src/parser/mod.rs:168-179 | fails with `UnexpectedToken(Comma)` at the comma exactly when the token two places back is a comma (`TrailingCommaAt`) |
| Parser.Parser.TryConsume | src/parser/mod.rs:181-186 | the next token, consumed, or `UnexpectedEOF` with the cursor unchanged |
| Parser.Parser.TryPeek | src/parser/mod.rs:188-193 | the next token, not consumed, or `UnexpectedEOF` |
| ParserProperties.ObjectNeedsOpeningBrace | src/parser/mod.rs:28-30 | an object must start with `{`: end of input gives `UnexpectedEOF`, another token gives `ExpectedToken(OpenBrace, …)` |
| ParserProperties.ArrayNeedsOpeningBracket | src/parser/mod.rs:53-55 | an array must start with `[`, with the same two errors |
| ParserProperties.ArrayTrailingComma | src/parser/mod.rs:61-66 | `]` right after a comma fails with `UnexpectedToken(Comma)` at the comma |
| ParserProperties.ObjectTrailingComma | src/parser/mod.rs:40-43 | `}` right after a comma fails with `UnexpectedToken(Comma)` at the comma |
| ParserProperties.ObjectClose | src/parser/mod.rs:40-43 | `}` not after a comma closes the object with the members so far |
| ParserProperties.ArrayClose | src/parser/mod.rs:61-66 | `]` not after a comma closes the array with the values so far |
| ParserProperties.EmptyContainers | src/parser/mod.rs:168-179 | `{}` is the empty object and `[]` the empty array |
| ParserProperties.IdentifierLiterals | src/parser/mod.rs:106-116 | an identifier is a value exactly when it is `true`, `false` or `null`, which give `Boolean(true)`, `Boolean(false)`, `Null`; any other fails with `UnexpectedToken` at it |
| ParserProperties.ValueStarts | src/parser/mod.rs:88-129 | strings and numbers map directly; `[` and `{` start an array or object; closers, colon and comma fail with `UnexpectedToken`; end of input gives `UnexpectedEOF` |
| ParserProperties.KeyThenColon | src/parser/mod.rs:138-143 | a member must start with a string key (else `UnexpectedToken`) followed by a colon (else `ExpectedToken(Colon, …)` or `UnexpectedEOF`) |
| ParserProperties.ObjectEndsAtEndOfInput | src/parser/mod.rs:36-38 | running out of tokens at the top of the object loop returns the object built so far |
| ParserProperties.ObjectEndsAfterValue | src/parser/mod.rs:148 | running out of tokens right after a member's value fails with `UnexpectedEOF` |
| ParserProperties.ObjectMember | src/parser/mod.rs:46-47 | a member is inserted over any earlier value of its key, and one comma after it is optional |
| ParserProperties.ArrayElement | src/parser/mod.rs:73-81 | after each element comes a comma (continue), `]` (close), end of input (`UnexpectedEOF`) or anything else (`UnexpectedToken`) |
| ParserProperties.ArrayEndsAtEndOfInput | src/parser/mod.rs:70 | end of input where an element or `]` is expected fails with `UnexpectedEOF` |
| ParserProperties.ArrayKeepsOrder | src/parser/mod.rs:59-84 | the values collected so far stay, in order, at the front of the array |
| ParserProperties.ErrorsPointAtTokens | src/parser/mod.rs:88-129 | every error with a location points at one of the tokens at or after the value's start |
| ParserProperties.ParseShape | src/parser/mod.rs:88-129 | tokens spelling a well-formed document parse to its meaning and consume exactly its tokens |
| ParserProperties.ParseArrayShape | src/parser/mod.rs:53-85 | tokens of an array document parse to the meanings of its items, in order |
| ParserProperties.ParseItemsShape | src/parser/mod.rs:59-84 | the array loop over comma-separated items collects their meanings in order |
| ParserProperties.ParseObjectShape | src/parser/mod.rs:28-51 | tokens of an object document parse to its members inserted in order |
| ParserProperties.ParseMemberShape | src/parser/mod.rs:133-154 | one member, with or without its comma, inserts its key and value |
| ParserProperties.ParseMembersShape | src/parser/mod.rs:35-48 | the object loop over a member list inserts each member in order |
| ParserProperties.ParseOfEmitted | src/parser/mod.rs:28-51 | `Parse`, what `Parser::new(tokens).parse_object()` returns, gives the meaning of a well-formed object document from its tokens, wherever they were located |
| ParserProperties.UnwrittenKeyKept | src/parser/mod.rs:47 | a key no member writes keeps its earlier value, or stays absent |
| ParserProperties.LastWriteWins | src/parser/mod.rs:46-47 | a duplicate key takes the value of its last member |
| RoundTrip.LexPiece | src/tokenizer/mod.rs:30-66 | the text of one token is lexed to exactly that token, ending at its last column, when a delimiter follows a number or word |
| RoundTrip.WrittenPieces | src/tokenizer/mod.rs:55-59 | texts of tokens written one after another never run together, because a number or word is always followed by a character that ends its scan |
| RoundTrip.LexPieces | src/tokenizer/mod.rs:24-75 | a sequence of token texts is lexed to exactly those tokens at their locations, then the pass continues |
| RoundTrip.TokenizeRendered | src/tokenizer/mod.rs:16-75 | the text of a printable document tokenizes to exactly its tokens, from (0, 0) |
| RoundTrip.ParseRendered | src/parser/mod.rs:28-51 | the text of a well-formed printable object tokenizes and parses back to its value |

## Left out

- `src/main.rs` is not part of this model: its file reading, printing and caret rendering are I/O. The `Where` functions give the location it prints.
- The `Display` implementations of both error types are left out. They are message formatting only.
- Float conversion is left out.
  - A `Number` token and a `JsonValue.Number` keep the lexeme text rather than an `f64`.
  - Whether a lexeme parses is the predicate `Tokenizer.ParsesAsFloat`. It is a small automaton for Rust's decimal float grammar: an optional sign, digits with at most one point (and at least one digit), and an optional exponent with an optional sign and digits.
  - The `inf`/`nan` spellings are not included, because number characters cannot spell them.
- `char::is_alphanumeric` and `char::is_numeric` are modelled on ASCII only: letters and digits. Other Unicode letters and digits are treated as not alphanumeric.
- `HashMap` is a Dafny `map`. Hashing and iteration order are not modelled.
- Machine integers are left out. `line`, `column` and `index` are unbounded naturals, so `usize` overflow is not modelled.
- Tokens and errors follow their use sites in the tokenizer and the parser, not the definitions shown in `src/tokenizer/token.rs` and `src/parser/error.rs`.
  - The use sites need `Identifier`, `OpenSquareBracket` and `CloseSquareBracket` tokens, a float `Number`, a location in `ExpectedToken` and `UnexpectedToken`, and a `location()` accessor.
  - `src/tokenizer/token.rs` has a `u32` number and none of these; `src/parser/error.rs` has no location.
- Tokenizer.Tokenizer.Process: when the pass fails, the method's result is stated, but not where the cursor and counters are left. The source drops them with the error.
- Parser.Parser.ParseObject, Parser.Parser.TryParseArray, Parser.Parser.TryParseValue, Parser.Parser.TryParseKeyValuePair: on an error, the cursor position is not stated. The source propagates the error with `?` and does not use the parser again.
- Parsing an object stops without an error when the tokens run out at the top of the member loop. So `{` alone, or `{"a":1,` with nothing after it, is an object. That is how `parse_object` is written, and the model keeps it (`ParserProperties.ObjectEndsAtEndOfInput`).
- The round-trip lemmas cover documents written on one line with no spaces or comments. Their strings hold no `"` or newline, their numbers are lexemes that parse, and a number or word is never followed directly by another.
