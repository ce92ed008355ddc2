/**
 * The whole pipeline on the text of a document: one tokenizer pass emits
 * exactly the document's tokens, each at the column of its last
 * character, and the parser reads the document's value back from them.
 */
module RoundTrip {
  import opened Wrappers
  import opened Locations
  import opened Tokens
  import opened Tokenizer
  import opened TokenizerProperties
  import opened Parser
  import opened ParserProperties
  import opened Documents

  // ----- text at a position ------------------------------------------------------

  /** The characters of `s` from `i` on begin with `t`. */
  ghost predicate Writes(s: seq<char>, i: nat, t: string)
    decreases |t|
  {
    i + |t| <= |s| && (t != [] ==> s[i] == t[0] && Writes(s, i + 1, t[1..]))
  }

  lemma {:induction false} WritesConcat(s: seq<char>, i: nat, a: string, b: string)
    requires Writes(s, i, a + b)
    ensures Writes(s, i, a) && Writes(s, i + |a|, b)
    decreases |a|
  {
    if a == [] {
      assert a + b == b;
    } else {
      assert (a + b)[0] == a[0] && (a + b)[1..] == a[1..] + b;
      WritesConcat(s, i + 1, a[1..], b);
    }
  }

  lemma {:induction false} WritesAt(s: seq<char>, i: nat, t: string, k: nat)
    requires Writes(s, i, t) && k < |t|
    ensures s[i + k] == t[k]
    decreases k
  {
    if k > 0 {
      WritesAt(s, i + 1, t[1..], k - 1);
    }
  }

  lemma {:induction false} WritesSlice(s: seq<char>, i: nat, t: string)
    requires Writes(s, i, t)
    ensures s[i..i + |t|] == t
    decreases |t|
  {
    if t != [] {
      WritesSlice(s, i + 1, t[1..]);
      assert s[i..i + |t|] == [s[i]] + s[i + 1..i + |t|];
    }
  }

  /** An opening character, a body and a closing character. */
  lemma {:induction false} WritesEnclosed(s: seq<char>, i: nat, open: char, body: string, close: char)
    requires Writes(s, i, [open] + body + [close])
    ensures s[i] == open && Writes(s, i + 1, body) && i + 1 + |body| < |s| && s[i + 1 + |body|] == close
  {
    WritesConcat(s, i, [open] + body, [close]);
    WritesConcat(s, i, [open], body);
    WritesAt(s, i, [open], 0);
    WritesAt(s, i + 1 + |body|, [close], 0);
  }

  /**
   * Where a scalar's text ends, the input ends or a character follows that
   * continues neither a number nor an identifier.
   */
  predicate Delimited(s: seq<char>, j: nat)
    requires j <= |s|
  {
    j == |s| || (!IsJsonNumber(s[j]) && !IsAlphanumeric(s[j]))
  }

  // ----- joining the results of consecutive stretches ------------------------------

  lemma {:induction false} PrependIsConcat(x: TokenAndLocation, r: Result<seq<TokenAndLocation>, TokenizerError>)
    ensures Prepend(x, r) == Concat([x], r)
  {
  }

  lemma {:induction false} ConcatEmpty(r: Result<seq<TokenAndLocation>, TokenizerError>)
    ensures Concat([], r) == r
  {
    if r.Ok? {
      assert [] + r.value == r.value;
    }
  }

  /** Two consecutive stretches of a pass emit their tokens one after the other. */
  lemma {:induction false} ConcatJoin(a: seq<TokenAndLocation>, b: seq<TokenAndLocation>, r0: Result<seq<TokenAndLocation>, TokenizerError>,
                                      r1: Result<seq<TokenAndLocation>, TokenizerError>, r2: Result<seq<TokenAndLocation>, TokenizerError>)
    requires r0 == Concat(a, r1) && r1 == Concat(b, r2)
    ensures r0 == Concat(a + b, r2)
  {
    if r2.Ok? {
      assert a + (b + r2.value) == a + b + r2.value;
    }
  }

  // ----- scalars ---------------------------------------------------------------------
  //
  // Each lemma below takes the position and column where its text ends, so
  // that the rest of the pass is written the same way by every caller.

  /** The characters of a quoted plain string: the string scan stops at the closing quote. */
  lemma {:induction false} StringText(s: seq<char>, i: nat, t: string)
    requires PlainText(t) && Writes(s, i, ['"'] + t + ['"'])
    ensures var k := i + 1 + |t|;
      k < |s| && s[i] == '"' && s[k] == '"' && s[i + 1..k] == t && RunEnd(s, i + 1, StringChars) == k
  {
    var k := i + 1 + |t|;
    WritesEnclosed(s, i, '"', t, '"');
    forall j | i + 1 <= j < k ensures InClass(StringChars, s[j]) {
      WritesAt(s, i + 1, t, j - i - 1);
    }
    RunEndAt(s, i + 1, k, StringChars);
    WritesSlice(s, i + 1, t);
  }

  /** A quoted plain string is one String token located at its closing quote. */
  lemma {:induction false} LexString(s: seq<char>, i: nat, t: string, line: nat, column: nat, end: nat, endColumn: nat)
    requires PlainText(t) && Writes(s, i, ['"'] + t + ['"'])
    requires end == i + |t| + 2 && endColumn == column + |t| + 2
    ensures Lex(s, i, line, column) == Concat([(Token.String(t), Location(line, endColumn))], Lex(s, end, line, endColumn))
  {
    StringText(s, i, t);
    assert ScanString(s, i + 1, line, column + 1) == Ok(Scanned(t, end, endColumn));
    assert StepAt(s, i, line, column) == Emitted((Token.String(t), Location(line, endColumn)), end, line, endColumn);
    PrependIsConcat((Token.String(t), Location(line, endColumn)), Lex(s, end, line, endColumn));
  }

  /** The characters of a number lexeme: the number scan stops right after them. */
  lemma {:induction false} NumberText(s: seq<char>, i: nat, l: string)
    requires NumberLexeme(l) && Writes(s, i, l) && Delimited(s, i + |l|)
    ensures i < i + |l| <= |s| && [s[i]] + s[i + 1..i + |l|] == l && RunEnd(s, i + 1, NumberChars) == i + |l|
  {
    forall j | i + 1 <= j < i + |l| ensures InClass(NumberChars, s[j]) {
      WritesAt(s, i, l, j - i);
    }
    RunEndAt(s, i + 1, i + |l|, NumberChars);
    WritesSlice(s, i, l);
    assert [s[i]] + s[i + 1..i + |l|] == s[i..i + |l|];
  }

  /** A number lexeme followed by a delimiter is one Number token carrying it. */
  lemma {:induction false} LexNumberText(s: seq<char>, i: nat, l: string, line: nat, column: nat, end: nat, endColumn: nat)
    requires NumberLexeme(l) && Writes(s, i, l) && Delimited(s, i + |l|)
    requires end == i + |l| && endColumn == column + |l|
    ensures Lex(s, i, line, column) == Concat([(Token.Number(l), Location(line, endColumn))], Lex(s, end, line, endColumn))
  {
    NumberText(s, i, l);
    assert ScanNumber(s, i + 1, s[i], column + 1) == Scanned(Some(Token.Number(l)), end, endColumn);
    assert Punctuation(s[i]).None?;
    assert StepAt(s, i, line, column) == Emitted((Token.Number(l), Location(line, endColumn)), end, line, endColumn);
    PrependIsConcat((Token.Number(l), Location(line, endColumn)), Lex(s, end, line, endColumn));
  }

  /** `true`, `false` and `null` are letters, and their first letter starts an identifier. */
  lemma {:induction false} WordChars(w: string)
    requires w == "true" || w == "false" || w == "null"
    ensures w != [] && forall j :: 0 <= j < |w| ==> IsAlphanumeric(w[j])
    ensures !IsJsonNumber(w[0]) && Punctuation(w[0]).None? && w[0] !in "\"/ \n"
  {
  }

  /** The characters of `true`, `false` or `null`: the identifier scan stops right after them. */
  lemma {:induction false} WordText(s: seq<char>, i: nat, w: string)
    requires w == "true" || w == "false" || w == "null"
    requires Writes(s, i, w) && Delimited(s, i + |w|)
    ensures i < i + |w| <= |s| && [s[i]] + s[i + 1..i + |w|] == w && RunEnd(s, i + 1, IdentifierChars) == i + |w|
    ensures IsAlphanumeric(s[i]) && !IsJsonNumber(s[i]) && Punctuation(s[i]).None? && s[i] !in "\"/ \n"
  {
    WordChars(w);
    forall j | i + 1 <= j < i + |w| ensures InClass(IdentifierChars, s[j]) {
      WritesAt(s, i, w, j - i);
    }
    RunEndAt(s, i + 1, i + |w|, IdentifierChars);
    WritesAt(s, i, w, 0);
    WritesSlice(s, i, w);
    assert [s[i]] + s[i + 1..i + |w|] == s[i..i + |w|];
  }

  /** `true`, `false` and `null` followed by a delimiter are one Identifier token each. */
  lemma {:induction false} LexWord(s: seq<char>, i: nat, w: string, line: nat, column: nat, end: nat, endColumn: nat)
    requires w == "true" || w == "false" || w == "null"
    requires Writes(s, i, w) && Delimited(s, i + |w|)
    requires end == i + |w| && endColumn == column + |w|
    ensures Lex(s, i, line, column) == Concat([(Identifier(w), Location(line, endColumn))], Lex(s, end, line, endColumn))
  {
    WordText(s, i, w);
    assert ScanIdentifier(s, i + 1, s[i], column + 1) == Scanned(w, end, endColumn);
    assert StepAt(s, i, line, column) == Emitted((Identifier(w), Location(line, endColumn)), end, line, endColumn);
    PrependIsConcat((Identifier(w), Location(line, endColumn)), Lex(s, end, line, endColumn));
  }

  /** A punctuation character between two stretches of a pass. */
  lemma {:induction false} LexPunctuationText(s: seq<char>, i: nat, c: char, t: Token, line: nat, column: nat, end: nat, endColumn: nat)
    requires i < |s| && s[i] == c
    requires (c, t) in {('{', OpenBrace), ('}', CloseBrace), (':', Colon), (',', Comma), ('[', OpenSquareBracket), (']', CloseSquareBracket)}
    requires end == i + 1 && endColumn == column + 1
    ensures Lex(s, i, line, column) == Concat([(t, Location(line, endColumn))], Lex(s, end, line, endColumn))
  {
    LexPunctuation(s, i, line, column);
    PrependIsConcat((t, Location(line, endColumn)), Lex(s, end, line, endColumn));
  }

  // ----- pieces ----------------------------------------------------------------------
  //
  // A document's text is cut into pieces, one per token, each carrying the
  // token and the characters that spell it. The pass is followed piece by
  // piece; how pieces come from documents is proved separately, without the
  // tokenizer.

  /** One token together with the characters that spell it. */
  datatype Piece = Piece(token: Token, text: string)

  /** The characters of the pieces, one after the other. */
  function Texts(ps: seq<Piece>): string
    decreases |ps|
  {
    if ps == [] then [] else ps[0].text + Texts(ps[1..])
  }

  /** The tokens of the pieces, each located at its last character, when the text starts after `column`. */
  function Locate(ps: seq<Piece>, line: nat, column: nat): seq<TokenAndLocation>
    decreases |ps|
  {
    if ps == [] then []
    else
      var next := column + |ps[0].text|;
      [(ps[0].token, Location(line, next))] + Locate(ps[1..], line, next)
  }

  /** The text of a piece is what the tokenizer reads as its token. */
  predicate Lexable(p: Piece)
  {
    match p.token
    case String(t) => PlainText(t) && p.text == ['"'] + t + ['"']
    case Number(l) => NumberLexeme(l) && p.text == l
    case Identifier(w) => (w == "true" || w == "false" || w == "null") && p.text == w
    case OpenBrace => p.text == "{"
    case CloseBrace => p.text == "}"
    case OpenSquareBracket => p.text == "["
    case CloseSquareBracket => p.text == "]"
    case Colon => p.text == ":"
    case Comma => p.text == ","
  }

  /** Numbers and identifiers run on as long as their characters continue. */
  predicate NeedsDelimiter(p: Piece)
  {
    p.token.Number? || p.token.Identifier?
  }

  /** A piece whose first character ends a number or an identifier before it. */
  predicate OpensDelimited(p: Piece)
  {
    p.text != [] && !IsJsonNumber(p.text[0]) && !IsAlphanumeric(p.text[0])
  }

  /** Every piece is lexable, and a number or identifier is followed by a delimiting piece. */
  predicate WellLexed(ps: seq<Piece>)
    decreases |ps|
  {
    ps != [] ==>
      Lexable(ps[0]) && (|ps| > 1 && NeedsDelimiter(ps[0]) ==> OpensDelimited(ps[1])) && WellLexed(ps[1..])
  }

  lemma {:induction false} TextsConcat(a: seq<Piece>, b: seq<Piece>)
    ensures Texts(a + b) == Texts(a) + Texts(b)
    decreases |a|
  {
    if a == [] {
      assert a + b == b;
    } else {
      assert (a + b)[0] == a[0] && (a + b)[1..] == a[1..] + b;
      TextsConcat(a[1..], b);
    }
  }

  lemma {:induction false} LocateConcat(a: seq<Piece>, b: seq<Piece>, line: nat, column: nat)
    ensures Locate(a + b, line, column) == Locate(a, line, column) + Locate(b, line, column + |Texts(a)|)
    decreases |a|
  {
    if a == [] {
      assert a + b == b;
    } else {
      assert (a + b)[0] == a[0] && (a + b)[1..] == a[1..] + b;
      LocateConcat(a[1..], b, line, column + |a[0].text|);
    }
  }

  lemma {:induction false} WellLexedConcat(a: seq<Piece>, b: seq<Piece>)
    requires WellLexed(a) && WellLexed(b)
    requires a != [] && b != [] && NeedsDelimiter(a[|a| - 1]) ==> OpensDelimited(b[0])
    ensures WellLexed(a + b)
    decreases |a|
  {
    if a == [] {
      assert a + b == b;
    } else {
      assert (a + b)[0] == a[0] && (a + b)[1..] == a[1..] + b;
      if |a| == 1 {
        assert a[1..] + b == b;
      } else {
        assert a[1..][|a[1..]| - 1] == a[|a| - 1];
      }
      WellLexedConcat(a[1..], b);
    }
  }

  /** A piece alone. */
  lemma {:induction false} OnePiece(p: Piece, line: nat, column: nat)
    ensures Texts([p]) == p.text
    ensures Locate([p], line, column) == [(p.token, Location(line, column + |p.text|))]
    ensures Lexable(p) ==> WellLexed([p])
  {
    assert [p][1..] == [];
    assert p.text + [] == p.text;
  }

  /** An opening piece, a body and a closing piece. */
  lemma {:induction false} EnclosedPieces(open: Piece, body: seq<Piece>, close: Piece, line: nat, column: nat)
    ensures Texts([open] + body + [close]) == open.text + Texts(body) + close.text
    ensures var inner := column + |open.text|;
      Locate([open] + body + [close], line, column) ==
        [(open.token, Location(line, inner))] + Locate(body, line, inner) +
        [(close.token, Location(line, inner + |Texts(body)| + |close.text|))]
  {
    OnePiece(open, line, column);
    OnePiece(close, line, column + |open.text| + |Texts(body)|);
    TextsConcat([open], body);
    TextsConcat([open] + body, [close]);
    LocateConcat([open], body, line, column);
    LocateConcat([open] + body, [close], line, column);
  }

  // ----- the pass over pieces ----------------------------------------------------------

  /** One lexable piece, followed by a delimiter when it needs one, is its token. */
  lemma {:induction false} LexPiece(p: Piece, s: seq<char>, i: nat, line: nat, column: nat, end: nat, endColumn: nat)
    requires Lexable(p) && Writes(s, i, p.text)
    requires end == i + |p.text| && endColumn == column + |p.text|
    requires NeedsDelimiter(p) ==> Delimited(s, end)
    ensures Lex(s, i, line, column) == Concat([(p.token, Location(line, endColumn))], Lex(s, end, line, endColumn))
  {
    match p.token
    case String(t) => LexString(s, i, t, line, column, end, endColumn);
    case Number(l) => LexNumberText(s, i, l, line, column, end, endColumn);
    case Identifier(w) => LexWord(s, i, w, line, column, end, endColumn);
    case OpenBrace =>
      WritesAt(s, i, p.text, 0);
      LexPunctuationText(s, i, '{', OpenBrace, line, column, end, endColumn);
    case CloseBrace =>
      WritesAt(s, i, p.text, 0);
      LexPunctuationText(s, i, '}', CloseBrace, line, column, end, endColumn);
    case OpenSquareBracket =>
      WritesAt(s, i, p.text, 0);
      LexPunctuationText(s, i, '[', OpenSquareBracket, line, column, end, endColumn);
    case CloseSquareBracket =>
      WritesAt(s, i, p.text, 0);
      LexPunctuationText(s, i, ']', CloseSquareBracket, line, column, end, endColumn);
    case Colon =>
      WritesAt(s, i, p.text, 0);
      LexPunctuationText(s, i, ':', Colon, line, column, end, endColumn);
    case Comma =>
      WritesAt(s, i, p.text, 0);
      LexPunctuationText(s, i, ',', Comma, line, column, end, endColumn);
  }

  /**
   * Each piece's text is written where the previous one ends, and a number
   * or identifier is followed by a delimiter.
   */
  ghost predicate PiecesAt(s: seq<char>, i: nat, ps: seq<Piece>)
    decreases |ps|
  {
    ps != [] ==>
      var a := i + |ps[0].text|;
      Lexable(ps[0]) && Writes(s, i, ps[0].text) && (NeedsDelimiter(ps[0]) ==> Delimited(s, a)) &&
      PiecesAt(s, a, ps[1..])
  }

  /** Well-lexed pieces written out, followed by a delimiter, are written piece by piece. */
  lemma {:induction false} WrittenPieces(ps: seq<Piece>, s: seq<char>, i: nat)
    requires WellLexed(ps) && Writes(s, i, Texts(ps)) && Delimited(s, i + |Texts(ps)|)
    ensures PiecesAt(s, i, ps)
    decreases |ps|
  {
    if ps != [] {
      var a := i + |ps[0].text|;
      WritesConcat(s, i, ps[0].text, Texts(ps[1..]));
      if |ps| > 1 && NeedsDelimiter(ps[0]) {
        assert Texts(ps[1..]) == ps[1].text + Texts(ps[2..]);
        WritesAt(s, a, Texts(ps[1..]), 0);
      }
      WrittenPieces(ps[1..], s, a);
    }
  }

  /**
   * Pieces written one after another make the pass emit their tokens and go
   * on right after their text, on the same line.
   */
  lemma {:induction false} LexPieces(ps: seq<Piece>, s: seq<char>, i: nat, line: nat, column: nat, end: nat, endColumn: nat)
    requires PiecesAt(s, i, ps) && end == i + |Texts(ps)| && endColumn == column + |Texts(ps)| && end <= |s|
    ensures Lex(s, i, line, column) == Concat(Locate(ps, line, column), Lex(s, end, line, endColumn))
    decreases |ps|
  {
    if ps == [] {
      assert end == i && endColumn == column && Locate(ps, line, column) == [];
      ConcatEmpty(Lex(s, i, line, column));
    } else {
      var a, ca := i + |ps[0].text|, column + |ps[0].text|;
      assert Locate(ps, line, column) == [(ps[0].token, Location(line, ca))] + Locate(ps[1..], line, ca);
      assert |Texts(ps)| == |ps[0].text| + |Texts(ps[1..])|;
      LexPiece(ps[0], s, i, line, column, a, ca);
      LexPieces(ps[1..], s, a, line, ca, end, endColumn);
      ConcatJoin([(ps[0].token, Location(line, ca))], Locate(ps[1..], line, ca),
                 Lex(s, i, line, column), Lex(s, a, line, ca), Lex(s, end, line, endColumn));
    }
  }

  /** No lexable piece holds a newline. */
  lemma {:induction false} PiecesOnOneLine(ps: seq<Piece>)
    requires WellLexed(ps)
    ensures '\n' !in Texts(ps)
    decreases |ps|
  {
    if ps != [] {
      var p := ps[0];
      assert '\n' !in p.text;
      PiecesOnOneLine(ps[1..]);
    }
  }

  // ----- the pieces of a document ------------------------------------------------------

  function Pieces(d: Doc): seq<Piece>
    decreases d, 1
  {
    match d
    case DString(t) => [Piece(Token.String(t), ['"'] + t + ['"'])]
    case DNumber(l) => [Piece(Token.Number(l), l)]
    case DBool(b) => [Piece(Identifier(BoolText(b)), BoolText(b))]
    case DNull => [Piece(Identifier("null"), "null")]
    case DArray(items) => [Piece(OpenSquareBracket, "[")] + ItemsPieces(items) + [Piece(CloseSquareBracket, "]")]
    case DObject(ms) => [Piece(OpenBrace, "{")] + MembersPieces(ms) + [Piece(CloseBrace, "}")]
  }

  function ItemsPieces(items: seq<Doc>): seq<Piece>
    decreases items, 0
  {
    if items == [] then []
    else Pieces(items[0]) + (if |items| > 1 then [Piece(Comma, ",")] else []) + ItemsPieces(items[1..])
  }

  function MembersPieces(ms: seq<Member>): seq<Piece>
    decreases ms, 0
  {
    if ms == [] then [] else MemberPieces(ms[0]) + MembersPieces(ms[1..])
  }

  function MemberPieces(m: Member): seq<Piece>
    decreases m, 0
  {
    [Piece(Token.String(m.key), ['"'] + m.key + ['"']), Piece(Colon, ":")] + Pieces(m.value) +
    (if m.comma then [Piece(Comma, ",")] else [])
  }

  /** The pieces of a document spell its text. */
  lemma {:induction false} PiecesSpell(d: Doc)
    ensures Texts(Pieces(d)) == Render(d)
    decreases d, 1
  {
    match d
    case DArray(items) =>
      EnclosedPieces(Piece(OpenSquareBracket, "["), ItemsPieces(items), Piece(CloseSquareBracket, "]"), 0, 0);
      ItemsPiecesSpell(items);
    case DObject(ms) =>
      EnclosedPieces(Piece(OpenBrace, "{"), MembersPieces(ms), Piece(CloseBrace, "}"), 0, 0);
      MembersPiecesSpell(ms);
    case _ =>
      OnePiece(Pieces(d)[0], 0, 0);
  }

  lemma {:induction false} ItemsPiecesSpell(items: seq<Doc>)
    ensures Texts(ItemsPieces(items)) == RenderItems(items)
    decreases items, 0
  {
    if items != [] {
      var sep := if |items| > 1 then [Piece(Comma, ",")] else [];
      PiecesSpell(items[0]);
      ItemsPiecesSpell(items[1..]);
      TextsConcat(Pieces(items[0]) + sep, ItemsPieces(items[1..]));
      TextsConcat(Pieces(items[0]), sep);
      if |items| > 1 {
        OnePiece(Piece(Comma, ","), 0, 0);
      }
    }
  }

  lemma {:induction false} MembersPiecesSpell(ms: seq<Member>)
    ensures Texts(MembersPieces(ms)) == RenderMembers(ms)
    decreases ms, 0
  {
    if ms != [] {
      MemberPiecesSpell(ms[0]);
      MembersPiecesSpell(ms[1..]);
      TextsConcat(MemberPieces(ms[0]), MembersPieces(ms[1..]));
    }
  }

  lemma {:induction false} MemberPiecesSpell(m: Member)
    ensures Texts(MemberPieces(m)) == MemberText(m)
    decreases m, 0
  {
    var head := [Piece(Token.String(m.key), ['"'] + m.key + ['"']), Piece(Colon, ":")];
    var sep := if m.comma then [Piece(Comma, ",")] else [];
    KeyPieces(m.key, 0, 0);
    PiecesSpell(m.value);
    TextsConcat(head + Pieces(m.value), sep);
    TextsConcat(head, Pieces(m.value));
    if m.comma {
      OnePiece(Piece(Comma, ","), 0, 0);
    }
  }

  /** The pieces of a document, located, are the tokens it emits. */
  lemma {:induction false} PiecesLocate(d: Doc, line: nat, column: nat)
    ensures Locate(Pieces(d), line, column) == Emit(d, line, column)
    decreases d, 1
  {
    match d
    case DArray(items) => ArrayPiecesLocate(items, line, column);
    case DObject(ms) => ObjectPiecesLocate(ms, line, column);
    case _ => ScalarPiecesLocate(d, line, column);
  }

  lemma {:induction false} ScalarPiecesLocate(d: Doc, line: nat, column: nat)
    requires !d.DArray? && !d.DObject?
    ensures Locate(Pieces(d), line, column) == Emit(d, line, column)
  {
    var p := Pieces(d)[0];
    assert Pieces(d) == [p];
    PiecesSpell(d);
    OnePiece(p, line, column);
    assert Emit(d, line, column) == [(p.token, Location(line, column + |p.text|))];
  }

  lemma {:induction false} ArrayPiecesLocate(items: seq<Doc>, line: nat, column: nat)
    ensures Locate(Pieces(DArray(items)), line, column) == Emit(DArray(items), line, column)
    decreases items, 1
  {
    EnclosedPieces(Piece(OpenSquareBracket, "["), ItemsPieces(items), Piece(CloseSquareBracket, "]"), line, column);
    ItemsPiecesSpell(items);
    ItemsPiecesLocate(items, line, column + 1);
    assert |Render(DArray(items))| == |RenderItems(items)| + 2;
  }

  lemma {:induction false} ObjectPiecesLocate(ms: seq<Member>, line: nat, column: nat)
    ensures Locate(Pieces(DObject(ms)), line, column) == Emit(DObject(ms), line, column)
    decreases ms, 1
  {
    EnclosedPieces(Piece(OpenBrace, "{"), MembersPieces(ms), Piece(CloseBrace, "}"), line, column);
    MembersPiecesSpell(ms);
    MembersPiecesLocate(ms, line, column + 1);
    assert |Render(DObject(ms))| == |RenderMembers(ms)| + 2;
  }

  lemma {:induction false} ItemsPiecesLocate(items: seq<Doc>, line: nat, column: nat)
    ensures Locate(ItemsPieces(items), line, column) == EmitItems(items, line, column)
    decreases items, 0
  {
    if items != [] {
      var first := Pieces(items[0]);
      var sep := if |items| > 1 then [Piece(Comma, ",")] else [];
      var after := column + |Render(items[0])|;
      assert ItemsPieces(items) == first + sep + ItemsPieces(items[1..]);
      PiecesSpell(items[0]);
      PiecesLocate(items[0], line, column);
      TextsConcat(first, sep);
      LocateConcat(first + sep, ItemsPieces(items[1..]), line, column);
      LocateConcat(first, sep, line, column);
      if |items| > 1 {
        OnePiece(Piece(Comma, ","), line, after);
        ItemsPiecesLocate(items[1..], line, after + 1);
        assert EmitItems(items, line, column) ==
          Emit(items[0], line, column) + [(Comma, Location(line, after + 1))] + EmitItems(items[1..], line, after + 1);
      } else {
        assert Locate(sep, line, after) == [] && Texts(sep) == [];
        ItemsPiecesLocate(items[1..], line, after);
        assert EmitItems(items, line, column) == Emit(items[0], line, column) + [] + EmitItems(items[1..], line, after);
      }
    }
  }

  lemma {:induction false} MembersPiecesLocate(ms: seq<Member>, line: nat, column: nat)
    ensures Locate(MembersPieces(ms), line, column) == EmitMembers(ms, line, column)
    decreases ms, 0
  {
    if ms != [] {
      MemberPiecesSpell(ms[0]);
      MemberPiecesLocate(ms[0], line, column);
      LocateConcat(MemberPieces(ms[0]), MembersPieces(ms[1..]), line, column);
      MembersPiecesLocate(ms[1..], line, column + |MemberText(ms[0])|);
    }
  }

  /** The quoted key and the colon of a member. */
  lemma {:induction false} KeyPieces(key: string, line: nat, column: nat)
    ensures var head := [Piece(Token.String(key), ['"'] + key + ['"']), Piece(Colon, ":")];
      Texts(head) == ['"'] + key + ['"', ':'] &&
      Locate(head, line, column) ==
        [(Token.String(key), Location(line, column + |key| + 2)), (Colon, Location(line, column + |key| + 3))]
  {
    var k, colon := Piece(Token.String(key), ['"'] + key + ['"']), Piece(Colon, ":");
    assert [k, colon] == [k] + [colon];
    OnePiece(k, line, column);
    OnePiece(colon, line, column + |key| + 2);
    TextsConcat([k], [colon]);
    LocateConcat([k], [colon], line, column);
  }

  lemma {:induction false} MemberPiecesLocate(m: Member, line: nat, column: nat)
    ensures Locate(MemberPieces(m), line, column) == EmitMember(m, line, column)
    decreases m, 0
  {
    var keyEnd := column + |m.key| + 2;
    var head := [Piece(Token.String(m.key), ['"'] + m.key + ['"']), Piece(Colon, ":")];
    var sep := if m.comma then [Piece(Comma, ",")] else [];
    KeyPieces(m.key, line, column);
    PiecesSpell(m.value);
    PiecesLocate(m.value, line, keyEnd + 1);
    TextsConcat(head, Pieces(m.value));
    LocateConcat(head + Pieces(m.value), sep, line, column);
    LocateConcat(head, Pieces(m.value), line, column);
    if m.comma {
      OnePiece(Piece(Comma, ","), line, keyEnd + 1 + |Render(m.value)|);
    } else {
      assert Locate(sep, line, keyEnd + 1 + |Render(m.value)|) == [];
    }
  }

  /** The pieces of a printable document are well lexed. */
  lemma {:induction false} PiecesWellLexed(d: Doc)
    requires Printable(d)
    ensures WellLexed(Pieces(d))
    decreases d, 1
  {
    match d
    case DArray(items) =>
      var open, close := Piece(OpenSquareBracket, "["), Piece(CloseSquareBracket, "]");
      ItemsPiecesWellLexed(items);
      OnePiece(open, 0, 0);
      OnePiece(close, 0, 0);
      WellLexedConcat([open], ItemsPieces(items));
      WellLexedConcat([open] + ItemsPieces(items), [close]);
    case DObject(ms) =>
      var open, close := Piece(OpenBrace, "{"), Piece(CloseBrace, "}");
      MembersPiecesWellLexed(ms);
      OnePiece(open, 0, 0);
      OnePiece(close, 0, 0);
      WellLexedConcat([open], MembersPieces(ms));
      WellLexedConcat([open] + MembersPieces(ms), [close]);
    case DBool(b) =>
      OnePiece(Pieces(d)[0], 0, 0);
    case _ =>
      OnePiece(Pieces(d)[0], 0, 0);
  }

  lemma {:induction false} ItemsPiecesWellLexed(items: seq<Doc>)
    requires PrintableItems(items)
    ensures WellLexed(ItemsPieces(items))
    decreases items, 0
  {
    if items != [] {
      var comma := Piece(Comma, ",");
      var sep := if |items| > 1 then [comma] else [];
      PiecesWellLexed(items[0]);
      ItemsPiecesWellLexed(items[1..]);
      OnePiece(comma, 0, 0);
      WellLexedConcat(Pieces(items[0]), sep);
      if |items| > 1 {
        assert (Pieces(items[0]) + sep)[|Pieces(items[0]) + sep| - 1] == comma;
      } else {
        assert Pieces(items[0]) + sep == Pieces(items[0]);
      }
      WellLexedConcat(Pieces(items[0]) + sep, ItemsPieces(items[1..]));
    }
  }

  lemma {:induction false} MembersPiecesWellLexed(ms: seq<Member>)
    requires PrintableMembers(ms)
    ensures WellLexed(MembersPieces(ms))
    decreases ms, 0
  {
    if ms != [] {
      MemberPiecesWellLexed(ms[0]);
      MembersPiecesWellLexed(ms[1..]);
      if ms[1..] != [] {
        var k := ms[1..][0].key;
        assert MembersPieces(ms[1..]) == MemberPieces(ms[1..][0]) + MembersPieces(ms[1..][1..]);
        assert MembersPieces(ms[1..])[0] == MemberPieces(ms[1..][0])[0] == Piece(Token.String(k), ['"'] + k + ['"']);
      }
      WellLexedConcat(MemberPieces(ms[0]), MembersPieces(ms[1..]));
    }
  }

  lemma {:induction false} MemberPiecesWellLexed(m: Member)
    requires PlainText(m.key) && Printable(m.value)
    ensures WellLexed(MemberPieces(m))
    decreases m, 0
  {
    var key, colon, comma := Piece(Token.String(m.key), ['"'] + m.key + ['"']), Piece(Colon, ":"), Piece(Comma, ",");
    var sep := if m.comma then [comma] else [];
    PiecesWellLexed(m.value);
    OnePiece(colon, 0, 0);
    OnePiece(comma, 0, 0);
    assert [key, colon] == [key] + [colon];
    WellLexedConcat([key], [colon]);
    WellLexedConcat([key, colon], Pieces(m.value));
    WellLexedConcat([key, colon] + Pieces(m.value), sep);
  }

  // ----- the whole pipeline --------------------------------------------------------------

  lemma {:induction false} WritesWhole(s: seq<char>, i: nat)
    requires i <= |s|
    ensures Writes(s, i, s[i..])
    decreases |s| - i
  {
    if i < |s| {
      assert s[i..][1..] == s[i + 1..];
      WritesWhole(s, i + 1);
    }
  }

  /** The text of a printable document tokenizes to exactly its tokens, starting at line 0, column 0. */
  lemma {:induction false} TokenizeRendered(d: Doc)
    requires Printable(d)
    ensures Tokenize(Render(d)) == Ok(Emit(d, 0, 0))
  {
    var s := Render(d);
    var ps := Pieces(d);
    PiecesSpell(d);
    PiecesLocate(d, 0, 0);
    PiecesWellLexed(d);
    PiecesOnOneLine(ps);
    NormalizeWithoutNewline(s);
    WritesWhole(s, 0);
    assert s[0..] == s;
    WrittenPieces(ps, s, 0);
    LexPieces(ps, s, 0, 0, 0, |s|, |s|);
    assert Emit(d, 0, 0) + [] == Emit(d, 0, 0);
  }

  /**
   * An object written out by its members tokenizes and parses back to its
   * value: a later duplicate key wins, as it does when the members are
   * inserted one by one.
   */
  lemma {:induction false} ParseRendered(d: Doc)
    requires d.DObject? && WellFormed(d) && Printable(d)
    ensures Tokenize(Render(d)).Ok?
    ensures Parse(Tokenize(Render(d)).value) == Ok(Meaning(d))
  {
    TokenizeRendered(d);
    ParseOfEmitted(d, 0, 0);
  }
}
