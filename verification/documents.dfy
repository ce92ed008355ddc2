/**
 * A reference description of JSON-like text as it is written: values with
 * object members in source order, each member optionally followed by a
 * comma. It gives the text (`Render`), the tokens a tokenizer pass emits
 * for it (`Emit`) and the value the parser should build (`Meaning`), so
 * that the round-trip lemmas can relate the three.
 */
module Documents {
  import opened Locations
  import opened Tokens
  import opened Values
  import Tokenizer

  datatype Doc =
    | DString(text: string)
    | DNumber(lexeme: string)
    | DBool(b: bool)
    | DNull
    | DArray(items: seq<Doc>)
    | DObject(members: seq<Member>)

  /** A key-value pair, written `"key":value`, with a comma after it when `comma`. */
  datatype Member = Member(key: string, value: Doc, comma: bool)

  // ----- meaning ---------------------------------------------------------------

  /** The value the text stands for: object members are inserted in order, so a later key wins. */
  function Meaning(d: Doc): JsonValue
    decreases d, 1
  {
    match d
    case DString(t) => JsonValue.String(t)
    case DNumber(l) => JsonValue.Number(l)
    case DBool(b) => Boolean(b)
    case DNull => Null
    case DArray(items) => Array(Meanings(items))
    case DObject(ms) => Object(MembersMeaning(ms, map[]))
  }

  function Meanings(items: seq<Doc>): (r: seq<JsonValue>)
    ensures |r| == |items|
    decreases items, 0
  {
    if items == [] then [] else [Meaning(items[0])] + Meanings(items[1..])
  }

  /** `acc` with the members of `ms` inserted one after another. */
  function MembersMeaning(ms: seq<Member>, acc: map<string, JsonValue>): map<string, JsonValue>
    decreases ms, 0
  {
    if ms == [] then acc else MembersMeaning(ms[1..], acc[ms[0].key := Meaning(ms[0].value)])
  }

  // ----- well-formedness ---------------------------------------------------------

  /** No object ends with a comma after its last member. */
  predicate WellFormed(d: Doc)
    decreases d, 1
  {
    match d
    case DArray(items) => WellFormedItems(items)
    case DObject(ms) => WellFormedMembers(ms)
    case _ => true
  }

  predicate WellFormedItems(items: seq<Doc>)
    decreases items, 0
  {
    items != [] ==> WellFormed(items[0]) && WellFormedItems(items[1..])
  }

  predicate WellFormedMembers(ms: seq<Member>)
    decreases ms, 0
  {
    ms != [] ==>
      WellFormed(ms[0].value) && (|ms| == 1 ==> !ms[0].comma) && WellFormedMembers(ms[1..])
  }

  /** Text the tokenizer reads back: a string or key without a quote or a newline. */
  predicate PlainText(t: string)
  {
    '"' !in t && '\n' !in t
  }

  /** A number lexeme made of number characters that parses as a float. */
  predicate NumberLexeme(l: string)
  {
    |l| > 0 && (forall j :: 0 <= j < |l| ==> Tokenizer.IsJsonNumber(l[j])) && Tokenizer.ParsesAsFloat(l)
  }

  /** Every string, key and number of the document can be written and read back. */
  predicate Printable(d: Doc)
    decreases d, 1
  {
    match d
    case DString(t) => PlainText(t)
    case DNumber(l) => NumberLexeme(l)
    case DArray(items) => PrintableItems(items)
    case DObject(ms) => PrintableMembers(ms)
    case _ => true
  }

  predicate PrintableItems(items: seq<Doc>)
    decreases items, 0
  {
    items != [] ==> Printable(items[0]) && PrintableItems(items[1..])
  }

  predicate PrintableMembers(ms: seq<Member>)
    decreases ms, 0
  {
    ms != [] ==> PlainText(ms[0].key) && Printable(ms[0].value) && PrintableMembers(ms[1..])
  }

  // ----- text ------------------------------------------------------------------

  /** The literal spelling of a boolean. */
  function BoolText(b: bool): string
  {
    if b then "true" else "false"
  }

  /** The text of a document, with no blanks. */
  function Render(d: Doc): string
    decreases d, 1
  {
    match d
    case DString(t) => ['"'] + t + ['"']
    case DNumber(l) => l
    case DBool(b) => BoolText(b)
    case DNull => "null"
    case DArray(items) => ['['] + RenderItems(items) + [']']
    case DObject(ms) => ['{'] + RenderMembers(ms) + ['}']
  }

  function RenderItems(items: seq<Doc>): string
    decreases items, 0
  {
    if items == [] then []
    else Render(items[0]) + (if |items| > 1 then [','] else []) + RenderItems(items[1..])
  }

  function RenderMembers(ms: seq<Member>): string
    decreases ms, 0
  {
    if ms == [] then [] else MemberText(ms[0]) + RenderMembers(ms[1..])
  }

  /** `"key":value`, then a comma when the member has one. */
  function MemberText(m: Member): string
    decreases m, 0
  {
    ['"'] + m.key + ['"', ':'] + Render(m.value) + (if m.comma then [','] else [])
  }

  // ----- tokens ------------------------------------------------------------------

  /**
   * The tokens a pass emits for the text of `d` when the text starts just
   * after (`line`, `column`): each token is located at the column of its
   * last character.
   */
  function Emit(d: Doc, line: nat, column: nat): seq<TokenAndLocation>
    decreases d, 1
  {
    var end := Location(line, column + |Render(d)|);
    match d
    case DString(t) => [(Token.String(t), end)]
    case DNumber(l) => [(Token.Number(l), end)]
    case DBool(b) => [(Identifier(BoolText(b)), end)]
    case DNull => [(Identifier("null"), end)]
    case DArray(items) =>
      [(OpenSquareBracket, Location(line, column + 1))] + EmitItems(items, line, column + 1) + [(CloseSquareBracket, end)]
    case DObject(ms) =>
      [(OpenBrace, Location(line, column + 1))] + EmitMembers(ms, line, column + 1) + [(CloseBrace, end)]
  }

  function EmitItems(items: seq<Doc>, line: nat, column: nat): seq<TokenAndLocation>
    decreases items, 0
  {
    if items == [] then []
    else
      var after := column + |Render(items[0])|;
      Emit(items[0], line, column) +
      (if |items| > 1 then [(Comma, Location(line, after + 1))] else []) +
      EmitItems(items[1..], line, if |items| > 1 then after + 1 else after)
  }

  function EmitMembers(ms: seq<Member>, line: nat, column: nat): seq<TokenAndLocation>
    decreases ms, 0
  {
    if ms == [] then []
    else EmitMember(ms[0], line, column) + EmitMembers(ms[1..], line, column + |MemberText(ms[0])|)
  }

  /** The key, the colon, the value and the optional comma of one member. */
  function EmitMember(m: Member, line: nat, column: nat): seq<TokenAndLocation>
    decreases m, 0
  {
    var keyEnd := column + |m.key| + 2;
    [(Token.String(m.key), Location(line, keyEnd)), (Colon, Location(line, keyEnd + 1))] +
    Emit(m.value, line, keyEnd + 1) +
    (if m.comma then [(Comma, Location(line, keyEnd + 1 + |Render(m.value)| + 1))] else [])
  }

  // ----- token kinds ---------------------------------------------------------------

  /** The kinds of the tokens of `d`, without their locations. */
  function Shape(d: Doc): seq<Token>
    decreases d, 1
  {
    match d
    case DString(t) => [Token.String(t)]
    case DNumber(l) => [Token.Number(l)]
    case DBool(b) => [Identifier(BoolText(b))]
    case DNull => [Identifier("null")]
    case DArray(items) => [OpenSquareBracket] + ShapeItems(items) + [CloseSquareBracket]
    case DObject(ms) => [OpenBrace] + ShapeMembers(ms) + [CloseBrace]
  }

  function ShapeItems(items: seq<Doc>): seq<Token>
    decreases items, 0
  {
    if items == [] then []
    else Shape(items[0]) + (if |items| > 1 then [Comma] else []) + ShapeItems(items[1..])
  }

  function ShapeMembers(ms: seq<Member>): seq<Token>
    decreases ms, 0
  {
    if ms == [] then [] else ShapeMember(ms[0]) + ShapeMembers(ms[1..])
  }

  function ShapeMember(m: Member): seq<Token>
    decreases m, 0
  {
    [Token.String(m.key), Colon] + Shape(m.value) + (if m.comma then [Comma] else [])
  }

  /** The tokens of a located token sequence, without their locations. */
  function Kinds(e: seq<TokenAndLocation>): (r: seq<Token>)
    ensures |r| == |e| && forall k :: 0 <= k < |e| ==> r[k] == e[k].0
  {
    seq(|e|, k requires 0 <= k < |e| => e[k].0)
  }

  lemma {:induction false} KindsConcat(a: seq<TokenAndLocation>, b: seq<TokenAndLocation>)
    ensures Kinds(a + b) == Kinds(a) + Kinds(b)
  {
  }

  /** The emitted tokens of a document have the document's shape. */
  lemma {:induction false} EmitHasShape(d: Doc, line: nat, column: nat)
    ensures Kinds(Emit(d, line, column)) == Shape(d)
    decreases d, 2
  {
    match d
    case DArray(items) => EmitArrayHasShape(items, line, column);
    case DObject(ms) => EmitObjectHasShape(ms, line, column);
    case _ =>
  }

  /** Kinds of a sequence that is a token, a middle and a token. */
  lemma {:induction false} KindsEnclosed(x: TokenAndLocation, body: seq<TokenAndLocation>, y: TokenAndLocation)
    ensures Kinds([x] + body + [y]) == [x.0] + Kinds(body) + [y.0]
  {
    KindsConcat([x] + body, [y]);
    KindsConcat([x], body);
  }

  lemma {:induction false} EmitArrayHasShape(items: seq<Doc>, line: nat, column: nat)
    ensures Kinds(Emit(DArray(items), line, column)) == Shape(DArray(items))
    decreases items, 1
  {
    var e := Emit(DArray(items), line, column);
    var body := EmitItems(items, line, column + 1);
    assert e == [e[0]] + body + [e[|e| - 1]];
    EmitItemsHaveShape(items, line, column + 1);
    KindsEnclosed(e[0], body, e[|e| - 1]);
  }

  lemma {:induction false} EmitObjectHasShape(ms: seq<Member>, line: nat, column: nat)
    ensures Kinds(Emit(DObject(ms), line, column)) == Shape(DObject(ms))
    decreases ms, 1
  {
    var e := Emit(DObject(ms), line, column);
    var body := EmitMembers(ms, line, column + 1);
    assert e == [e[0]] + body + [e[|e| - 1]];
    EmitMembersHaveShape(ms, line, column + 1);
    KindsEnclosed(e[0], body, e[|e| - 1]);
  }

  lemma {:induction false} EmitItemsHaveShape(items: seq<Doc>, line: nat, column: nat)
    ensures Kinds(EmitItems(items, line, column)) == ShapeItems(items)
    decreases items, 0
  {
    if items != [] {
      var after := column + |Render(items[0])|;
      var first := Emit(items[0], line, column);
      var sep: seq<TokenAndLocation> := if |items| > 1 then [(Comma, Location(line, after + 1))] else [];
      var rest := EmitItems(items[1..], line, if |items| > 1 then after + 1 else after);
      EmitHasShape(items[0], line, column);
      EmitItemsHaveShape(items[1..], line, if |items| > 1 then after + 1 else after);
      KindsConcat(first + sep, rest);
      KindsConcat(first, sep);
    }
  }

  lemma {:induction false} EmitMembersHaveShape(ms: seq<Member>, line: nat, column: nat)
    ensures Kinds(EmitMembers(ms, line, column)) == ShapeMembers(ms)
    decreases ms, 0
  {
    if ms != [] {
      EmitMemberHasShape(ms[0], line, column);
      EmitMembersHaveShape(ms[1..], line, column + |MemberText(ms[0])|);
      KindsConcat(EmitMember(ms[0], line, column), EmitMembers(ms[1..], line, column + |MemberText(ms[0])|));
    }
  }

  lemma {:induction false} EmitMemberHasShape(m: Member, line: nat, column: nat)
    ensures Kinds(EmitMember(m, line, column)) == ShapeMember(m)
    decreases m, 0
  {
    var keyEnd := column + |m.key| + 2;
    EmitHasShape(m.value, line, keyEnd + 1);
    KindsOfMember(m.key, Location(line, keyEnd), Location(line, keyEnd + 1), Emit(m.value, line, keyEnd + 1),
                  m.comma, Location(line, keyEnd + 1 + |Render(m.value)| + 1));
  }

  lemma {:induction false} KindsOfMember(key: string, keyAt: Location, colonAt: Location, value: seq<TokenAndLocation>, comma: bool, commaAt: Location)
    ensures Kinds([(Token.String(key), keyAt), (Colon, colonAt)] + value + (if comma then [(Comma, commaAt)] else [])) ==
      [Token.String(key), Colon] + Kinds(value) + (if comma then [Comma] else [])
  {
    var head := [(Token.String(key), keyAt), (Colon, colonAt)];
    var sep := if comma then [(Comma, commaAt)] else [];
    KindsConcat(head + value, sep);
    KindsConcat(head, value);
    assert Kinds(head) == [Token.String(key), Colon];
    assert Kinds(sep) == if comma then [Comma] else [];
  }
}
