/**
 * Properties of the parser functions: the required opening tokens, the
 * trailing-comma rule, literal dispatch, the end-of-input cases, and the
 * round trip from the tokens of a document back to its value.
 */
module ParserProperties {
  import opened Wrappers
  import opened Tokens
  import opened Values
  import opened Parser
  import opened Documents

  // ----- opening tokens and errors ------------------------------------------------

  /** An object must start with `{`: end of input and any other token are errors. */
  lemma {:induction false} ObjectNeedsOpeningBrace(ts: seq<TokenAndLocation>, i: nat)
    requires i <= |ts|
    ensures i == |ts| ==> ParseObjectAt(ts, i) == Err(UnexpectedEOF)
    ensures i < |ts| && ts[i].0 != OpenBrace ==>
      ParseObjectAt(ts, i) == Err(ExpectedToken(OpenBrace, ts[i].0, ts[i].1))
    ensures i < |ts| && ts[i].0 == OpenBrace ==> ParseObjectAt(ts, i) == ObjectMembers(ts, i + 1, map[])
  {
  }

  /** An array must start with `[`: end of input and any other token are errors. */
  lemma {:induction false} ArrayNeedsOpeningBracket(ts: seq<TokenAndLocation>, i: nat)
    requires i <= |ts|
    ensures i == |ts| ==> ParseArrayAt(ts, i) == Err(UnexpectedEOF)
    ensures i < |ts| && ts[i].0 != OpenSquareBracket ==>
      ParseArrayAt(ts, i) == Err(ExpectedToken(OpenSquareBracket, ts[i].0, ts[i].1))
    ensures i < |ts| && ts[i].0 == OpenSquareBracket ==> ParseArrayAt(ts, i) == ArrayItems(ts, i + 1, [])
  {
  }

  // ----- trailing commas -------------------------------------------------------

  /** A closing bracket right after a comma is rejected, pointing at the comma. */
  lemma {:induction false} ArrayTrailingComma(ts: seq<TokenAndLocation>, i: nat, values: seq<JsonValue>)
    requires 0 < i < |ts| && ts[i].0 == CloseSquareBracket && ts[i - 1].0 == Comma
    ensures ArrayItems(ts, i, values) == Err(UnexpectedToken(Comma, ts[i - 1].1))
  {
  }

  /** A closing brace right after a comma is rejected, pointing at the comma. */
  lemma {:induction false} ObjectTrailingComma(ts: seq<TokenAndLocation>, i: nat, members: map<string, JsonValue>)
    requires 0 < i < |ts| && ts[i].0 == CloseBrace && ts[i - 1].0 == Comma
    ensures ObjectMembers(ts, i, members) == Err(UnexpectedToken(Comma, ts[i - 1].1))
  {
  }

  /** A closing brace after anything but a comma ends the object with the members read so far. */
  lemma {:induction false} ObjectClose(ts: seq<TokenAndLocation>, i: nat, members: map<string, JsonValue>)
    requires 0 < i < |ts| && ts[i].0 == CloseBrace && ts[i - 1].0 != Comma
    ensures ObjectMembers(ts, i, members) == Ok(Parsed(Object(members), i + 1))
  {
    assert TrailingCommaAt(ts, i + 1) == Ok(());
  }

  /** A closing bracket after anything but a comma ends the array with the values read so far. */
  lemma {:induction false} ArrayClose(ts: seq<TokenAndLocation>, i: nat, values: seq<JsonValue>)
    requires 0 < i < |ts| && ts[i].0 == CloseSquareBracket && ts[i - 1].0 != Comma
    ensures ArrayItems(ts, i, values) == Ok(Parsed(Array(values), i + 1))
  {
    assert TrailingCommaAt(ts, i + 1) == Ok(());
  }

  /** `{}` and `[]` are empty: the token before the closer is the opener, not a comma. */
  lemma {:induction false} EmptyContainers(ts: seq<TokenAndLocation>, i: nat)
    requires i + 1 < |ts|
    ensures ts[i].0 == OpenBrace && ts[i + 1].0 == CloseBrace ==>
      ParseValueAt(ts, i) == Ok(Parsed(Object(map[]), i + 2))
    ensures ts[i].0 == OpenSquareBracket && ts[i + 1].0 == CloseSquareBracket ==>
      ParseValueAt(ts, i) == Ok(Parsed(Array([]), i + 2))
  {
    if ts[i].0 == OpenBrace && ts[i + 1].0 == CloseBrace {
      assert TrailingCommaAt(ts, i + 2) == Ok(());
      assert ObjectMembers(ts, i + 1, map[]) == Ok(Parsed(Object(map[]), i + 2));
    }
    if ts[i].0 == OpenSquareBracket && ts[i + 1].0 == CloseSquareBracket {
      assert TrailingCommaAt(ts, i + 2) == Ok(());
      assert ArrayItems(ts, i + 1, []) == Ok(Parsed(Array([]), i + 2));
    }
  }

  // ----- values --------------------------------------------------------------------

  /** Identifiers are values only when spelled exactly `true`, `false` or `null`. */
  lemma {:induction false} IdentifierLiterals(ts: seq<TokenAndLocation>, i: nat, name: string)
    requires i < |ts| && ts[i].0 == Identifier(name)
    ensures ParseValueAt(ts, i).Ok? <==> name in {"true", "false", "null"}
    ensures name == "true" ==> ParseValueAt(ts, i) == Ok(Parsed(Boolean(true), i + 1))
    ensures name == "false" ==> ParseValueAt(ts, i) == Ok(Parsed(Boolean(false), i + 1))
    ensures name == "null" ==> ParseValueAt(ts, i) == Ok(Parsed(Null, i + 1))
    ensures name !in {"true", "false", "null"} ==> ParseValueAt(ts, i) == Err(UnexpectedToken(Identifier(name), ts[i].1))
  {
  }

  /** A token that cannot start a value is rejected as it is; end of input is `UnexpectedEOF`. */
  lemma {:induction false} ValueStarts(ts: seq<TokenAndLocation>, i: nat)
    requires i <= |ts|
    ensures i == |ts| ==> ParseValueAt(ts, i) == Err(UnexpectedEOF)
    ensures i < |ts| && ts[i].0 in {CloseBrace, CloseSquareBracket, Colon, Comma} ==>
      ParseValueAt(ts, i) == Err(UnexpectedToken(ts[i].0, ts[i].1))
    ensures i < |ts| && ts[i].0.String? ==> ParseValueAt(ts, i) == Ok(Parsed(JsonValue.String(ts[i].0.text), i + 1))
    ensures i < |ts| && ts[i].0.Number? ==> ParseValueAt(ts, i) == Ok(Parsed(JsonValue.Number(ts[i].0.lexeme), i + 1))
    ensures i < |ts| && ts[i].0 == OpenSquareBracket ==> ParseValueAt(ts, i) == ParseArrayAt(ts, i)
    ensures i < |ts| && ts[i].0 == OpenBrace ==> ParseValueAt(ts, i) == ParseObjectAt(ts, i)
  {
  }

  // ----- objects ---------------------------------------------------------------------

  /** An object key must be a string token, and a colon must follow it. */
  lemma {:induction false} KeyThenColon(ts: seq<TokenAndLocation>, i: nat, members: map<string, JsonValue>)
    requires i < |ts| && ts[i].0 != CloseBrace
    ensures !ts[i].0.String? ==> ObjectMembers(ts, i, members) == Err(UnexpectedToken(ts[i].0, ts[i].1))
    ensures ts[i].0.String? && i + 1 == |ts| ==> ObjectMembers(ts, i, members) == Err(UnexpectedEOF)
    ensures ts[i].0.String? && i + 1 < |ts| && ts[i + 1].0 != Colon ==>
      ObjectMembers(ts, i, members) == Err(ExpectedToken(Colon, ts[i + 1].0, ts[i + 1].1))
  {
  }

  /**
   * Within an object, running out of tokens where the next key would be is
   * not an error: the members read so far are the object.
   */
  lemma {:induction false} ObjectEndsAtEndOfInput(ts: seq<TokenAndLocation>, members: map<string, JsonValue>)
    ensures ObjectMembers(ts, |ts|, members) == Ok(Parsed(Object(members), |ts|))
  {
  }

  /** Running out of tokens right after a member's value is `UnexpectedEOF`. */
  lemma {:induction false} ObjectEndsAfterValue(ts: seq<TokenAndLocation>, i: nat, key: string, members: map<string, JsonValue>)
    requires i + 2 < |ts| && ts[i].0 == Token.String(key) && ts[i + 1].0 == Colon
    requires ParseValueAt(ts, i + 2).Ok? && ParseValueAt(ts, i + 2).value.next == |ts|
    ensures ObjectMembers(ts, i, members) == Err(UnexpectedEOF)
  {
  }

  /**
   * A member is inserted over any earlier value of its key, and the comma
   * after it is optional: the next member may follow directly.
   */
  lemma {:induction false} ObjectMember(ts: seq<TokenAndLocation>, i: nat, key: string, members: map<string, JsonValue>)
    requires i + 2 < |ts| && ts[i].0 == Token.String(key) && ts[i + 1].0 == Colon
    requires ParseValueAt(ts, i + 2).Ok? && ParseValueAt(ts, i + 2).value.next < |ts|
    ensures var v := ParseValueAt(ts, i + 2).value;
      var next := if ts[v.next].0 == Comma then v.next + 1 else v.next;
      ObjectMembers(ts, i, members) == ObjectMembers(ts, next, members[key := v.value])
  {
  }

  // ----- arrays ------------------------------------------------------------------------

  /**
   * After an element, a comma continues the array, a closing bracket ends it,
   * any other token is rejected, and end of input is `UnexpectedEOF`.
   */
  lemma {:induction false} ArrayElement(ts: seq<TokenAndLocation>, i: nat, values: seq<JsonValue>)
    requires i < |ts| && ts[i].0 != CloseSquareBracket
    requires ParseValueAt(ts, i).Ok?
    ensures var v := ParseValueAt(ts, i).value;
      if v.next == |ts| then ArrayItems(ts, i, values) == Err(UnexpectedEOF)
      else if ts[v.next].0 == Comma then ArrayItems(ts, i, values) == ArrayItems(ts, v.next + 1, values + [v.value])
      else if ts[v.next].0 == CloseSquareBracket then
        ArrayItems(ts, i, values) == Ok(Parsed(Array(values + [v.value]), v.next + 1))
      else ArrayItems(ts, i, values) == Err(UnexpectedToken(ts[v.next].0, ts[v.next].1))
  {
  }

  /** Running out of tokens inside an array is always `UnexpectedEOF`. */
  lemma {:induction false} ArrayEndsAtEndOfInput(ts: seq<TokenAndLocation>, values: seq<JsonValue>)
    ensures ArrayItems(ts, |ts|, values) == Err(UnexpectedEOF)
  {
  }

  /** Elements are collected in order: the array holds the values read before, then the rest. */
  lemma {:induction false} ArrayKeepsOrder(ts: seq<TokenAndLocation>, i: nat, values: seq<JsonValue>)
    requires i <= |ts|
    ensures var r := ArrayItems(ts, i, values);
      r.Ok? ==>
        r.value.value.Array? && |r.value.value.items| >= |values| && r.value.value.items[..|values|] == values
    decreases |ts| - i
  {
    if i < |ts| && ts[i].0 != CloseSquareBracket {
      var v := ParseValueAt(ts, i);
      if v.Ok? && v.value.next < |ts| && ts[v.value.next].0 == Comma {
        var extended := values + [v.value.value];
        ArrayKeepsOrder(ts, v.value.next + 1, extended);
        var r := ArrayItems(ts, v.value.next + 1, extended);
        if r.Ok? {
          assert r.value.value.items[..|values|] == r.value.value.items[..|extended|][..|values|];
        }
      }
    }
  }

  // ----- error locations -----------------------------------------------------------------

  /** Every error but `UnexpectedEOF` points at a token at or after the start of the value. */
  lemma {:induction false} ErrorsPointAtTokens(ts: seq<TokenAndLocation>, i: nat)
    requires i <= |ts|
    ensures var r := ParseValueAt(ts, i);
      r.Err? && !r.error.UnexpectedEOF? ==> exists j :: i <= j < |ts| && r.error.location == ts[j].1
    decreases |ts| - i, 2
  {
    if i < |ts| {
      match ts[i].0
      case OpenSquareBracket =>
        if i + 1 <= |ts| {
          ErrorsPointAtTokensItems(ts, i + 1, []);
        }
      case OpenBrace =>
        ErrorsPointAtTokensMembers(ts, i + 1, map[]);
      case _ =>
    }
  }

  lemma {:induction false} ErrorsPointAtTokensItems(ts: seq<TokenAndLocation>, i: nat, values: seq<JsonValue>)
    requires i <= |ts|
    ensures var r := ArrayItems(ts, i, values);
      r.Err? && !r.error.UnexpectedEOF? ==> exists j :: 0 <= j < |ts| && i <= j + 1 && r.error.location == ts[j].1
    decreases |ts| - i, 3
  {
    if i < |ts| && ts[i].0 != CloseSquareBracket {
      ErrorsPointAtTokens(ts, i);
      var v := ParseValueAt(ts, i);
      if v.Ok? && v.value.next < |ts| && ts[v.value.next].0 == Comma {
        ErrorsPointAtTokensItems(ts, v.value.next + 1, values + [v.value.value]);
      }
    }
  }

  lemma {:induction false} ErrorsPointAtTokensMembers(ts: seq<TokenAndLocation>, i: nat, members: map<string, JsonValue>)
    requires i <= |ts|
    ensures var r := ObjectMembers(ts, i, members);
      r.Err? && !r.error.UnexpectedEOF? ==> exists j :: 0 <= j < |ts| && i <= j + 1 && r.error.location == ts[j].1
    decreases |ts| - i, 0
  {
    if i < |ts| && ts[i].0 != CloseBrace && ts[i].0.String? && i + 1 < |ts| && ts[i + 1].0 == Colon {
      ErrorsPointAtTokens(ts, i + 2);
      var p := KeyValuePairAt(ts, i + 1, ts[i].0, ts[i].1);
      if p.Ok? {
        ErrorsPointAtTokensMembers(ts, p.value.next, members[p.value.value.0 := p.value.value.1]);
      }
    }
  }

  // ----- round trip from a document's tokens ------------------------------------------

  /** The tokens of `ts` from `i` on are the tokens of `shape` (locations aside). */
  ghost predicate Spells(ts: seq<TokenAndLocation>, i: nat, shape: seq<Token>)
  {
    i + |shape| <= |ts| && forall k :: 0 <= k < |shape| ==> ts[i + k].0 == shape[k]
  }

  lemma {:induction false} SpellsConcat(ts: seq<TokenAndLocation>, i: nat, a: seq<Token>, b: seq<Token>)
    requires Spells(ts, i, a + b)
    ensures Spells(ts, i, a) && Spells(ts, i + |a|, b)
  {
    forall k | 0 <= k < |a| ensures ts[i + k].0 == a[k] {
      assert (a + b)[k] == a[k];
    }
    forall k | 0 <= k < |b| ensures ts[i + |a| + k].0 == b[k] {
      assert (a + b)[|a| + k] == b[k];
    }
  }

  lemma {:induction false} SpellsAt(ts: seq<TokenAndLocation>, i: nat, shape: seq<Token>, k: nat)
    requires Spells(ts, i, shape) && k < |shape|
    ensures ts[i + k].0 == shape[k]
  {
  }

  lemma {:induction false} SpellsThree(ts: seq<TokenAndLocation>, i: nat, a: seq<Token>, b: seq<Token>, c: seq<Token>)
    requires Spells(ts, i, a + b + c)
    ensures Spells(ts, i, a) && Spells(ts, i + |a|, b) && Spells(ts, i + |a| + |b|, c)
  {
    SpellsConcat(ts, i, a + b, c);
    SpellsConcat(ts, i, a, b);
  }

  /** An opening token, a body and a closing token. */
  lemma {:induction false} SpellsEnclosed(ts: seq<TokenAndLocation>, i: nat, open: Token, body: seq<Token>, close: Token)
    requires Spells(ts, i, [open] + body + [close])
    ensures ts[i].0 == open && Spells(ts, i + 1, body) && i + 1 + |body| < |ts| && ts[i + 1 + |body|].0 == close
  {
    SpellsThree(ts, i, [open], body, [close]);
    SpellsAt(ts, i, [open], 0);
    SpellsAt(ts, i + 1 + |body|, [close], 0);
  }

  /** A token that can open a value: none of the closers and separators. */
  predicate Opens(t: Token)
  {
    !(t.CloseBrace? || t.CloseSquareBracket? || t.Colon? || t.Comma?)
  }

  /** A value's tokens start with a token that opens a value and do not end with a comma. */
  lemma {:induction false} ShapeEnds(d: Doc)
    ensures var e := Shape(d); |e| > 0 && Opens(e[0]) && !e[|e| - 1].Comma?
  {
  }

  /** The tokens spelling a value start with a token that opens it and do not end with a comma. */
  lemma {:induction false} SpellsValue(d: Doc, ts: seq<TokenAndLocation>, i: nat)
    requires Spells(ts, i, Shape(d))
    ensures |Shape(d)| > 0 && Opens(ts[i].0) && !ts[i + |Shape(d)| - 1].0.Comma?
  {
    ShapeEnds(d);
    SpellsAt(ts, i, Shape(d), 0);
    SpellsAt(ts, i, Shape(d), |Shape(d)| - 1);
  }

  /** The tokens of a non-empty member list start with the first key. */
  lemma {:induction false} ShapeMembersStart(ms: seq<Member>)
    requires ms != []
    ensures var e := ShapeMembers(ms); |e| > 0 && e[0] == Token.String(ms[0].key)
  {
    assert ShapeMembers(ms) == ShapeMember(ms[0]) + ShapeMembers(ms[1..]);
    assert ShapeMember(ms[0])[0] == Token.String(ms[0].key);
  }

  /** The parser reads back the value of a document from the document's tokens. */
  lemma {:induction false} ParseShape(d: Doc, ts: seq<TokenAndLocation>, i: nat)
    requires WellFormed(d) && Spells(ts, i, Shape(d))
    ensures ParseValueAt(ts, i) == Ok(Parsed(Meaning(d), i + |Shape(d)|))
    decreases d, 2
  {
    SpellsAt(ts, i, Shape(d), 0);
    match d
    case DArray(items) =>
      SpellsEnclosed(ts, i, OpenSquareBracket, ShapeItems(items), CloseSquareBracket);
      ValueStarts(ts, i);
      ParseArrayShape(items, ts, i);
    case DObject(ms) =>
      SpellsEnclosed(ts, i, OpenBrace, ShapeMembers(ms), CloseBrace);
      ValueStarts(ts, i);
      ParseObjectShape(ms, ts, i);
    case _ =>
  }

  /** An array whose elements are spelled between its brackets. */
  lemma {:induction false} ParseArrayShape(items: seq<Doc>, ts: seq<TokenAndLocation>, i: nat)
    requires WellFormedItems(items)
    requires i < |ts| && ts[i].0 == OpenSquareBracket && Spells(ts, i + 1, ShapeItems(items))
    requires i + 1 + |ShapeItems(items)| < |ts| && ts[i + 1 + |ShapeItems(items)|].0 == CloseSquareBracket
    ensures ParseArrayAt(ts, i) == Ok(Parsed(Array(Meanings(items)), i + |ShapeItems(items)| + 2))
    decreases items, 1
  {
    ArrayNeedsOpeningBracket(ts, i);
    if items == [] {
      ArrayClose(ts, i + 1, []);
    } else {
      ParseItemsShape(items, ts, i + 1, []);
      assert [] + Meanings(items) == Meanings(items);
    }
  }

  /** An object whose members are spelled between its braces. */
  lemma {:induction false} ParseObjectShape(ms: seq<Member>, ts: seq<TokenAndLocation>, i: nat)
    requires WellFormedMembers(ms)
    requires i < |ts| && ts[i].0 == OpenBrace && Spells(ts, i + 1, ShapeMembers(ms))
    requires i + 1 + |ShapeMembers(ms)| < |ts| && ts[i + 1 + |ShapeMembers(ms)|].0 == CloseBrace
    ensures ParseObjectAt(ts, i) == Ok(Parsed(Object(MembersMeaning(ms, map[])), i + |ShapeMembers(ms)| + 2))
    decreases ms, 2
  {
    ObjectNeedsOpeningBrace(ts, i);
    if ms == [] {
      ObjectClose(ts, i + 1, map[]);
    } else {
      ParseMembersShape(ms, ts, i + 1, map[]);
    }
  }

  /** A first part that opens a value, a comma when `more`, then the rest. */
  lemma {:induction false} SpellsSeparated(ts: seq<TokenAndLocation>, i: nat, first: seq<Token>, more: bool, rest: seq<Token>)
    requires |first| > 0 && Opens(first[0])
    requires Spells(ts, i, first + (if more then [Comma] else []) + rest)
    ensures Spells(ts, i, first) && Opens(ts[i].0)
    ensures more ==> ts[i + |first|].0 == Comma && Spells(ts, i + |first| + 1, rest)
  {
    var sep := if more then [Comma] else [];
    SpellsThree(ts, i, first, sep, rest);
    SpellsAt(ts, i, first, 0);
    if more {
      SpellsAt(ts, i + |first|, sep, 0);
    }
  }

  /** An element read to `n`, then a comma when `more` and the closing bracket otherwise. */
  lemma {:induction false} ItemStep(ts: seq<TokenAndLocation>, i: nat, value: JsonValue, n: nat, more: bool, values: seq<JsonValue>)
    requires i < |ts| && ts[i].0 != CloseSquareBracket
    requires ParseValueAt(ts, i) == Ok(Parsed(value, n)) && n < |ts|
    requires ts[n].0 == (if more then Comma else CloseSquareBracket)
    ensures more ==> ArrayItems(ts, i, values) == ArrayItems(ts, n + 1, values + [value])
    ensures !more ==> ArrayItems(ts, i, values) == Ok(Parsed(Array(values + [value]), n + 1))
  {
    ArrayElement(ts, i, values);
  }

  /** The elements of a non-empty array, up to and including its closing bracket. */
  lemma {:induction false} ParseItemsShape(items: seq<Doc>, ts: seq<TokenAndLocation>, i: nat, values: seq<JsonValue>)
    requires items != [] && WellFormedItems(items) && Spells(ts, i, ShapeItems(items))
    requires i + |ShapeItems(items)| < |ts| && ts[i + |ShapeItems(items)|].0 == CloseSquareBracket
    ensures ArrayItems(ts, i, values) == Ok(Parsed(Array(values + Meanings(items)), i + |ShapeItems(items)| + 1))
    decreases items, 0
  {
    var first := Shape(items[0]);
    var next := i + |first|;
    var more := |items| > 1;
    assert ShapeItems(items) == first + (if more then [Comma] else []) + ShapeItems(items[1..]);
    ShapeEnds(items[0]);
    SpellsSeparated(ts, i, first, more, ShapeItems(items[1..]));
    ParseShape(items[0], ts, i);
    ItemStep(ts, i, Meaning(items[0]), next, more, values);
    if more {
      ParseItemsShape(items[1..], ts, next + 1, values + [Meaning(items[0])]);
      assert values + [Meaning(items[0])] + Meanings(items[1..]) == values + Meanings(items);
    } else {
      assert Meanings(items) == [Meaning(items[0])];
    }
  }

  /** The tokens of one member: a string key, a colon, the value, then a comma if it has one. */
  lemma {:induction false} SpellsMember(m: Member, ts: seq<TokenAndLocation>, i: nat)
    requires Spells(ts, i, ShapeMember(m))
    ensures var valueEnd := i + 2 + |Shape(m.value)|;
      ts[i].0 == Token.String(m.key) && ts[i + 1].0 == Colon && Spells(ts, i + 2, Shape(m.value)) &&
      !ts[valueEnd - 1].0.Comma? && (m.comma ==> ts[valueEnd].0 == Comma) &&
      |ShapeMember(m)| == 2 + |Shape(m.value)| + (if m.comma then 1 else 0)
  {
    var head := [Token.String(m.key), Colon];
    var value := Shape(m.value);
    var sep := if m.comma then [Comma] else [];
    SpellsThree(ts, i, head, value, sep);
    SpellsAt(ts, i, head, 0);
    SpellsAt(ts, i, head, 1);
    SpellsValue(m.value, ts, i + 2);
    if m.comma {
      SpellsAt(ts, i + 2 + |value|, sep, 0);
    }
  }

  /** A key, a colon and a value read to `n`, then a comma exactly when `comma`. */
  lemma {:induction false} MemberStep(ts: seq<TokenAndLocation>, i: nat, key: string, value: JsonValue, n: nat, comma: bool,
                                      acc: map<string, JsonValue>)
    requires i + 2 < |ts| && ts[i].0 == Token.String(key) && ts[i + 1].0 == Colon
    requires ParseValueAt(ts, i + 2) == Ok(Parsed(value, n)) && n < |ts| && (ts[n].0 == Comma <==> comma)
    ensures ObjectMembers(ts, i, acc) == ObjectMembers(ts, if comma then n + 1 else n, acc[key := value])
  {
    ObjectMember(ts, i, key, acc);
  }

  /** One member: its key and value are inserted, and the comma after it, if any, skipped. */
  lemma {:induction false} ParseMemberShape(m: Member, ts: seq<TokenAndLocation>, i: nat, acc: map<string, JsonValue>)
    requires WellFormed(m.value) && Spells(ts, i, ShapeMember(m))
    requires i + |ShapeMember(m)| < |ts| && !ts[i + |ShapeMember(m)|].0.Comma?
    ensures !ts[i + |ShapeMember(m)| - 1].0.Comma? <==> !m.comma
    ensures ObjectMembers(ts, i, acc) == ObjectMembers(ts, i + |ShapeMember(m)|, acc[m.key := Meaning(m.value)])
    decreases m, 0
  {
    SpellsMember(m, ts, i);
    var n := i + 2 + |Shape(m.value)|;
    ParseShape(m.value, ts, i + 2);
    MemberStep(ts, i, m.key, Meaning(m.value), n, m.comma, acc);
  }

  /** The tokens of the first member, then of the others. */
  lemma {:induction false} SpellsMembers(ms: seq<Member>, ts: seq<TokenAndLocation>, i: nat)
    requires ms != [] && Spells(ts, i, ShapeMembers(ms))
    ensures var next := i + |ShapeMember(ms[0])|;
      Spells(ts, i, ShapeMember(ms[0])) && Spells(ts, next, ShapeMembers(ms[1..])) &&
      |ShapeMembers(ms)| == |ShapeMember(ms[0])| + |ShapeMembers(ms[1..])|
  {
    assert ShapeMembers(ms) == ShapeMember(ms[0]) + ShapeMembers(ms[1..]);
    SpellsConcat(ts, i, ShapeMember(ms[0]), ShapeMembers(ms[1..]));
  }

  /** The members of a non-empty object, up to and including its closing brace. */
  lemma {:induction false} ParseMembersShape(ms: seq<Member>, ts: seq<TokenAndLocation>, i: nat, acc: map<string, JsonValue>)
    requires ms != [] && WellFormedMembers(ms) && Spells(ts, i, ShapeMembers(ms))
    requires i + |ShapeMembers(ms)| < |ts| && ts[i + |ShapeMembers(ms)|].0 == CloseBrace
    ensures ObjectMembers(ts, i, acc) ==
      Ok(Parsed(Object(MembersMeaning(ms, acc)), i + |ShapeMembers(ms)| + 1))
    decreases ms, 1
  {
    var next := i + |ShapeMember(ms[0])|;
    var acc' := acc[ms[0].key := Meaning(ms[0].value)];
    SpellsMembers(ms, ts, i);
    if |ms| > 1 {
      ShapeMembersStart(ms[1..]);
      SpellsAt(ts, next, ShapeMembers(ms[1..]), 0);
    }
    ParseMemberShape(ms[0], ts, i, acc);
    if |ms| > 1 {
      ParseMembersShape(ms[1..], ts, next, acc');
    } else {
      ObjectClose(ts, next, acc');
    }
  }

  /** An object document parses from its own tokens to its value, wherever they are located. */
  lemma {:induction false} ParseOfEmitted(d: Doc, line: nat, column: nat)
    requires d.DObject? && WellFormed(d)
    ensures Parse(Emit(d, line, column)) == Ok(Meaning(d))
  {
    var ts := Emit(d, line, column);
    EmitHasShape(d, line, column);
    assert Spells(ts, 0, Shape(d));
    ParseShape(d, ts, 0);
    SpellsAt(ts, 0, Shape(d), 0);
  }

  // ----- duplicate keys ------------------------------------------------------------

  /** A key that no member writes keeps its value, or stays absent. */
  lemma {:induction false} UnwrittenKeyKept(ms: seq<Member>, acc: map<string, JsonValue>, key: string)
    requires forall j :: 0 <= j < |ms| ==> ms[j].key != key
    ensures var r := MembersMeaning(ms, acc);
      (key in r <==> key in acc) && (key in acc ==> r[key] == acc[key])
    decreases ms
  {
    if ms != [] {
      forall j | 0 <= j < |ms[1..]| ensures ms[1..][j].key != key {
        assert ms[1..][j] == ms[j + 1];
      }
      UnwrittenKeyKept(ms[1..], acc[ms[0].key := Meaning(ms[0].value)], key);
    }
  }

  /** A duplicate key takes the value of its last member: the last write wins. */
  lemma {:induction false} LastWriteWins(ms: seq<Member>, acc: map<string, JsonValue>, j: nat)
    requires j < |ms|
    requires forall j' :: j < j' < |ms| ==> ms[j'].key != ms[j].key
    ensures var r := MembersMeaning(ms, acc);
      ms[j].key in r && r[ms[j].key] == Meaning(ms[j].value)
    decreases ms
  {
    var acc' := acc[ms[0].key := Meaning(ms[0].value)];
    if j == 0 {
      forall j' | 0 <= j' < |ms[1..]| ensures ms[1..][j'].key != ms[0].key {
        assert ms[1..][j'] == ms[j' + 1];
      }
      UnwrittenKeyKept(ms[1..], acc', ms[0].key);
    } else {
      assert ms[1..][j - 1] == ms[j];
      forall j' | j - 1 < j' < |ms[1..]| ensures ms[1..][j'].key != ms[1..][j - 1].key {
        assert ms[1..][j'] == ms[j' + 1];
      }
      LastWriteWins(ms[1..], acc', j - 1);
    }
  }
}
