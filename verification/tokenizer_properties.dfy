/** What one tokenizer pass guarantees, stated over `Lex` and its sub-scans. */
module TokenizerProperties {
  import opened Wrappers
  import opened Locations
  import opened Tokens
  import opened Tokenizer

  // ----- runs ------------------------------------------------------------------

  /** A run of `cls` characters from `i` that stops at `k` ends exactly at `k`. */
  lemma {:induction false} RunEndAt(s: seq<char>, i: nat, k: nat, cls: CharClass)
    requires i <= k <= |s|
    requires forall j :: i <= j < k ==> InClass(cls, s[j])
    requires k == |s| || !InClass(cls, s[k])
    ensures RunEnd(s, i, cls) == k
    decreases k - i
  {
    if i < k {
      RunEndAt(s, i + 1, k, cls);
    }
  }

  // ----- newline normalisation -------------------------------------------------

  /** Text without a carriage return is left as it is. */
  lemma {:induction false} NormalizeWithoutCarriageReturn(s: string)
    requires '\r' !in s
    ensures NormalizeNewlines(s) == s
  {
    if s != [] {
      assert '\r' !in s[1..];
      NormalizeWithoutCarriageReturn(s[1..]);
    }
  }

  /** Text without a newline is left as it is: a carriage return alone is kept. */
  lemma {:induction false} NormalizeWithoutNewline(s: string)
    requires '\n' !in s
    ensures NormalizeNewlines(s) == s
  {
    if s != [] {
      assert '\n' !in s[1..];
      NormalizeWithoutNewline(s[1..]);
    }
  }

  /** Reducing `\r\n` to `\n` keeps every line break, so line numbers are unchanged. */
  lemma {:induction false} NormalizeKeepsNewlines(s: string)
    ensures Newlines(NormalizeNewlines(s)) == Newlines(s)
  {
    if |s| >= 2 && s[0] == '\r' && s[1] == '\n' {
      NormalizeKeepsNewlines(s[2..]);
      assert s[1..][1..] == s[2..];
      assert (['\n'] + NormalizeNewlines(s[2..]))[1..] == NormalizeNewlines(s[2..]);
    } else if s != [] {
      NormalizeKeepsNewlines(s[1..]);
      assert ([s[0]] + NormalizeNewlines(s[1..]))[1..] == NormalizeNewlines(s[1..]);
    }
  }

  // ----- single steps of the main loop -----------------------------------------

  /** Each punctuation character yields exactly its token, at the column after it. */
  lemma LexPunctuation(s: seq<char>, i: nat, line: nat, column: nat)
    requires i < |s| && s[i] in "{}:,[]"
    ensures Lex(s, i, line, column) ==
      Prepend((Punctuation(s[i]).value, Location(line, column + 1)), Lex(s, i + 1, line, column + 1))
    ensures s[i] == '{' ==> Punctuation(s[i]) == Some(OpenBrace)
    ensures s[i] == '}' ==> Punctuation(s[i]) == Some(CloseBrace)
    ensures s[i] == ':' ==> Punctuation(s[i]) == Some(Colon)
    ensures s[i] == ',' ==> Punctuation(s[i]) == Some(Comma)
    ensures s[i] == '[' ==> Punctuation(s[i]) == Some(OpenSquareBracket)
    ensures s[i] == ']' ==> Punctuation(s[i]) == Some(CloseSquareBracket)
  {
  }

  /** A space emits nothing and takes one column; a newline emits nothing and starts the next line. */
  lemma LexBlank(s: seq<char>, i: nat, line: nat, column: nat)
    requires i < |s| && (s[i] == ' ' || s[i] == '\n')
    ensures s[i] == ' ' ==> Lex(s, i, line, column) == Lex(s, i + 1, line, column + 1)
    ensures s[i] == '\n' ==> Lex(s, i, line, column) == Lex(s, i + 1, line + 1, 0)
  {
    if s[i] == ' ' {
      assert StepAt(s, i, line, column) == Skipped(i + 1, line, column + 1);
    } else {
      assert StepAt(s, i, line, column) == Skipped(i + 1, line + 1, 0);
    }
  }

  /**
   * A comment emits nothing: it runs up to the next newline, which the
   * main loop then consumes and counts; the column moves only for the `/`.
   */
  lemma LexCommentThenNewline(s: seq<char>, i: nat, k: nat, line: nat, column: nat)
    requires i < k < |s| && s[i] == '/' && s[k] == '\n'
    requires forall j :: i < j < k ==> s[j] != '\n'
    ensures Lex(s, i, line, column) == Lex(s, k + 1, line + 1, 0)
  {
    RunEndAt(s, i + 1, k, CommentChars);
    assert StepAt(s, i, line, column) == Skipped(k, line, column + 1);
    LexBlank(s, k, line, column + 1);
  }

  /** A comment that runs to the end of input ends the token stream. */
  lemma LexCommentAtEnd(s: seq<char>, i: nat, line: nat, column: nat)
    requires i < |s| && s[i] == '/'
    requires forall j :: i < j < |s| ==> s[j] != '\n'
    ensures Lex(s, i, line, column) == Ok([])
  {
    RunEndAt(s, i + 1, |s|, CommentChars);
  }

  /**
   * A string closed on its line yields the characters strictly between the
   * quotes, located at the column of the closing quote.
   */
  lemma LexClosedString(s: seq<char>, i: nat, k: nat, line: nat, column: nat)
    requires i < k < |s| && s[i] == '"' && s[k] == '"'
    requires forall j :: i < j < k ==> s[j] != '"' && s[j] != '\n'
    ensures Lex(s, i, line, column) ==
      Prepend((String(s[i + 1..k]), Location(line, column + (k - i) + 1)), Lex(s, k + 1, line, column + (k - i) + 1))
  {
    RunEndAt(s, i + 1, k, StringChars);
    assert ScanString(s, i + 1, line, column + 1) == Ok(Scanned(s[i + 1..k], k + 1, column + (k - i) + 1));
    assert StepAt(s, i, line, column) ==
      Emitted((String(s[i + 1..k]), Location(line, column + (k - i) + 1)), k + 1, line, column + (k - i) + 1);
  }

  /** A string whose line ends first fails, pointing at the newline's own column (the column after consuming it). */
  lemma LexStringBrokenByNewline(s: seq<char>, i: nat, k: nat, line: nat, column: nat)
    requires i < k < |s| && s[i] == '"' && s[k] == '\n'
    requires forall j :: i < j < k ==> s[j] != '"' && s[j] != '\n'
    ensures Lex(s, i, line, column) == Err(ExpectedCharacter('"', Location(line, column + (k - i) + 1)))
  {
    RunEndAt(s, i + 1, k, StringChars);
    assert ScanString(s, i + 1, line, column + 1) == Err(ExpectedCharacter('"', Location(line, column + (k - i) + 1)));
    assert StepAt(s, i, line, column) == Failed(ExpectedCharacter('"', Location(line, column + (k - i) + 1)));
  }

  /**
   * A string still open at the end of input is not an error: its payload
   * is the rest of the input, and the failed consume at the end still
   * advances the column.
   */
  lemma LexStringAtEnd(s: seq<char>, i: nat, line: nat, column: nat)
    requires i < |s| && s[i] == '"'
    requires forall j :: i < j < |s| ==> s[j] != '"' && s[j] != '\n'
    ensures Lex(s, i, line, column) == Ok([(String(s[i + 1..]), Location(line, column + (|s| - i) + 1))])
  {
    RunEndAt(s, i + 1, |s|, StringChars);
    assert s[i + 1..|s|] == s[i + 1..];
    assert ScanString(s, i + 1, line, column + 1) == Ok(Scanned(s[i + 1..], |s|, column + (|s| - i) + 1));
    assert Lex(s, |s|, line, column + (|s| - i) + 1) == Ok([]);
    assert [(String(s[i + 1..]), Location(line, column + (|s| - i) + 1))] + [] ==
      [(String(s[i + 1..]), Location(line, column + (|s| - i) + 1))];
  }

  /**
   * A number character starts a number scan. The number check comes
   * before the identifier check, so this holds of `e` and `E` too, although
   * they are alphanumeric.
   */
  lemma LexNumberStart(s: seq<char>, i: nat, line: nat, column: nat)
    requires i < |s| && IsJsonNumber(s[i])
    ensures s[i] == 'e' || s[i] == 'E' ==> IsAlphanumeric(s[i])
    ensures var num := ScanNumber(s, i + 1, s[i], column + 1);
      Lex(s, i, line, column) ==
        if num.value.Some? then Prepend((num.value.value, Location(line, num.column)), Lex(s, num.next, line, num.column))
        else Lex(s, num.next, line, num.column)
  {
    assert Punctuation(s[i]).None?;
    assert s[i] != '"' && s[i] != '/' && s[i] != ' ' && s[i] != '\n';
  }

  /** The number scan from `i` over a maximal run of number characters ending at `k`. */
  lemma ScanNumberAt(s: seq<char>, i: nat, k: nat, column: nat)
    requires i < k <= |s|
    requires forall j :: i <= j < k ==> IsJsonNumber(s[j])
    requires k == |s| || !IsJsonNumber(s[k])
    ensures var num := ScanNumber(s, i + 1, s[i], column + 1);
      num.next == k && num.column == column + (k - i) &&
      num.value == (if ParsesAsFloat(s[i..k]) then Some(Number(s[i..k])) else None)
  {
    RunEndAt(s, i + 1, k, NumberChars);
    assert [s[i]] + s[i + 1..k] == s[i..k];
  }

  /**
   * A maximal run of number characters that is not a float is dropped:
   * no token and no error, and scanning resumes after it.
   */
  lemma LexDropsMalformedNumber(s: seq<char>, i: nat, k: nat, line: nat, column: nat)
    requires i < k <= |s|
    requires forall j :: i <= j < k ==> IsJsonNumber(s[j])
    requires k == |s| || !IsJsonNumber(s[k])
    requires !ParsesAsFloat(s[i..k])
    ensures Lex(s, i, line, column) == Lex(s, k, line, column + (k - i))
  {
    ScanNumberAt(s, i, k, column);
    assert Punctuation(s[i]).None?;
    assert StepAt(s, i, line, column) == Skipped(k, line, column + (k - i));
  }

  /** A number lexeme that is a float yields one Number token carrying it. */
  lemma LexNumber(s: seq<char>, i: nat, k: nat, line: nat, column: nat)
    requires i < k <= |s|
    requires forall j :: i <= j < k ==> IsJsonNumber(s[j])
    requires k == |s| || !IsJsonNumber(s[k])
    requires ParsesAsFloat(s[i..k])
    ensures Lex(s, i, line, column) ==
      Prepend((Number(s[i..k]), Location(line, column + (k - i))), Lex(s, k, line, column + (k - i)))
  {
    ScanNumberAt(s, i, k, column);
    assert Punctuation(s[i]).None?;
    assert StepAt(s, i, line, column) ==
      Emitted((Number(s[i..k]), Location(line, column + (k - i))), k, line, column + (k - i));
  }

  /** An identifier is the maximal alphanumeric run from a start character that is not a number character. */
  lemma LexIdentifier(s: seq<char>, i: nat, k: nat, line: nat, column: nat)
    requires i < k <= |s|
    requires IsAlphanumeric(s[i]) && !IsJsonNumber(s[i])
    requires forall j :: i <= j < k ==> IsAlphanumeric(s[j])
    requires k == |s| || !IsAlphanumeric(s[k])
    ensures Lex(s, i, line, column) ==
      Prepend((Identifier(s[i..k]), Location(line, column + (k - i))), Lex(s, k, line, column + (k - i)))
  {
    RunEndAt(s, i + 1, k, IdentifierChars);
    assert [s[i]] + s[i + 1..k] == s[i..k];
    assert Punctuation(s[i]).None? && s[i] !in "\"/ \n";
    assert ScanIdentifier(s, i + 1, s[i], column + 1) == Scanned(s[i..k], k, column + (k - i));
    assert StepAt(s, i, line, column) ==
      Emitted((Identifier(s[i..k]), Location(line, column + (k - i))), k, line, column + (k - i));
  }

  /** Any character outside the grammar aborts the pass where it stands. */
  lemma LexUnexpectedCharacter(s: seq<char>, i: nat, line: nat, column: nat)
    requires i < |s|
    requires s[i] !in "{}:,[]\"/ \n" && !IsJsonNumber(s[i]) && !IsAlphanumeric(s[i])
    ensures Lex(s, i, line, column) == Err(UnexpectedCharacter(s[i], Location(line, column + 1)))
  {
  }

  // ----- whole-pass properties -----------------------------------------------------

  /**
   * Tokens come out in input order: their locations increase strictly in
   * reading order, all after the position the pass started from.
   */
  ghost predicate InReadingOrder(ts: seq<TokenAndLocation>, start: Location)
  {
    (forall a :: 0 <= a < |ts| ==> Before(start, ts[a].1)) &&
    (forall a, b :: 0 <= a < b < |ts| ==> Before(ts[a].1, ts[b].1))
  }

  lemma PrependInReadingOrder(x: TokenAndLocation, r: Result<seq<TokenAndLocation>, TokenizerError>, start: Location)
    requires Before(start, x.1)
    requires r.Ok? ==> InReadingOrder(r.value, x.1)
    ensures var p := Prepend(x, r); p.Ok? ==> InReadingOrder(p.value, start)
  {
    if r.Ok? {
      var p := [x] + r.value;
      forall a | 0 <= a < |p| ensures Before(start, p[a].1) {
        if a > 0 {
          BeforeTransitive(start, x.1, p[a].1);
        }
      }
    }
  }

  lemma LaterStart(r: Result<seq<TokenAndLocation>, TokenizerError>, start: Location, later: Location)
    requires start == later || Before(start, later)
    requires r.Ok? ==> InReadingOrder(r.value, later)
    ensures r.Ok? ==> InReadingOrder(r.value, start)
  {
  }

  /** A step's token sits where the step leaves the counters, strictly after where they stood. */
  lemma StepMovesForward(s: seq<char>, i: nat, line: nat, column: nat)
    requires i < |s|
    ensures var r := StepAt(s, i, line, column);
      (r.Emitted? ==> r.item.1 == Location(r.line, r.column) && Before(Location(line, column), r.item.1)) &&
      (r.Skipped? ==> Before(Location(line, column), Location(r.line, r.column)))
  {
  }

  /** Every token of a pass is located after the pass's start, in strictly increasing reading order. */
  lemma {:induction false} LexInReadingOrder(s: seq<char>, i: nat, line: nat, column: nat)
    requires i <= |s|
    ensures var r := Lex(s, i, line, column); r.Ok? ==> InReadingOrder(r.value, Location(line, column))
    decreases |s| - i
  {
    if i < |s| {
      StepMovesForward(s, i, line, column);
      match StepAt(s, i, line, column)
      case Emitted(x, j, l, c) =>
        LexInReadingOrder(s, j, l, c);
        PrependInReadingOrder(x, Lex(s, j, l, c), Location(line, column));
      case Skipped(j, l, c) =>
        LexInReadingOrder(s, j, l, c);
        LaterStart(Lex(s, j, l, c), Location(line, column), Location(l, c));
      case Failed(_) =>
    }
  }

  /** Dropping a prefix can only lose newlines. */
  lemma {:induction false} NewlinesOfSuffix(s: string, i: nat, j: nat)
    requires i <= j <= |s|
    ensures Newlines(s[j..]) <= Newlines(s[i..])
    ensures i < |s| ==> Newlines(s[i..]) == (if s[i] == '\n' then 1 else 0) + Newlines(s[i + 1..])
    decreases j - i
  {
    if i < |s| {
      assert s[i..][1..] == s[i + 1..];
    }
    if i < j {
      NewlinesOfSuffix(s, i + 1, j);
    }
  }

  /** Every token's line lies between `low` and `high`. */
  ghost predicate LinesWithin(ts: seq<TokenAndLocation>, low: nat, high: nat)
  {
    forall a :: 0 <= a < |ts| ==> low <= ts[a].1.line <= high
  }

  /** A narrower range of lines is within a wider one. */
  lemma WidenLinesWithin(r: Result<seq<TokenAndLocation>, TokenizerError>, low: nat, high: nat, low': nat, high': nat)
    requires low' <= low && high <= high'
    requires r.Ok? ==> LinesWithin(r.value, low, high)
    ensures r.Ok? ==> LinesWithin(r.value, low', high')
  {
  }

  lemma PrependLinesWithin(x: TokenAndLocation, r: Result<seq<TokenAndLocation>, TokenizerError>, low: nat, high: nat)
    requires low <= x.1.line <= high
    requires r.Ok? ==> LinesWithin(r.value, low, high)
    ensures var p := Prepend(x, r); p.Ok? ==> LinesWithin(p.value, low, high)
  {
    if r.Ok? {
      assert forall a :: 0 < a < |[x] + r.value| ==> ([x] + r.value)[a] == r.value[a - 1];
    }
  }

  /**
   * A step keeps its token on the current line, and only the newline step
   * moves to the next line, consuming that newline.
   */
  lemma StepLines(s: seq<char>, i: nat, line: nat, column: nat)
    requires i < |s|
    ensures var r := StepAt(s, i, line, column);
      (r.Emitted? ==> r.item.1.line == line && r.line == line && Newlines(s[r.next..]) <= Newlines(s[i..])) &&
      (r.Skipped? ==> line <= r.line && r.line + Newlines(s[r.next..]) <= line + Newlines(s[i..]))
  {
    var r := StepAt(s, i, line, column);
    if !r.Failed? {
      NewlinesOfSuffix(s, i, i);
      NewlinesOfSuffix(s, i + 1, r.next);
    }
  }

  /**
   * The line of every token is the starting line plus at most the number
   * of newlines left in the input: only the main loop's newline step
   * advances the line.
   */
  lemma {:induction false} LexLines(s: seq<char>, i: nat, line: nat, column: nat)
    requires i <= |s|
    ensures var r := Lex(s, i, line, column);
      r.Ok? ==> LinesWithin(r.value, line, line + Newlines(s[i..]))
    decreases |s| - i
  {
    if i < |s| {
      StepLines(s, i, line, column);
      var high := line + Newlines(s[i..]);
      match StepAt(s, i, line, column)
      case Emitted(x, j, l, c) =>
        LexLines(s, j, l, c);
        WidenLinesWithin(Lex(s, j, l, c), l, l + Newlines(s[j..]), line, high);
        PrependLinesWithin(x, Lex(s, j, l, c), line, high);
      case Skipped(j, l, c) =>
        LexLines(s, j, l, c);
        WidenLinesWithin(Lex(s, j, l, c), l, l + Newlines(s[j..]), line, high);
      case Failed(_) =>
    }
  }

  /** A stretch without newlines leaves the count of newlines ahead unchanged. */
  lemma {:induction false} NewlinesOfRun(s: string, i: nat, k: nat)
    requires i <= k <= |s|
    requires forall j :: i <= j < k ==> s[j] != '\n'
    ensures Newlines(s[i..]) == Newlines(s[k..])
    decreases k - i
  {
    if i < k {
      NewlinesOfSuffix(s, i, i);
      NewlinesOfRun(s, i + 1, k);
    }
  }

  /**
   * A step that does not fail moves to the next line exactly as many times
   * as it consumes a newline: the line plus the newlines ahead is kept.
   */
  lemma StepKeepsLineCount(s: seq<char>, i: nat, line: nat, column: nat)
    requires i < |s|
    ensures var r := StepAt(s, i, line, column);
      (r.Emitted? ==> r.line + Newlines(s[r.next..]) == line + Newlines(s[i..])) &&
      (r.Skipped? ==> r.line + Newlines(s[r.next..]) == line + Newlines(s[i..]))
  {
    var r := StepAt(s, i, line, column);
    if !r.Failed? {
      if s[i] == '\n' {
        NewlinesOfSuffix(s, i, i);
      } else {
        assert forall j :: i <= j < r.next ==> s[j] != '\n';
        NewlinesOfRun(s, i, r.next);
      }
    }
  }

  /**
   * After a pass that does not fail, the line counter is the starting line
   * plus the number of newlines read: every newline outside a comment or
   * string is counted by the main loop, and none can occur inside them.
   */
  lemma {:induction false} LexEndLine(s: seq<char>, i: nat, line: nat, column: nat)
    requires i <= |s|
    ensures var r := LexEnd(s, i, line, column);
      r.Some? ==> r.value.0 == line + Newlines(s[i..])
    decreases |s| - i
  {
    if i == |s| {
      assert s[i..] == [];
    } else {
      StepKeepsLineCount(s, i, line, column);
      match StepAt(s, i, line, column)
      case Emitted(_, j, l, c) => LexEndLine(s, j, l, c);
      case Skipped(j, l, c) => LexEndLine(s, j, l, c);
      case Failed(_) =>
    }
  }
}
