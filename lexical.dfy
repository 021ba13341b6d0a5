/**
 * What one call of `scan_token` and one whole `scan_tokens` pass compute,
 * stated as functions of the source bytes and the cursor, together with the
 * properties the scanner promises about them. The class in `Scanner` is
 * proved to compute exactly these.
 */
module Lexical {
  import opened Wrappers
  import opened Ascii
  import opened Tokens
  import opened Utils

  /** One call of the error sink: the line and the message. */
  datatype Report = Report(line: nat, message: seq<byte>)

  /** The one message the scanner reports. */
  const UNTERMINATED_STRING: seq<byte> := Text("Unterminated string")

  /**
   * The outcome of one `scan_token` call started at a byte offset: the token
   * it returns (if any), where the cursor stops, the line counter afterwards
   * and the error it reports (if any).
   */
  datatype Scanned = Scanned(token: Option<Token>, next: nat, line: nat, error: Option<Report>)

  /** The outcome of scanning from an offset to the end: tokens, final line, reports. */
  datatype Lexed = Lexed(tokens: seq<Token>, line: nat, errors: seq<Report>)

  /** A token `scan_token` can return: never `EOF`, never a lexem, a literal exactly on strings. */
  predicate Emittable(t: Token)
  {
    t.kind != EOF && t.lexem.None? && (t.literal.Some? <==> t.kind == String)
  }

  /** The bytes `scan_token` dispatches on explicitly; every other byte is `Unknown`. */
  const DISPATCHED: set<byte> := {
    LEFT_PAREN, RIGHT_PAREN, COMMA, DOT, MINUS, PLUS, SEMICOLON, STAR,
    BANG, EQUAL, LESS, GREATER, SLASH,
    SPACE, CARRIAGE_RETURN, TAB, NEWLINE, QUOTE}

  /**
   * Where a line comment stops: the first line feed at or after `pos`, or the
   * end of input. The line feed itself is not part of the comment.
   */
  function LineEnd(s: seq<byte>, pos: nat): (e: nat)
    requires pos <= |s|
    ensures pos <= e <= |s|
    ensures e == |s| || s[e] == NEWLINE
    ensures forall i :: pos <= i < e ==> s[i] != NEWLINE
    decreases |s| - pos
  {
    if pos == |s| || s[pos] == NEWLINE then pos else LineEnd(s, pos + 1)
  }

  /** The offset of the first `"` at or after `pos`, if there is one. */
  function ClosingQuote(s: seq<byte>, pos: nat): (q: Option<nat>)
    requires pos <= |s|
    ensures q.Some? ==> pos <= q.value < |s| && s[q.value] == QUOTE
    ensures q.Some? ==> forall i :: pos <= i < q.value ==> s[i] != QUOTE
    ensures q.None? ==> forall i :: pos <= i < |s| ==> s[i] != QUOTE
    decreases |s| - pos
  {
    if pos == |s| then None
    else if s[pos] == QUOTE then Some(pos)
    else ClosingQuote(s, pos + 1)
  }

  /** A token of `kind` at `line`, the cursor at `next`, nothing reported. */
  function Emit(kind: TokenType, next: nat, line: nat): Scanned
  {
    Scanned(Some(WithKind(kind, line)), next, line, None)
  }

  /** No token, the cursor at `next`, the line counter at `line`, nothing reported. */
  function Skip(next: nat, line: nat): Scanned
  {
    Scanned(None, next, line, None)
  }

  /**
   * `match_or` after the byte at `pos`: the `matched` kind, consuming the
   * next byte too, when that byte exists and equals `expected`; else `otherwise`.
   */
  function Lookahead(s: seq<byte>, pos: nat, line: nat, expected: byte, matched: TokenType, otherwise: TokenType): Scanned
    requires pos < |s|
  {
    if pos + 1 < |s| && s[pos + 1] == expected then Emit(matched, pos + 2, line)
    else Emit(otherwise, pos + 1, line)
  }

  /**
   * The string sub-scan after an opening quote at `pos - 1`: with a closing
   * quote at `q`, a `String` token whose literal is the bytes strictly between
   * the quotes; without one, no token, the cursor at the end and one report.
   * Either way the line counter has counted the line feeds passed over.
   */
  function StringLiteral(s: seq<byte>, pos: nat, line: nat): Scanned
    requires pos <= |s|
  {
    match ClosingQuote(s, pos)
    case Some(q) =>
      var atQuote := line + LineFeeds(s, pos, q);
      Scanned(Some(DefaultToken().(kind := String, line := atQuote, literal := Some(s[pos..q]))),
              q + 1, atQuote, None)
    case None =>
      var atEnd := line + LineFeeds(s, pos, |s|);
      Scanned(None, |s|, atEnd, Some(Report(atEnd, UNTERMINATED_STRING)))
  }

  /** One `scan_token` call with the cursor at `pos` and the line counter at `line`. */
  function ScanStep(s: seq<byte>, pos: nat, line: nat): (r: Scanned)
    requires pos < |s|
    ensures pos < r.next <= |s|
    ensures r.token.Some? ==> Emittable(r.token.value)
    ensures r.error.Some? ==> r.token.None? && r.next == |s|
  {
    var c := s[pos];
    if c == LEFT_PAREN then Emit(LeftParen, pos + 1, line)
    else if c == RIGHT_PAREN then Emit(RightParen, pos + 1, line)
    else if c == COMMA then Emit(Comma, pos + 1, line)
    else if c == DOT then Emit(Dot, pos + 1, line)
    else if c == MINUS then Emit(Minus, pos + 1, line)
    else if c == PLUS then Emit(Plus, pos + 1, line)
    else if c == SEMICOLON then Emit(Semicolon, pos + 1, line)
    else if c == STAR then Emit(Star, pos + 1, line)
    else if c == BANG then Lookahead(s, pos, line, EQUAL, BangEqual, Bang)
    else if c == EQUAL then Lookahead(s, pos, line, EQUAL, EqualEqual, Equal)
    else if c == LESS then Lookahead(s, pos, line, EQUAL, LessEqual, Less)
    else if c == GREATER then Lookahead(s, pos, line, EQUAL, GreaterEqual, Greater)
    else if c == SLASH then
      if pos + 1 < |s| && s[pos + 1] == SLASH then Skip(LineEnd(s, pos + 2), line)
      else Emit(Slash, pos + 1, line)
    else if c == SPACE || c == CARRIAGE_RETURN || c == TAB then Skip(pos + 1, line)
    else if c == NEWLINE then Skip(pos + 1, line + 1)
    else if c == QUOTE then StringLiteral(s, pos + 1, line)
    else Emit(Unknown, pos + 1, line)
  }

  /** The `scan_tokens` loop from offset `pos` with the line counter at `line`, before the `EOF` token. */
  function Lex(s: seq<byte>, pos: nat, line: nat): (r: Lexed)
    requires pos <= |s|
    ensures forall i :: 0 <= i < |r.tokens| ==> Emittable(r.tokens[i])
    decreases |s| - pos
  {
    if pos == |s| then Lexed([], line, [])
    else
      var step := ScanStep(s, pos, line);
      var rest := Lex(s, step.next, step.line);
      Lexed(AsSeq(step.token) + rest.tokens, rest.line, AsSeq(step.error) + rest.errors)
  }

  /** The token sequence `scan_tokens` returns for a fresh scanner over `s`. */
  function Tokenize(s: seq<byte>): seq<Token>
  {
    var r := Lex(s, 0, 1);
    r.tokens + [WithKind(EOF, r.line)]
  }

  /** The reports a fresh scanner over `s` sends to the error sink. */
  function Errors(s: seq<byte>): seq<Report>
  {
    Lex(s, 0, 1).errors
  }

  // ---------------------------------------------------------------------------
  // Line counting

  /** The number of line feeds among `s[lo..hi]`, counted one byte at a time as the scanner does. */
  function LineFeeds(s: seq<byte>, lo: nat, hi: nat): nat
    requires lo <= hi <= |s|
    decreases hi - lo
  {
    if lo == hi then 0 else LineFeeds(s, lo, hi - 1) + (if s[hi - 1] == NEWLINE then 1 else 0)
  }

  /** Counting one byte at a time agrees with the number of line feeds in the slice. */
  lemma {:induction false} LineFeedsCount(s: seq<byte>, lo: nat, hi: nat)
    requires lo <= hi <= |s|
    ensures LineFeeds(s, lo, hi) == Newlines(s[lo..hi])
    decreases hi - lo
  {
    if lo < hi {
      LineFeedsCount(s, lo, hi - 1);
      assert s[lo..hi] == s[lo..hi - 1] + [s[hi - 1]];
      assert multiset(s[lo..hi]) == multiset(s[lo..hi - 1]) + multiset{s[hi - 1]};
    } else {
      assert s[lo..hi] == [];
    }
  }

  /** Counts over adjacent ranges add up. */
  lemma {:induction false} LineFeedsSplit(s: seq<byte>, i: nat, j: nat, k: nat)
    requires i <= j <= k <= |s|
    ensures LineFeeds(s, i, k) == LineFeeds(s, i, j) + LineFeeds(s, j, k)
    decreases k - j
  {
    if j < k {
      LineFeedsSplit(s, i, j, k - 1);
    }
  }

  /** A range none of whose bytes is a line feed counts none. */
  lemma {:induction false} NoLineFeeds(s: seq<byte>, i: nat, j: nat)
    requires i <= j <= |s|
    requires forall k :: i <= k < j ==> s[k] != NEWLINE
    ensures LineFeeds(s, i, j) == 0
    decreases j - i
  {
    if i < j {
      NoLineFeeds(s, i, j - 1);
    }
  }

  /** The line counter rises by exactly the number of line feeds one step consumes. */
  lemma StepLine(s: seq<byte>, pos: nat, line: nat)
    requires pos < |s|
    ensures ScanStep(s, pos, line).line == line + LineFeeds(s, pos, ScanStep(s, pos, line).next)
  {
    var c := s[pos];
    if c == QUOTE {
      StringStepLine(s, pos, line);
    } else if c == NEWLINE {
      assert LineFeeds(s, pos, pos + 1) == 1;
    } else if c == SLASH && pos + 1 < |s| && s[pos + 1] == SLASH {
      NoLineFeeds(s, pos, LineEnd(s, pos + 2));
    } else {
      ShortStepLine(s, pos, line);
    }
  }

  /** The string sub-scan counts the line feeds it passes over. */
  lemma StringStepLine(s: seq<byte>, pos: nat, line: nat)
    requires pos < |s| && s[pos] == QUOTE
    ensures ScanStep(s, pos, line).line == line + LineFeeds(s, pos, ScanStep(s, pos, line).next)
  {
    var q := ClosingQuote(s, pos + 1);
    if q.Some? {
      SkipEnds(s, pos, q.value + 1);
    } else {
      SkipFirst(s, pos, |s|);
    }
  }

  /** Dropping a first byte that is not a line feed keeps the count. */
  lemma SkipFirst(s: seq<byte>, i: nat, j: nat)
    requires i < j <= |s| && s[i] != NEWLINE
    ensures LineFeeds(s, i, j) == LineFeeds(s, i + 1, j)
  {
    LineFeedsSplit(s, i, i + 1, j);
    assert LineFeeds(s, i, i + 1) == 0;
  }

  /** Dropping a first and a last byte, neither a line feed, keeps the count. */
  lemma SkipEnds(s: seq<byte>, i: nat, j: nat)
    requires i + 1 < j <= |s| && s[i] != NEWLINE && s[j - 1] != NEWLINE
    ensures LineFeeds(s, i, j) == LineFeeds(s, i + 1, j - 1)
  {
    SkipFirst(s, i, j);
  }

  /** Every other step consumes one or two bytes, neither of them a line feed, and keeps the line. */
  lemma ShortStepLine(s: seq<byte>, pos: nat, line: nat)
    requires pos < |s| && s[pos] !in {QUOTE, NEWLINE}
    requires !(s[pos] == SLASH && pos + 1 < |s| && s[pos + 1] == SLASH)
    ensures ScanStep(s, pos, line).line == line + LineFeeds(s, pos, ScanStep(s, pos, line).next)
  {
    var r := ScanStep(s, pos, line);
    assert r.line == line && (r.next == pos + 1 || (r.next == pos + 2 && s[pos + 1] == EQUAL));
    NoLineFeeds(s, pos, r.next);
  }

  /** A whole pass ends with the line counter raised by the number of line feeds left in the input. */
  lemma {:induction false} LexLine(s: seq<byte>, pos: nat, line: nat)
    requires pos <= |s|
    ensures Lex(s, pos, line).line == line + LineFeeds(s, pos, |s|)
    decreases |s| - pos
  {
    if pos < |s| {
      var step := ScanStep(s, pos, line);
      StepLine(s, pos, line);
      LexLine(s, step.next, step.line);
      LineFeedsSplit(s, pos, step.next, |s|);
    }
  }

  // ---------------------------------------------------------------------------
  // The whole token sequence

  /**
   * `scan_tokens` on a fresh scanner: the result ends with one `EOF` token
   * whose line is one more than the number of line feeds in the source, no
   * earlier token is `EOF`, and every earlier token is one `scan_token` can return.
   */
  lemma TokenizeEndsWithOneEof(s: seq<byte>)
    ensures var ts := Tokenize(s);
      && |ts| >= 1
      && ts[|ts| - 1] == WithKind(EOF, 1 + Newlines(s))
      && (forall i :: 0 <= i < |ts| - 1 ==> Emittable(ts[i]))
      && (forall i :: 0 <= i < |ts| ==> (ts[i].kind == EOF <==> i == |ts| - 1))
  {
    LexLine(s, 0, 1);
    LineFeedsCount(s, 0, |s|);
    assert s[0..|s|] == s;
    var ts := Tokenize(s);
    assert forall i :: 0 <= i < |ts| - 1 ==> ts[i] == Lex(s, 0, 1).tokens[i];
  }

  /** The error sink is called at most once per pass, with the unterminated-string message at the final line. */
  lemma {:induction false} LexReportsAtMostOnce(s: seq<byte>, pos: nat, line: nat)
    requires pos <= |s|
    ensures var r := Lex(s, pos, line);
      |r.errors| <= 1 && forall e :: e in r.errors ==> e == Report(r.line, UNTERMINATED_STRING)
    decreases |s| - pos
  {
    if pos < |s| {
      var step := ScanStep(s, pos, line);
      LexReportsAtMostOnce(s, step.next, step.line);
      if step.error.Some? {
        assert step.next == |s|;
        assert step.error.value == Report(step.line, UNTERMINATED_STRING) by {
          assert s[pos] == QUOTE;
        }
      }
    }
  }

  /** Token lines never decrease along the sequence and lie between the starting and the final line. */
  lemma {:induction false} LexLinesOrdered(s: seq<byte>, pos: nat, line: nat)
    requires pos <= |s|
    ensures var r := Lex(s, pos, line);
      && line <= r.line
      && (forall i :: 0 <= i < |r.tokens| ==> line <= r.tokens[i].line <= r.line)
      && (forall i, j :: 0 <= i < j < |r.tokens| ==> r.tokens[i].line <= r.tokens[j].line)
    decreases |s| - pos
  {
    if pos < |s| {
      var step := ScanStep(s, pos, line);
      StepLine(s, pos, line);
      LexLinesOrdered(s, step.next, step.line);
      if step.token.Some? {
        assert step.token.value.line == step.line by {
          StepTokenAtLine(s, pos, line);
        }
      }
    }
  }

  /** A token `scan_token` returns carries the line counter as it stands after the step. */
  lemma StepTokenAtLine(s: seq<byte>, pos: nat, line: nat)
    requires pos < |s|
    ensures var r := ScanStep(s, pos, line); r.token.Some? ==> r.token.value.line == r.line
  {
  }

  // ---------------------------------------------------------------------------
  // One step, case by case

  /**
   * `!`, `=`, `<` and `>` followed by `=` yield the two-byte kind and consume
   * two bytes; otherwise the one-byte kind and one byte.
   */
  lemma OperatorFolding(s: seq<byte>, pos: nat, line: nat)
    requires pos < |s| && s[pos] in {BANG, EQUAL, LESS, GREATER}
    ensures var r := ScanStep(s, pos, line);
      var two := pos + 1 < |s| && s[pos + 1] == EQUAL;
      && r.next == (if two then pos + 2 else pos + 1)
      && r.line == line && r.error.None? && r.token.Some?
      && r.token.value == WithKind(r.token.value.kind, line)
      && (s[pos] == BANG ==> r.token.value.kind == if two then BangEqual else Bang)
      && (s[pos] == EQUAL ==> r.token.value.kind == if two then EqualEqual else Equal)
      && (s[pos] == LESS ==> r.token.value.kind == if two then LessEqual else Less)
      && (s[pos] == GREATER ==> r.token.value.kind == if two then GreaterEqual else Greater)
  {
  }

  /** A `/` not followed by `/` is a `Slash` token of one byte. */
  lemma LoneSlash(s: seq<byte>, pos: nat, line: nat)
    requires pos < |s| && s[pos] == SLASH && !(pos + 1 < |s| && s[pos + 1] == SLASH)
    ensures ScanStep(s, pos, line) == Scanned(Some(WithKind(Slash, line)), pos + 1, line, None)
  {
  }

  /**
   * `//` consumes everything up to, not including, the next line feed (or to
   * the end of input) and yields no token; the line counter does not move.
   */
  lemma LineComment(s: seq<byte>, pos: nat, line: nat)
    requires pos + 1 < |s| && s[pos] == SLASH && s[pos + 1] == SLASH
    ensures var r := ScanStep(s, pos, line);
      && r.token.None? && r.error.None? && r.line == line
      && pos + 2 <= r.next <= |s|
      && (r.next == |s| || s[r.next] == NEWLINE)
      && (forall i :: pos <= i < r.next ==> s[i] != NEWLINE)
  {
  }

  /** Space, carriage return, tab and line feed yield no token and consume one byte; only the line feed counts a line. */
  lemma Whitespace(s: seq<byte>, pos: nat, line: nat)
    requires pos < |s| && s[pos] in {SPACE, CARRIAGE_RETURN, TAB, NEWLINE}
    ensures ScanStep(s, pos, line) == Skip(pos + 1, if s[pos] == NEWLINE then line + 1 else line)
  {
  }

  /**
   * A string with a closing quote at `q` (the first one after the opening
   * quote) yields one `String` token whose literal is exactly the bytes
   * between the quotes, at the line reached at the closing quote.
   */
  lemma TerminatedString(s: seq<byte>, pos: nat, line: nat, q: nat)
    requires pos < q < |s| && s[pos] == QUOTE && s[q] == QUOTE
    requires forall i :: pos < i < q ==> s[i] != QUOTE
    ensures var r := ScanStep(s, pos, line);
      && r.next == q + 1
      && r.line == line + Newlines(s[pos + 1..q])
      && r.error.None?
      && r.token == Some(Token(String, None, Some(s[pos + 1..q]), r.line))
  {
    LineFeedsCount(s, pos + 1, q);
  }

  /**
   * A string with no closing quote yields no token, leaves the cursor at the
   * end of input and reports "Unterminated string" once, at the line reached there.
   */
  lemma UnterminatedString(s: seq<byte>, pos: nat, line: nat)
    requires pos < |s| && s[pos] == QUOTE
    requires forall i :: pos < i < |s| ==> s[i] != QUOTE
    ensures var r := ScanStep(s, pos, line);
      && r.token.None? && r.next == |s|
      && r.line == line + Newlines(s[pos + 1..])
      && r.error == Some(Report(r.line, UNTERMINATED_STRING))
  {
    LineFeedsCount(s, pos + 1, |s|);
    assert s[pos + 1..] == s[pos + 1..|s|];
  }

  /** Each of the eight punctuation bytes yields its own kind and consumes one byte. */
  lemma Punctuation(s: seq<byte>, pos: nat, line: nat)
    requires pos < |s| && s[pos] in {LEFT_PAREN, RIGHT_PAREN, COMMA, DOT, MINUS, PLUS, SEMICOLON, STAR}
    ensures var r := ScanStep(s, pos, line);
      && r.next == pos + 1 && r.line == line && r.error.None? && r.token.Some?
      && r.token.value == WithKind(r.token.value.kind, line)
      && (s[pos] == LEFT_PAREN ==> r.token.value.kind == LeftParen)
      && (s[pos] == RIGHT_PAREN ==> r.token.value.kind == RightParen)
      && (s[pos] == COMMA ==> r.token.value.kind == Comma)
      && (s[pos] == DOT ==> r.token.value.kind == Dot)
      && (s[pos] == MINUS ==> r.token.value.kind == Minus)
      && (s[pos] == PLUS ==> r.token.value.kind == Plus)
      && (s[pos] == SEMICOLON ==> r.token.value.kind == Semicolon)
      && (s[pos] == STAR ==> r.token.value.kind == Star)
  {
  }

  /** Any byte outside the dispatch table yields exactly one `Unknown` token and consumes one byte. */
  lemma UnknownByte(s: seq<byte>, pos: nat, line: nat)
    requires pos < |s| && s[pos] !in DISPATCHED
    ensures ScanStep(s, pos, line) == Scanned(Some(WithKind(Unknown, line)), pos + 1, line, None)
  {
  }

  /** Digits, letters and `_` are not dispatched: this scanner has no number or identifier sub-scan. */
  lemma AlphanumericIsUnknown(s: seq<byte>, pos: nat, line: nat)
    requires pos < |s| && IsAlphanumeric(s[pos])
    ensures ScanStep(s, pos, line) == Scanned(Some(WithKind(Unknown, line)), pos + 1, line, None)
  {
    AlphanumericNotDispatched(s[pos]);
    UnknownByte(s, pos, line);
  }

  lemma AlphanumericNotDispatched(c: byte)
    requires IsAlphanumeric(c)
    ensures c !in DISPATCHED
  {
    assert c >= '0' as int && (c <= '9' as int || c >= 'A' as int);
  }
}
