/**
 * The scanner of `src/scanner.rs`: a cursor (`line`, `start`, `current`) over
 * a read-only byte buffer. The scanning methods (`ScanString`, `SkipComment`,
 * `StringToken`, `ScanToken`, `ScanTokens`) are proved to do what the matching
 * function of `Lexical` describes; the primitives carry their own contracts.
 */
module Scanner {
  import opened Wrappers
  import opened Ascii
  import opened Tokens
  import opened Lexical

  class Scanner {
    /** The source buffer, borrowed read-only. */
    const source: seq<byte>
    /** The line counter: 1 plus the line feeds consumed so far. */
    var line: nat
    /** Where the token being recognised starts. */
    var start: nat
    /** The next unread byte. */
    var current: nat
    /** Every call the scanner has made to the external error sink, in order. */
    ghost var errors: seq<Report>

    /** The cursor stays inside the buffer. */
    ghost predicate Valid()
      reads this
    {
      start <= current <= |source|
    }

    /** `Scanner::new`: line 1, both offsets at 0. */
    constructor (source: seq<byte>)
      ensures Valid()
      ensures this.source == source && line == 1 && start == 0 && current == 0
      ensures errors == []
    {
      this.source := source;
      line := 1;
      start := 0;
      current := 0;
      errors := [];
    }

    /** `is_at_end`: no byte is left to read. */
    function IsAtEnd(): (b: bool)
      reads this
      ensures b <==> !(current < |source|)
    {
      current >= |source|
    }

    /** `peek`: the next unread byte, or 0 at the end of input. */
    function Peek(): (b: byte)
      reads this
      ensures current < |source| ==> b == source[current]
      ensures current >= |source| ==> b == NUL
    {
      if IsAtEnd() then NUL else source[current]
    }

    /** `create_token`: a token of `kind` at the current line, no lexem, no literal. */
    function CreateToken(kind: TokenType): (t: Token)
      reads this
      ensures t.kind == kind && t.line == line && t.lexem.None? && t.literal.None?
    {
      WithKind(kind, line)
    }

    /** `advance`: returns the next byte and moves past it; only called when a byte is left. */
    method Advance() returns (ch: byte)
      requires current < |source|
      modifies this`current
      ensures ch == source[old(current)] && current == old(current) + 1
    {
      ch := source[current];
      current := current + 1;
    }

    /**
     * `match_next`: consumes the next byte exactly when there is one and it
     * equals `expected`; otherwise changes nothing.
     */
    method MatchNext(expected: byte) returns (matched: bool)
      requires Valid()
      modifies this`current
      ensures Valid()
      ensures matched <==> old(current) < |source| && source[old(current)] == expected
      ensures current == if matched then old(current) + 1 else old(current)
    {
      if IsAtEnd() || source[current] != expected {
        return false;
      }
      current := current + 1;
      return true;
    }

    /** `match_or`: the `one` kind if the next byte is `next` (consumed), else the `two` kind. */
    method MatchOr(next: byte, one: TokenType, two: TokenType) returns (t: Token)
      requires Valid()
      modifies this`current
      ensures Valid()
      ensures var matched := old(current) < |source| && source[old(current)] == next;
        && t == WithKind(if matched then one else two, line)
        && current == if matched then old(current) + 1 else old(current)
    {
      var matched := MatchNext(next);
      var kind := if matched then one else two;
      t := WithKind(kind, line);
    }

    /**
     * `scan_string`, entered just after the opening quote at `start`: reads up
     * to the closing quote, counting line feeds, and returns the bytes between
     * the quotes; at end of input returns nothing.
     */
    method ScanString() returns (value: Option<seq<byte>>)
      requires Valid() && current == start + 1
      modifies this`current, this`line
      ensures Valid()
      ensures match ClosingQuote(source, old(current))
        case Some(q) =>
          value == Some(source[start + 1..q]) && current == q + 1
          && line == old(line) + LineFeeds(source, old(current), q)
        case None =>
          value == None && current == |source|
          && line == old(line) + LineFeeds(source, old(current), |source|)
    {
      ghost var from := current;
      while Peek() != QUOTE && !IsAtEnd()
        invariant from <= current <= |source|
        invariant ClosingQuote(source, current) == ClosingQuote(source, from)
        invariant line == old(line) + LineFeeds(source, from, current)
        decreases |source| - current
      {
        if Peek() == NEWLINE {
          line := line + 1;
        }
        var _ := Advance();
      }

      if IsAtEnd() {
        return None;
      }

      // The closing quote.
      var _ := Advance();

      value := Some(source[start + 1..current - 1]);
    }

    /** The body of a `//` comment: advances up to, not over, the next line feed or to the end. */
    method SkipComment()
      requires Valid()
      modifies this`current
      ensures Valid() && current == LineEnd(source, old(current))
    {
      while Peek() != NEWLINE && !IsAtEnd()
        invariant old(current) <= current <= |source|
        invariant LineEnd(source, current) == LineEnd(source, old(current))
        decreases |source| - current
      {
        var _ := Advance();
      }
    }

    /**
     * The `"` arm of `scan_token`: a `String` token carrying the bytes between
     * the quotes, or, at end of input, no token and one report of
     * "Unterminated string" at the line reached.
     */
    method StringToken() returns (t: Option<Token>)
      requires Valid() && current == start + 1
      modifies this`current, this`line, this`errors
      ensures Valid()
      ensures var r := StringLiteral(source, old(current), old(line));
        t == r.token && current == r.next && line == r.line
        && errors == old(errors) + AsSeq(r.error)
    {
      var value := ScanString();
      if value.Some? {
        t := Some(DefaultToken().(kind := String, line := line, literal := Some(value.value)));
      } else {
        errors := errors + [Report(line, UNTERMINATED_STRING)];
        t := None;
      }
    }

    /**
     * `scan_token`: consumes the byte at `current` (with `start` already set
     * there) and whatever belongs to the same token, as `ScanStep` describes;
     * an unterminated string is reported to the error sink.
     */
    method ScanToken() returns (t: Option<Token>)
      requires Valid() && start == current < |source|
      modifies this`current, this`line, this`errors
      ensures Valid()
      ensures var r := ScanStep(source, old(current), old(line));
        t == r.token && current == r.next && line == r.line
        && errors == old(errors) + AsSeq(r.error)
    {
      var ch := Advance();
      if ch == LEFT_PAREN {
        t := Some(CreateToken(LeftParen));
      } else if ch == RIGHT_PAREN {
        t := Some(CreateToken(RightParen));
      } else if ch == COMMA {
        t := Some(CreateToken(Comma));
      } else if ch == DOT {
        t := Some(CreateToken(Dot));
      } else if ch == MINUS {
        t := Some(CreateToken(Minus));
      } else if ch == PLUS {
        t := Some(CreateToken(Plus));
      } else if ch == SEMICOLON {
        t := Some(CreateToken(Semicolon));
      } else if ch == STAR {
        t := Some(CreateToken(Star));
      } else if ch == BANG {
        var token := MatchOr(EQUAL, BangEqual, Bang);
        t := Some(token);
      } else if ch == EQUAL {
        var token := MatchOr(EQUAL, EqualEqual, Equal);
        t := Some(token);
      } else if ch == LESS {
        var token := MatchOr(EQUAL, LessEqual, Less);
        t := Some(token);
      } else if ch == GREATER {
        var token := MatchOr(EQUAL, GreaterEqual, Greater);
        t := Some(token);
      } else if ch == SLASH {
        // A comment or a forward slash.
        var comment := MatchNext(SLASH);
        if comment {
          SkipComment();
          return None;
        } else {
          t := Some(CreateToken(Slash));
        }
      } else if ch == SPACE || ch == CARRIAGE_RETURN || ch == TAB {
        return None;
      } else if ch == NEWLINE {
        line := line + 1;
        return None;
      } else if ch == QUOTE {
        t := StringToken();
      } else {
        t := Some(WithKind(Unknown, line));
      }
    }

    /**
     * `scan_tokens`: scans from the cursor to the end of input, then appends
     * one `EOF` token at the final line. The result is `Lex` of the remaining
     * input followed by that token. `start` ends where the last `scan_token`
     * began; nothing reads it afterwards, so it is left unstated.
     */
    method ScanTokens() returns (tokens: seq<Token>)
      requires Valid()
      modifies this`current, this`line, this`start, this`errors
      ensures Valid() && current == |source|
      ensures var r := Lex(source, old(current), old(line));
        tokens == r.tokens + [WithKind(EOF, r.line)] && line == r.line
        && errors == old(errors) + r.errors
    {
      ghost var whole := Lex(source, current, line);
      tokens := [];
      while !IsAtEnd()
        invariant Valid()
        invariant tokens + Lex(source, current, line).tokens == whole.tokens
        invariant Lex(source, current, line).line == whole.line
        invariant errors + Lex(source, current, line).errors == old(errors) + whole.errors
        decreases |source| - current
      {
        start := current;
        ghost var pos, lineBefore, tokensBefore, errorsBefore := current, line, tokens, errors;
        var token := ScanToken();
        tokens := tokens + AsSeq(token);
        LexResumes(source, pos, lineBefore, tokensBefore, errorsBefore, tokens, errors);
      }
      tokens := tokens + [WithKind(EOF, line)];
    }
  }

  /**
   * One turn of the `scan_tokens` loop keeps its invariant: what was collected
   * after the step, followed by the rest of the pass, is what was collected
   * before it followed by the pass from before it.
   */
  lemma LexResumes(s: seq<byte>, pos: nat, line: nat, tokens: seq<Token>, errors: seq<Report>,
                   tokens': seq<Token>, errors': seq<Report>)
    requires pos < |s|
    requires tokens' == tokens + AsSeq(ScanStep(s, pos, line).token)
    requires errors' == errors + AsSeq(ScanStep(s, pos, line).error)
    ensures var step := ScanStep(s, pos, line);
      var rest := Lex(s, step.next, step.line);
      && tokens' + rest.tokens == tokens + Lex(s, pos, line).tokens
      && errors' + rest.errors == errors + Lex(s, pos, line).errors
      && rest.line == Lex(s, pos, line).line
  {
    var step := ScanStep(s, pos, line);
    var rest := Lex(s, step.next, step.line);
    LexStep(s, pos, line);
    Regroup(tokens, AsSeq(step.token), rest.tokens);
    Regroup(errors, AsSeq(step.error), rest.errors);
  }

  lemma Regroup<T>(a: seq<T>, b: seq<T>, c: seq<T>)
    ensures (a + b) + c == a + (b + c)
  {
  }

  /** `Lex` unfolded once. */
  lemma LexStep(s: seq<byte>, pos: nat, line: nat)
    requires pos < |s|
    ensures var step := ScanStep(s, pos, line);
      var rest := Lex(s, step.next, step.line);
      Lex(s, pos, line) == Lexed(AsSeq(step.token) + rest.tokens, rest.line, AsSeq(step.error) + rest.errors)
  {
  }

  /** What `run` does with a source text: a fresh scanner, one `scan_tokens` call. */
  method ScanSource(source: seq<byte>) returns (tokens: seq<Token>)
    ensures tokens == Tokenize(source)
  {
    var scanner := new Scanner(source);
    tokens := scanner.ScanTokens();
  }
}
