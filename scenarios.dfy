/** Whole-input scans of small sources, worked out from the model. */
module Scenarios {
  import opened Wrappers
  import opened Ascii
  import opened Tokens
  import opened Lexical

  /** `!=` folds into one `BangEqual`. */
  lemma BangEqualFolds(s: seq<byte>)
    requires s == [BANG, EQUAL]
    ensures Tokenize(s) == [WithKind(BangEqual, 1), WithKind(EOF, 1)]
  {
    assert ScanStep(s, 0, 1) == Emit(BangEqual, 2, 1);
    assert Lex(s, 2, 1) == Lexed([], 1, []);
    assert Lex(s, 0, 1).tokens == [WithKind(BangEqual, 1)];
  }

  /** A lone `!` at the end of input is a `Bang`. */
  lemma LoneBang(s: seq<byte>)
    requires s == [BANG]
    ensures Tokenize(s) == [WithKind(Bang, 1), WithKind(EOF, 1)]
  {
    assert ScanStep(s, 0, 1) == Emit(Bang, 1, 1);
    assert Lex(s, 1, 1) == Lexed([], 1, []);
  }

  /** A string spanning two lines is one token at line 2, and the scan ends on line 2. */
  lemma MultiLineString(s: seq<byte>)
    requires s == [QUOTE, 97, NEWLINE, 98, QUOTE]
    ensures Tokenize(s) == [Token(String, None, Some([97, NEWLINE, 98]), 2), WithKind(EOF, 2)]
  {
    var literal := Token(String, None, Some([97, NEWLINE, 98]), 2);
    MultiLineStep(s);
    assert Lex(s, 5, 2) == Lexed([], 2, []);
    assert Lex(s, 0, 1) == Lexed([literal], 2, []);
  }

  lemma MultiLineStep(s: seq<byte>)
    requires s == [QUOTE, 97, NEWLINE, 98, QUOTE]
    ensures ScanStep(s, 0, 1) == Scanned(Some(Token(String, None, Some([97, NEWLINE, 98]), 2)), 5, 2, None)
  {
    assert ClosingQuote(s, 1) == Some(4) by {
      assert ClosingQuote(s, 4) == Some(4);
      assert ClosingQuote(s, 3) == Some(4);
      assert ClosingQuote(s, 2) == Some(4);
    }
    assert LineFeeds(s, 1, 4) == 1 by {
      assert LineFeeds(s, 1, 1) == 0;
      assert LineFeeds(s, 1, 2) == 0;
      assert LineFeeds(s, 1, 3) == 1;
    }
    assert s[1..4] == [97, NEWLINE, 98];
  }

  /** An unterminated string yields only `EOF` and one report at line 1. */
  lemma UnterminatedAtEnd(s: seq<byte>)
    requires s == [QUOTE, 97, 98]
    ensures Tokenize(s) == [WithKind(EOF, 1)]
    ensures Errors(s) == [Report(1, UNTERMINATED_STRING)]
  {
    assert ClosingQuote(s, 1) == None by {
      assert ClosingQuote(s, 3) == None;
      assert ClosingQuote(s, 2) == None;
    }
    assert LineFeeds(s, 1, 3) == 0 by {
      assert LineFeeds(s, 1, 1) == 0;
      assert LineFeeds(s, 1, 2) == 0;
    }
    assert ScanStep(s, 0, 1) == Scanned(None, 3, 1, Some(Report(1, UNTERMINATED_STRING)));
    assert Lex(s, 3, 1) == Lexed([], 1, []);
  }

  /** `1 // c`: a digit is `Unknown` here, and the comment adds nothing. */
  lemma CommentAfterDigit(s: seq<byte>)
    requires s == [49, SPACE, SLASH, SLASH, SPACE, 99]
    ensures Tokenize(s) == [WithKind(Unknown, 1), WithKind(EOF, 1)]
  {
    assert ScanStep(s, 0, 1) == Emit(Unknown, 1, 1);
    assert ScanStep(s, 1, 1) == Skip(2, 1);
    CommentStep(s);
    assert Lex(s, 6, 1) == Lexed([], 1, []);
    assert Lex(s, 2, 1) == Lexed([], 1, []);
    assert Lex(s, 1, 1) == Lexed([], 1, []);
  }

  lemma CommentStep(s: seq<byte>)
    requires s == [49, SPACE, SLASH, SLASH, SPACE, 99]
    ensures ScanStep(s, 2, 1) == Skip(6, 1)
  {
    assert LineEnd(s, 4) == 6 by {
      assert LineEnd(s, 6) == 6;
      assert LineEnd(s, 5) == 6;
    }
  }
}
