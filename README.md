# rlox scanner — a Dafny model

This project models the lexer of `rlox`, a Rust implementation of the Lox
scripting language, at the stage where only the scanner exists. The scanner
keeps a cursor (`line`, `start`, `current`) over a read-only byte buffer. It
produces a sequence of tokens and finishes with one `EOF` token. It reports
an unterminated string literal to an external error sink.

Layout:

- `wrappers.dfy` (`Wrappers`): the `Option` type.
- `ascii.dfy` (`Ascii`): the `byte` type, the ASCII codes the scanner dispatches on, and `Newlines`, the number of line feeds in a byte sequence.
- `utils.dfy` (`Utils`): the three ASCII classifiers of `src/utils.rs`, each checked against an explicit list of characters.
- `token.dfy` (`Tokens`): `TokenType`, `Token`, their defaults, and `Display`.
- `lexical.dfy` (`Lexical`): the pure specification of the scanner. `ScanStep` is one `scan_token` call. `Lex` is the `scan_tokens` loop. `Tokenize` is a whole scan on a fresh scanner. `LineEnd` and `ClosingQuote` give the stopping points of the comment and string sub-scans. This module also holds the lemmas about these functions.
- `scanner.dfy` (`Scanner`): the class `Scanner`, whose methods mirror `src/scanner.rs` one by one. `ScanString`, `SkipComment`, `StringToken`, `ScanToken` and `ScanTokens` are proved to compute what `Lexical` specifies. The primitives (`Advance`, `MatchNext`, `MatchOr`, `IsAtEnd`, `Peek`, `CreateToken` and the constructor) carry their own contracts, stated directly on `source` and the cursor.
- `scenarios.dfy` (`Scenarios`): whole scans of a few small inputs.

Bytes are integers in `0..256`. `lexem` and `literal` hold the raw bytes of
the Rust `String`s. The error sink is modelled as a ghost log, `errors`, of
`(line, message)` reports on the scanner.

## Model

| member | source | states |
|---|---|---|
| `Utils.DigitsAreListed` | src/utils.rs:1-3 | `is_digit` holds exactly for the codes of the characters `0` to `9`, written out as a list |
| `Utils.AlphaIsListed` | src/utils.rs:5-7 | `is_alpha` holds exactly for the codes of the 26 lower-case letters, the 26 upper-case letters and `_`, written out as a list |
| `Utils.AlphanumericIsListed` | src/utils.rs:9-11 | `is_alphanumeric` holds exactly for the union of the digit list and the alpha list |
| `Utils.DigitsAreNotAlpha` | src/utils.rs:1-7 | no byte is both a digit and alpha; `_` is alpha and not a digit |
| `Utils.IsDigit` | src/utils.rs:1-3 | the body is the source's range test `'0' <= c <= '9'`; its property is stated by `Utils.DigitsAreListed` and `Utils.DigitsAreNotAlpha` |
| `Utils.IsAlpha` | src/utils.rs:5-7 | the body is the source's three-way test; its property is stated by `Utils.AlphaIsListed` and `Utils.DigitsAreNotAlpha` |
| `Utils.IsAlphanumeric` | src/utils.rs:9-11 | the body is the source's `is_digit || is_alpha`; its property is stated by `Utils.AlphanumericIsListed` |
| `Tokens.WithKind` | src/scanner.rs:105-109 | the literal `Token { kind, line, ..Default::default() }` has the given kind and line, and no lexem or literal |
| `Tokens.DefaultTokenType` | src/token.rs:79-80 | the body is the `#[default]` variant `Unknown`; stated by `Tokens.DefaultTokenIsBareUnknown` |
| `Tokens.DefaultToken` | src/token.rs:4-10 | the body is the derived default, every field at its own default; stated by `Tokens.DefaultTokenIsBareUnknown` |
| `Tokens.DefaultTokenIsBareUnknown` | src/token.rs:4-10 | the default token has kind `Unknown` (the `#[default]` variant), no lexem, no literal and line 0; its rendering is exactly `Unknown` |
| `Tokens.Display` | src/token.rs:12-25 | the rendering starts with the kind name; when a lexem is present, a space and the lexem come right after the name; when a literal is present, the output ends with a space and the literal (so after any lexem); its length is the name plus each present field plus one space each; with neither field it is exactly the kind name |
| `Lexical.LineEnd` | src/scanner.rs:62-64 | the comment loop stops at the first line feed at or after its start, or at the end of input; no byte it passes over is a line feed |
| `Lexical.ClosingQuote` | src/scanner.rs:128-138 | the string loop finds the first `"` at or after its start, or finds that none is left before the end of input |
| `Lexical.ScanStep` | src/scanner.rs:41-100 | one `scan_token` call consumes at least one byte and never goes past the end; any token it returns is not `EOF`, has no lexem, and has a literal exactly when it is a `String`; a report comes with no token and the cursor at the end |
| `Lexical.Lex` | src/scanner.rs:24-30 | every token the `scan_tokens` loop collects has the shape just described |
| `Lexical.Tokenize` | src/scanner.rs:12-39 | the body is `scan_tokens` on a fresh scanner (line 1, cursor 0): `Lex` followed by one `EOF`; its properties are stated by `Lexical.TokenizeEndsWithOneEof` and `Scanner.ScanSource` |
| `Lexical.Errors` | src/scanner.rs:86-89 | the body is the report log of that same scan; its property is stated by `Lexical.LexReportsAtMostOnce` |
| `Lexical.StepLine` | src/scanner.rs:73-76 | one `scan_token` call raises `line` by exactly the number of line feeds among the bytes it consumed |
| `Lexical.StringStepLine` | src/scanner.rs:128-131 | inside a string, every line feed passed over raises `line` by one, up to the closing quote or the end of input |
| `Lexical.LexLine` | src/scanner.rs:21-30 | after the loop, `line` equals its starting value plus the number of line feeds in the rest of the input |
| `Lexical.TokenizeEndsWithOneEof` | src/scanner.rs:21-39 | on a fresh scanner the result is non-empty; the last token is `EOF` with line 1 + the number of `\n` bytes in the source; no other token is `EOF`; every other token is one `scan_token` can return |
| `Lexical.LexReportsAtMostOnce` | src/scanner.rs:86-89 | a scan reports at most once, and any report is "Unterminated string" at the scan's final line |
| `Lexical.LexLinesOrdered` | src/scanner.rs:24-29 | token lines never decrease along the result and lie between the starting line and the final line |
| `Lexical.OperatorFolding` | src/scanner.rs:54-57 | `!`, `=`, `<`, `>` followed by `=` give `BangEqual`/`EqualEqual`/`LessEqual`/`GreaterEqual` and consume two bytes; otherwise they give `Bang`/`Equal`/`Less`/`Greater` and consume one byte |
| `Lexical.Punctuation` | src/scanner.rs:45-52 | each of `( ) , . - + ; *` gives its own kind at the current line and consumes one byte |
| `Lexical.LoneSlash` | src/scanner.rs:66-68 | a `/` not followed by `/` gives one `Slash` token and consumes one byte |
| `Lexical.LineComment` | src/scanner.rs:60-65 | `//` consumes up to, not including, the next line feed or the end of input; it gives no token, no report and no line change |
| `Lexical.Whitespace` | src/scanner.rs:71-76 | space, `\r`, `\t` and `\n` give no token and consume one byte; only `\n` raises the line |
| `Lexical.TerminatedString` | src/scanner.rs:78-85 | a string closed by the first following `"` gives one `String` token whose literal is exactly the bytes between the quotes, with no escape processing; its line is the line at the closing quote, which is the old line plus the line feeds inside; the cursor ends just past the closing quote |
| `Lexical.UnterminatedString` | src/scanner.rs:86-89 | a string with no closing quote gives no token and leaves the cursor at the end of input; it reports "Unterminated string" once, at the line reached there |
| `Lexical.UnknownByte` | src/scanner.rs:92-96 | any byte outside the dispatch table gives exactly one `Unknown` token at the current line and consumes one byte |
| `Lexical.AlphanumericIsUnknown` | src/scanner.rs:92-96 | digits, letters and `_` give `Unknown`, because this scanner has no number or identifier sub-scan |
| `Scanner.Scanner.constructor` | src/scanner.rs:12-19 | a new scanner starts at line 1 with both offsets at 0 and no reports |
| `Scanner.Scanner.IsAtEnd` | src/scanner.rs:169-171 | true exactly when no byte is left to read |
| `Scanner.Scanner.Peek` | src/scanner.rs:161-167 | the next unread byte, or 0 at the end of input; as a function it cannot change the cursor |
| `Scanner.Scanner.CreateToken` | src/scanner.rs:112-118 | a token of the given kind at the current line, with no lexem and no literal |
| `Scanner.Scanner.Advance` | src/scanner.rs:120-125 | returns the byte at `current` and moves one past it; callers guarantee a byte is left |
| `Scanner.Scanner.MatchNext` | src/scanner.rs:152-159 | returns true and advances by exactly one when a byte is left and it equals the expected one; otherwise returns false and changes nothing |
| `Scanner.Scanner.MatchOr` | src/scanner.rs:102-110 | the first kind when the next byte matched (and was consumed), else the second; the token is at the current line |
| `Scanner.Scanner.ScanString` | src/scanner.rs:127-150 | with a closing quote, returns the bytes strictly between the quotes and stops just past the closing quote; without one, returns nothing and stops at the end; either way `line` has grown by the line feeds passed over |
| `Scanner.Scanner.SkipComment` | src/scanner.rs:62-64 | advances exactly to `LineEnd`, the first line feed or the end of input |
| `Scanner.Scanner.StringToken` | src/scanner.rs:78-90 | the `"` arm: the token, cursor, line and new report are those of the string sub-scan in the specification |
| `Scanner.Scanner.ScanToken` | src/scanner.rs:41-100 | the token, new cursor, new line and new reports are exactly those of `ScanStep` at the old cursor and line |
| `Scanner.Scanner.ScanTokens` | src/scanner.rs:21-39 | the result is `Lex` of the rest of the input followed by one `EOF` token at the final line; the cursor ends at the end of input; the reports are those of `Lex` |
| `Scanner.ScanSource` | src/main.rs:64-66 | scanning a source with a fresh scanner yields exactly `Tokenize` of it |
| `Scenarios.BangEqualFolds` | src/scanner.rs:54 | `!=` scans to `BangEqual`, then `EOF` at line 1 |
| `Scenarios.LoneBang` | src/scanner.rs:54 | `!` alone scans to `Bang`, then `EOF` |
| `Scenarios.MultiLineString` | src/scanner.rs:127-150 | `"a\nb"` scans to one `String` token with literal `a\nb` at line 2, then `EOF` at line 2 |
| `Scenarios.UnterminatedAtEnd` | src/scanner.rs:86-89 | `"ab` scans to `EOF` alone and reports "Unterminated string" once at line 1 |
| `Scenarios.CommentAfterDigit` | src/scanner.rs:60-65 | `1 // c` (bytes `1`, space, `/`, `/`, space, `c`) scans to one `Unknown` token (the digit), then `EOF`; the comment adds nothing |

## Left out

- `src/main.rs`: argument handling, file reading, the REPL on standard input, printing tokens and the usage exit code. These are I/O and process control. Only the scan that `run` performs is modelled, as `Scanner.ScanSource`.
- `report_error` and `report` only print. Each call from the scanner is a `(line, message)` entry appended to the ghost log `errors`.
- `std::str::from_utf8(..).unwrap()` on a string literal is not modelled. The literal is kept as the raw byte slice. The slice lies between two ASCII quote bytes of a valid UTF-8 buffer, so the decoding cannot fail.
- The derived `Debug` formatting behind `Display` is a table, `Tokens.KindName`, from each kind to its variant name.
- `line` is a Rust `u32` and the offsets are `usize`. They are modelled as unbounded naturals, so overflow of the u32 `line` (a panic in debug builds, a wrap in release builds) is not modelled.
- Rust lifetimes and the borrow of `source` become an immutable `seq<byte>` field.
- `src/utils.rs` is modelled standalone. `src/main.rs` does not declare it as a module, and the scanner does not call it.
- This version of the scanner has no number, identifier or keyword scanning, and no keyword table. Any byte outside the dispatch table, including digits, letters, `_`, `{` and `}`, yields one `Unknown` token and nothing is reported. The model follows the code.
- An unterminated string is reported at the line reached at end of input (`self.line` after the sub-scan), not at the line where the string opened. The model follows the code.
- `Tokens.Display` does not model the `?` propagation of a `fmt::Error` from the formatter (src/token.rs:14,17,21). The model renders into a byte sequence, and writing to it cannot fail.
- `Scanner.Scanner.ScanTokens` does not state the final value of `start`. It is where the last `scan_token` began, or its old value if the loop never ran, and nothing reads it afterwards.
- The `//` loop and the `"` arm of `scan_token` are separate methods (`SkipComment`, `StringToken`) in the model. They are inline in the source. Their behaviour is unchanged.
