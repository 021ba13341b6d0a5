/** The token value of `src/token.rs`: its kinds, defaults and text rendering. */
module Tokens {
  import opened Wrappers
  import opened Ascii

  /** The closed set of token kinds; `Unknown` is the default. */
  datatype TokenType =
    // Single-character tokens.
    | LeftParen | RightParen | LeftBrace | RightBrace | Comma | Dot | Minus | Plus | Semicolon | Slash | Star
    // One or two character tokens.
    | Bang | BangEqual | Equal | EqualEqual | Greater | GreaterEqual | Less | LessEqual
    // Literals.
    | Identifier | String | Number
    // Keywords.
    | And | Class | Else | False | Fun | For | If | Nil | Or | Print | Return | Super | This | True | Var | While
    // End of input.
    | EOF
    // Any byte the scanner does not recognise; the default.
    | Unknown

  /**
   * A scanned token. `lexem` and `literal` are Rust `String`s; here they are
   * the raw bytes they are made from.
   */
  datatype Token = Token(kind: TokenType, lexem: Option<seq<byte>>, literal: Option<seq<byte>>, line: nat)

  /** The derived default of `TokenType`. */
  function DefaultTokenType(): TokenType
  {
    Unknown
  }

  /** The derived default of `Token`: every field at its own default. */
  function DefaultToken(): Token
  {
    Token(DefaultTokenType(), None, None, 0)
  }

  /** The struct literal `Token { kind, line, ..Default::default() }` the scanner builds. */
  function WithKind(kind: TokenType, line: nat): (t: Token)
    ensures t.kind == kind && t.line == line
    ensures t.lexem.None? && t.literal.None?
  {
    DefaultToken().(kind := kind, line := line)
  }

  /** A token built from defaults renders as its bare kind name, and the default kind is `Unknown`. */
  lemma DefaultTokenIsBareUnknown()
    ensures DefaultToken().kind == Unknown && DefaultToken().line == 0
    ensures DefaultToken().lexem.None? && DefaultToken().literal.None?
    ensures Display(DefaultToken()) == Text("Unknown")
  {
  }

  /** The variant name that the derived `Debug` formatting writes for a kind. */
  function KindName(k: TokenType): seq<byte>
  {
    match k
    case LeftParen => Text("LeftParen")
    case RightParen => Text("RightParen")
    case LeftBrace => Text("LeftBrace")
    case RightBrace => Text("RightBrace")
    case Comma => Text("Comma")
    case Dot => Text("Dot")
    case Minus => Text("Minus")
    case Plus => Text("Plus")
    case Semicolon => Text("Semicolon")
    case Slash => Text("Slash")
    case Star => Text("Star")
    case Bang => Text("Bang")
    case BangEqual => Text("BangEqual")
    case Equal => Text("Equal")
    case EqualEqual => Text("EqualEqual")
    case Greater => Text("Greater")
    case GreaterEqual => Text("GreaterEqual")
    case Less => Text("Less")
    case LessEqual => Text("LessEqual")
    case Identifier => Text("Identifier")
    case String => Text("String")
    case Number => Text("Number")
    case And => Text("And")
    case Class => Text("Class")
    case Else => Text("Else")
    case False => Text("False")
    case Fun => Text("Fun")
    case For => Text("For")
    case If => Text("If")
    case Nil => Text("Nil")
    case Or => Text("Or")
    case Print => Text("Print")
    case Return => Text("Return")
    case Super => Text("Super")
    case This => Text("This")
    case True => Text("True")
    case Var => Text("Var")
    case While => Text("While")
    case EOF => Text("EOF")
    case Unknown => Text("Unknown")
  }

  /** One optional field as `Display` writes it: nothing, or a space and the text. */
  function Field(f: Option<seq<byte>>): (r: seq<byte>)
    ensures f.None? ==> r == []
    ensures f.Some? ==> r == [SPACE] + f.value
  {
    match f
    case None => []
    case Some(text) => [SPACE] + text
  }

  /**
   * `Display for Token`: the kind name, then the lexem and then the literal,
   * each preceded by one space and written only when present.
   */
  function Display(t: Token): (r: seq<byte>)
    ensures KindName(t.kind) <= r
    ensures |r| == |KindName(t.kind)| + |Field(t.lexem)| + |Field(t.literal)|
    ensures t.lexem.Some? ==>
      r[|KindName(t.kind)|..|KindName(t.kind)| + 1 + |t.lexem.value|] == [SPACE] + t.lexem.value
    ensures t.literal.Some? ==> r[|r| - 1 - |t.literal.value|..] == [SPACE] + t.literal.value
    ensures t.lexem.None? && t.literal.None? ==> r == KindName(t.kind)
  {
    KindName(t.kind) + Field(t.lexem) + Field(t.literal)
  }
}
