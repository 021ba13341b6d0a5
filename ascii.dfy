/** Bytes of the source buffer and the ASCII codes the scanner dispatches on. */
module Ascii {

  /** One byte (Rust's `u8`). */
  type byte = b: int | 0 <= b < 256

  const NUL: byte := 0
  const TAB: byte := 9
  const NEWLINE: byte := 10
  const CARRIAGE_RETURN: byte := 13
  const SPACE: byte := 32
  const BANG: byte := 33
  const QUOTE: byte := 34
  const LEFT_PAREN: byte := 40
  const RIGHT_PAREN: byte := 41
  const STAR: byte := 42
  const PLUS: byte := 43
  const COMMA: byte := 44
  const MINUS: byte := 45
  const DOT: byte := 46
  const SLASH: byte := 47
  const SEMICOLON: byte := 59
  const LESS: byte := 60
  const EQUAL: byte := 61
  const GREATER: byte := 62

  /** The bytes of an ASCII text: each character's code (taken modulo 256). */
  function Text(s: string): (r: seq<byte>)
    ensures |r| == |s|
  {
    seq(|s|, i requires 0 <= i < |s| => (s[i] as int % 256) as byte)
  }

  /** How many line-feed bytes `bs` holds. */
  function Newlines(bs: seq<byte>): nat
  {
    multiset(bs)[NEWLINE]
  }
}
