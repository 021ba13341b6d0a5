/** The ASCII character classifiers of `src/utils.rs`. */
module Utils {
  import opened Ascii

  /** The decimal digits, written out as characters. */
  const DIGIT_CHARS: set<char> := {'0', '1', '2', '3', '4', '5', '6', '7', '8', '9'}

  /** The lower-case letters, written out. */
  const LOWER_CHARS: set<char> := {
    'a', 'b', 'c', 'd', 'e', 'f', 'g', 'h', 'i', 'j', 'k', 'l', 'm',
    'n', 'o', 'p', 'q', 'r', 's', 't', 'u', 'v', 'w', 'x', 'y', 'z'}

  /** The upper-case letters, written out. */
  const UPPER_CHARS: set<char> := {
    'A', 'B', 'C', 'D', 'E', 'F', 'G', 'H', 'I', 'J', 'K', 'L', 'M',
    'N', 'O', 'P', 'Q', 'R', 'S', 'T', 'U', 'V', 'W', 'X', 'Y', 'Z'}

  /** The characters that may start an identifier. */
  const ALPHA_CHARS: set<char> := LOWER_CHARS + UPPER_CHARS + {'_'}

  /** `is_digit`: the byte is one of the ten ASCII digits. */
  predicate IsDigit(c: byte)
  {
    c >= '0' as int && c <= '9' as int
  }

  /** `is_alpha`: the byte is an ASCII letter of either case or the underscore. */
  predicate IsAlpha(c: byte)
  {
    (c >= 'a' as int && c <= 'z' as int) || (c >= 'A' as int && c <= 'Z' as int) || c == '_' as int
  }

  /** `is_alphanumeric`: a digit or an identifier character. */
  predicate IsAlphanumeric(c: byte)
  {
    IsDigit(c) || IsAlpha(c)
  }

  /** `is_digit` accepts exactly the codes of the ten listed digit characters. */
  lemma DigitsAreListed(c: byte)
    ensures IsDigit(c) <==> c as char in DIGIT_CHARS
  {
  }

  /** `is_alpha` accepts exactly the codes of the 52 listed letters and `_`. */
  lemma AlphaIsListed(c: byte)
    ensures IsAlpha(c) <==> c as char in ALPHA_CHARS
  {
    LowerIsListed(c);
    UpperIsListed(c);
  }

  /** `is_alphanumeric` accepts exactly the union of the two lists. */
  lemma AlphanumericIsListed(c: byte)
    ensures IsAlphanumeric(c) <==> c as char in DIGIT_CHARS + ALPHA_CHARS
  {
    DigitsAreListed(c);
    AlphaIsListed(c);
  }

  lemma LowerIsListed(c: byte)
    ensures (c >= 'a' as int && c <= 'z' as int) <==> c as char in LOWER_CHARS
  {
  }

  lemma UpperIsListed(c: byte)
    ensures (c >= 'A' as int && c <= 'Z' as int) <==> c as char in UPPER_CHARS
  {
  }

  /** The two classes are disjoint, and the underscore is alphabetic but not a digit. */
  lemma DigitsAreNotAlpha(c: byte)
    ensures !(IsDigit(c) && IsAlpha(c))
    ensures IsAlpha('_' as int) && !IsDigit('_' as int)
  {
  }
}
