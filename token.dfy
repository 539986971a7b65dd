/** Tokens, their kinds and positions, the reserved vocabulary and the
    identifier rule of the miniasm front end (pkg/token/token.go). */
module Token {

  /** One byte of source text. */
  newtype byte = x: int | 0 <= x < 256

  /** The closed set of token kinds. */
  datatype Kind = Identifier | Number | String | Char | Separator | SpecialFunction

  /** The lexer's cursor. There is exactly one such object per lexer, and
      every token it produces points at it, so the fields below are shared
      by all tokens of one run. */
  class Position {
    var line: int
    var column: int
    var offset: nat

    constructor (line: int, column: int, offset: nat)
      ensures this.line == line && this.column == column && this.offset == offset
    {
      this.line := line;
      this.column := column;
      this.offset := offset;
    }
  }

  /** A token: a literal, a kind and a reference to a (shared) position. */
  datatype Token = Token(literal: seq<byte>, pos: Position, kind: Kind)

  /** Byte values of the characters the lexer and the grammar test for. */
  const NewlineByte: byte := 10
  const QuoteByte: byte := 34
  const BacktickByte: byte := 96
  const UnderscoreByte: byte := 95

  const Semicolon: seq<byte> := [59]
  const Comma: seq<byte> := [44]
  const LBracket: seq<byte> := [91]
  const RBracket: seq<byte> := [93]
  const LBrace: seq<byte> := [123]
  const RBrace: seq<byte> := [125]
  const LParen: seq<byte> := [40]
  const RParen: seq<byte> := [41]
  const Caret: seq<byte> := [94]
  const At: seq<byte> := [97, 116]

  /** The separator vocabulary, in declaration order. */
  const Separators: seq<seq<byte>> := [Semicolon, Comma, LBracket, RBracket, LBrace, RBrace, LParen, RParen, Caret]

  /** The reserved special-function names. */
  const SpecialFunctions: seq<seq<byte>> := [At]

  /** Builds a token from its three fields. */
  function New(lit: seq<byte>, kind: Kind, pos: Position): (t: Token)
    ensures t.literal == lit && t.kind == kind && t.pos == pos
  {
    Token(lit, pos, kind)
  }

  /** Go's unicode.IsLetter applied to rune(b): the Latin-1 letters. */
  predicate IsLetter(b: byte) {
    (65 <= b <= 90) || (97 <= b <= 122) || b == 0xAA || b == 0xB5 || b == 0xBA
    || (0xC0 <= b <= 0xD6) || (0xD8 <= b <= 0xF6) || 0xF8 <= b
  }

  /** Go's unicode.IsDigit applied to rune(b). */
  predicate IsDigit(b: byte) {
    48 <= b <= 57
  }

  /** Go's unicode.IsSpace applied to rune(b). */
  predicate IsSpace(b: byte) {
    (9 <= b <= 13) || b == 32 || b == 0x85 || b == 0xA0
  }

  /** The character classes the identifier rule uses on a decoded string;
      the model decodes only ASCII, so every byte from 0x80 up is neither. */
  predicate IsAsciiLetter(b: byte) {
    (65 <= b <= 90) || (97 <= b <= 122)
  }

  predicate IsAsciiDigit(b: byte) {
    48 <= b <= 57
  }

  predicate IsWordRune(b: byte) {
    IsAsciiLetter(b) || IsAsciiDigit(b) || b == UnderscoreByte
  }

  /** Go's string(rune(b)): the UTF-8 encoding of the Latin-1 code point b. */
  function RuneString(b: byte): (s: seq<byte>)
    ensures b < 0x80 ==> s == [b]
    ensures b >= 0x80 ==> |s| == 2 && 0xC2 <= s[0] <= 0xC3 && 0x80 <= s[1] < 0xC0
  {
    if b < 0x80 then [b] else [(0xC0 + b as int / 64) as byte, (0x80 + b as int % 64) as byte]
  }

  /** Decodes a one- or two-byte UTF-8 sequence of a Latin-1 code point. */
  function DecodeRune(s: seq<byte>): (b: int)
    requires 1 <= |s| <= 2
  {
    if |s| == 1 then s[0] as int else (s[0] as int - 0xC0) * 64 + (s[1] as int - 0x80)
  }

  /** Whether every rune of s from index i on passes the per-rune checks:
      a word character, and not a digit when it is the first one. */
  function RunesOk(s: seq<byte>, i: nat): (ok: bool)
    requires i <= |s|
    ensures ok <==> (forall j | i <= j < |s| :: IsWordRune(s[j])) && (i == 0 < |s| ==> !IsAsciiDigit(s[0]))
    decreases |s| - i
  {
    if i == |s| then true
    else if i == 0 && IsAsciiDigit(s[i]) then false
    else if !IsWordRune(s[i]) then false
    else RunesOk(s, i + 1)
  }

  /** The identifier rule: length 1..255, not reserved, no leading digit,
      only letters, digits and underscores. */
  function IsIdentifier(s: seq<byte>): (ok: bool)
    ensures ok <==>
      && 1 <= |s| <= 255
      && s !in Separators && s !in SpecialFunctions
      && !IsAsciiDigit(s[0])
      && forall j | 0 <= j < |s| :: IsWordRune(s[j])
  {
    if |s| == 0 || |s| > 255 then false
    else if s in Separators || s in SpecialFunctions then false
    else RunesOk(s, 0)
  }
}
