/** Properties of the token vocabulary: the identifier rule on the cases of
    pkg/token/token_test.go, and the rune encoding the lexer uses for
    single-byte literals. */
module TokenProps {
  import opened Token

  /** Decoding the encoding of a byte gives the byte back. */
  lemma RuneRoundTrip(b: byte)
    ensures 1 <= |RuneString(b)| <= 2
    ensures DecodeRune(RuneString(b)) == b as int
  {
  }

  /** Distinct bytes have distinct encodings. */
  lemma RuneStringInjective(a: byte, b: byte)
    requires RuneString(a) == RuneString(b)
    ensures a == b
  {
    RuneRoundTrip(a);
    RuneRoundTrip(b);
  }

  lemma IdentifierAccepts()
    ensures IsIdentifier([95, 95, 102, 111, 111])           // __foo
    ensures IsIdentifier([102, 111, 111, 95, 49, 50, 51])   // foo_123
    ensures IsIdentifier([95, 95, 95])                      // ___
  {
  }

  lemma IdentifierRejects()
    ensures !IsIdentifier([35, 35])                         // ##
    ensures !IsIdentifier([49, 50, 51, 52])                 // 1234
    ensures !IsIdentifier(seq(256, _ => 120 as byte))       // 256 x's
    ensures !IsIdentifier([])
    ensures !IsIdentifier(At)
    ensures forall s | s in Separators :: !IsIdentifier(s)
  {
  }

  /** The length bound is exact: 255 word characters pass, 256 do not. */
  lemma IdentifierLengthBound()
    ensures IsIdentifier(seq(255, _ => 120 as byte))
    ensures !IsIdentifier(seq(256, _ => 120 as byte))
  {
    var s := seq(255, _ => 120 as byte);
    assert s !in Separators by {
      forall t | t in Separators
        ensures t != s
      {
        assert |t| == 1;
      }
    }
    assert s != At;
  }
}
