/** Properties of the lexer model: what each default tokenizer accepts and
    yields, how the chain dispatches, how the cursor's line and column
    bookkeeping behaves around newlines and backtracking, and what Do
    returns on edge inputs. */
module LexerProps {
  import opened Token
  import opened Results
  import opened LexerSpec

  // ------------------------------------------------------------ the cursor

  /** One step back after one step forward restores the offset exactly. */
  lemma StepBackUndoesStepOffset(b: seq<byte>, p: Pos)
    requires p.offset < |b|
    ensures StepBack(b, Step(b, p)).offset == p.offset
  {
  }

  /** Advance bumps the line when it lands ON a newline: from the start of
      "a\nb" one step puts the cursor on the newline at line 2, column 1. */
  lemma StepOntoNewline()
    ensures Step([97, 10, 98], Start) == Pos(1, 2, 1)
  {
  }

  /** Backward is not the inverse of Advance for line and column: on "a\nb",
      stepping from the newline to 'b' and back gives line 1, column 2
      instead of the line 2, column 1 the cursor had on the newline. */
  lemma StepBackIsNotInverse()
    ensures var b: seq<byte> := [97, 10, 98];
      var p := Pos(1, 2, 1);
      StepBack(b, Step(b, p)) == Pos(1, 1, 2) && StepBack(b, Step(b, p)) != p
  {
  }

  /** Backing up over n steps lands exactly n bytes earlier. */
  lemma {:induction false} StepBackNSteps(b: seq<byte>, p: Pos, n: nat)
    requires n <= p.offset
    ensures StepBackN(b, p, n).offset == p.offset - n
    ensures n > 0 ==> StepBackN(b, p, n) == StepBack(b, StepBackN(b, p, n - 1))
    decreases n
  {
    if n > 1 {
      StepBackNSteps(b, StepBack(b, p), n - 1);
    }
  }

  // ------------------------------------------------------------ tokenizers

  /** Identifier: a match is the maximal word run from the cursor, starts
      with a letter or underscore, and satisfies the identifier rule. */
  lemma IdentifierMatch(b: seq<byte>, f: seq<char>, p: Pos)
    requires IdentifierScan(b, f, p).outcome.Matched?
    ensures var s := IdentifierScan(b, f, p);
      && p.offset < s.after.offset <= |b|
      && s.outcome.lexeme == Lexeme(b[p.offset..s.after.offset], Identifier)
      && IsIdentifier(s.outcome.lexeme.literal)
      && (IsLetter(b[p.offset]) || b[p.offset] == UnderscoreByte)
      && (forall i | p.offset <= i < s.after.offset :: IsWordByte(b[i]))
      && !IsWordByte(CurrentAt(b, s.after.offset))
  {
  }

  /** Identifier declines exactly when the current byte cannot start one or
      the word run from it breaks the identifier rule, and then the
      cursor's offset is back where it was. */
  lemma IdentifierDecline(b: seq<byte>, f: seq<char>, p: Pos)
    ensures var s := IdentifierScan(b, f, p);
      var c := CurrentAt(b, p.offset);
      var e := SkipWord(b, p);
      && (s.outcome.NoMatch? <==>
            (!IsLetter(c) && c != UnderscoreByte) || !IsIdentifier(b[p.offset..e.offset]))
      && (s.outcome.NoMatch? ==> s.after.offset == p.offset)
      && !s.outcome.Failed?
  {
  }

  /** The reserved word "at" is rejected; the offset is restored but the
      line is not: the scan stepped onto the newline after "at" (line 2)
      and the backward steps only cross letters. */
  lemma IdentifierBacktrackKeepsLine()
    ensures IdentifierScan([97, 116, 10], [], Start) == Scan(NoMatch, Pos(0, 2, 1))
  {
    var b: seq<byte> := [97, 116, 10];
    var e := Pos(2, 2, 1);
    assert SkipWord(b, Pos(1, 1, 2)) == e;
    assert SkipWord(b, Start) == e;
    assert b[0..2] == At;
    assert StepBackN(b, e, 2) == Pos(0, 2, 1);
  }

  /** Number: the maximal, non-empty run of digits, taken verbatim. */
  lemma NumberMatch(b: seq<byte>, f: seq<char>, p: Pos)
    ensures var s := NumberScan(b, f, p);
      && (s.outcome.Matched? <==> IsDigit(CurrentAt(b, p.offset)))
      && (s.outcome.Matched? ==>
            && p.offset < s.after.offset <= |b|
            && s.outcome.lexeme == Lexeme(b[p.offset..s.after.offset], Number)
            && (forall i | p.offset <= i < s.after.offset :: IsDigit(b[i]))
            && !IsDigit(CurrentAt(b, s.after.offset)))
      && !s.outcome.Failed?
  {
  }

  /** Separator: exactly one byte from the separator vocabulary. */
  lemma SeparatorMatch(b: seq<byte>, f: seq<char>, p: Pos)
    ensures var s := SeparatorScan(b, f, p);
      && (s.outcome.Matched? <==> p.offset < |b| && [b[p.offset]] in Separators)
      && (s.outcome.Matched? ==> s.outcome.lexeme == Lexeme([b[p.offset]], Separator))
  {
  }

  /** String: the literal is everything strictly between the opening quote
      and the next quote after the byte that follows it, which is taken
      unchecked; the cursor ends past the closing quote. */
  lemma StringMatch(b: seq<byte>, f: seq<char>, p: Pos)
    requires StringScan(b, f, p).outcome.Matched?
    ensures var s := StringScan(b, f, p);
      && p.offset + 3 <= s.after.offset <= |b|
      && b[p.offset] == QuoteByte && b[s.after.offset - 1] == QuoteByte
      && s.outcome.lexeme == Lexeme(b[p.offset + 1..s.after.offset - 1], String)
      && (forall i | p.offset + 1 < i < s.after.offset - 1 :: b[i] != QuoteByte)
  {
  }

  /** A string is an error, not a match, when no quote follows the byte
      after the opening quote; so an empty string at the end of the input
      fails. */
  lemma StringUnterminated(b: seq<byte>, f: seq<char>, p: Pos)
    requires p.offset < |b| && b[p.offset] == QuoteByte
    requires forall i | p.offset + 1 < i < |b| :: b[i] != QuoteByte
    ensures StringScan(b, f, p).outcome.Failed?
    ensures StringScan(b, f, p).outcome.err.msg == UnterminatedString
  {
  }

  lemma EmptyStringAtEndFails()
    ensures StringScan([34, 34], [], Start).outcome.Failed?
  {
    StringUnterminated([34, 34], [], Start);
  }

  /** A string whose first content byte is a quote keeps that quote. */
  lemma StringTakesFirstByte()
    ensures StringScan([34, 34, 34], [], Start).outcome == Matched(Lexeme([34], String))
  {
    assert StringClose([34, 34, 34], Pos(1, 1, 2)) == Closed(Pos(2, 1, 3));
  }

  /** Char: backtick, letter, backtick; the letter is emitted as its UTF-8
      encoding. */
  lemma CharMatch(b: seq<byte>, f: seq<char>, p: Pos)
    ensures var s := CharScan(b, f, p);
      && (s.outcome.Matched? <==>
            p.offset + 3 <= |b| && b[p.offset] == BacktickByte && IsLetter(b[p.offset + 1])
            && b[p.offset + 2] == BacktickByte)
      && (s.outcome.Matched? ==> s.outcome.lexeme == Lexeme(RuneString(b[p.offset + 1]), Char))
      && (s.outcome.Failed? <==>
            p.offset < |b| && b[p.offset] == BacktickByte
            && !(p.offset + 3 <= |b| && IsLetter(b[p.offset + 1]) && b[p.offset + 2] == BacktickByte))
  {
  }

  // ------------------------------------------------------------ dispatch

  /** At the end of the input every tokenizer declines without moving. */
  lemma RunTokenizerAtEof(t: Tokenizer, b: seq<byte>, f: seq<char>, p: Pos)
    requires AtEof(b, p)
    ensures RunTokenizer(t, b, f, p) == Scan(NoMatch, p)
  {
  }

  /** So at the end of the input any non-empty chain reports "Unknown
      character" at the cursor. */
  lemma {:induction false} TokenizeAtEof(chain: seq<Tokenizer>, b: seq<byte>, f: seq<char>, p: Pos)
    requires AtEof(b, p)
    ensures Tokenize(chain, b, f, p) == Scan(Failed(MakeError(UnknownCharacter, f, p)), p)
    decreases |chain|
  {
    if chain != [] {
      RunTokenizerAtEof(chain[0], b, f, p);
      TokenizeAtEof(chain[1..], b, f, p);
    }
  }

  /** The default chain is decided by the first byte: digits go to Number,
      separators to Separator, quotes to String, backticks to Char, letters
      and underscores to Identifier (and, when that declines, nothing else
      matches), and any other byte is an unknown character. */
  lemma DefaultDispatch(b: seq<byte>, f: seq<char>, p: Pos)
    ensures var c := CurrentAt(b, p.offset);
      var s := Tokenize(DefaultChain, b, f, p);
      var id := IdentifierScan(b, f, p);
      && (IsDigit(c) ==> s == NumberScan(b, f, p))
      && (c != 0 && RuneString(c) in Separators ==> s == SeparatorScan(b, f, p))
      && (c == QuoteByte ==> s == StringScan(b, f, p))
      && (c == BacktickByte ==> s == CharScan(b, f, p))
      && ((IsLetter(c) || c == UnderscoreByte) ==>
            s == (if id.outcome.NoMatch? then Scan(Failed(MakeError(UnknownCharacter, f, id.after)), id.after) else id))
      && (!IsWordByte(c) && c != QuoteByte && c != BacktickByte && !(c != 0 && RuneString(c) in Separators) ==>
            s == Scan(Failed(MakeError(UnknownCharacter, f, p)), p))
  {
    var c := CurrentAt(b, p.offset);
    if IsDigit(c) {
      DispatchDigit(b, f, p);
    }
    if c != 0 && RuneString(c) in Separators {
      DispatchSeparator(b, f, p);
    }
    if c == QuoteByte {
      DispatchQuote(b, f, p);
    }
    if c == BacktickByte {
      DispatchBacktick(b, f, p);
    }
    if IsLetter(c) || c == UnderscoreByte {
      DispatchWord(b, f, p);
    }
    if !IsWordByte(c) && c != QuoteByte && c != BacktickByte && !(c != 0 && RuneString(c) in Separators) {
      DispatchOther(b, f, p);
    }
  }

  /** A tokenizer that declines without moving hands the cursor on to the
      rest of the chain. */
  lemma TokenizeSkip(chain: seq<Tokenizer>, b: seq<byte>, f: seq<char>, p: Pos)
    requires chain != [] && RunTokenizer(chain[0], b, f, p) == Scan(NoMatch, p)
    ensures Tokenize(chain, b, f, p) == Tokenize(chain[1..], b, f, p)
  {
  }

  /** A tokenizer that does not decline decides. */
  lemma TokenizeHead(chain: seq<Tokenizer>, b: seq<byte>, f: seq<char>, p: Pos)
    requires chain != [] && !RunTokenizer(chain[0], b, f, p).outcome.NoMatch?
    ensures Tokenize(chain, b, f, p) == RunTokenizer(chain[0], b, f, p)
  {
  }

  /** The default chain from its second, third, fourth and fifth entry. */
  lemma DefaultChainTails()
    ensures DefaultChain[1..] == [NumberTokenizer, SeparatorTokenizer, StringTokenizer, CharTokenizer]
    ensures DefaultChain[1..][1..] == [SeparatorTokenizer, StringTokenizer, CharTokenizer]
    ensures DefaultChain[1..][1..][1..] == [StringTokenizer, CharTokenizer]
    ensures DefaultChain[1..][1..][1..][1..] == [CharTokenizer]
    ensures DefaultChain[1..][1..][1..][1..][1..] == []
  {
  }

  lemma DispatchDigit(b: seq<byte>, f: seq<char>, p: Pos)
    requires IsDigit(CurrentAt(b, p.offset))
    ensures Tokenize(DefaultChain, b, f, p) == NumberScan(b, f, p)
  {
    DefaultChainTails();
    assert IdentifierScan(b, f, p) == Scan(NoMatch, p);
    TokenizeSkip(DefaultChain, b, f, p);
    TokenizeHead(DefaultChain[1..], b, f, p);
  }

  lemma DispatchSeparator(b: seq<byte>, f: seq<char>, p: Pos)
    requires var c := CurrentAt(b, p.offset); c != 0 && RuneString(c) in Separators
    ensures Tokenize(DefaultChain, b, f, p) == SeparatorScan(b, f, p)
  {
    var c := CurrentAt(b, p.offset);
    assert RuneString(c) == [c];
    assert !IsLetter(c) && c != UnderscoreByte && !IsDigit(c);
    DefaultChainTails();
    assert IdentifierScan(b, f, p) == Scan(NoMatch, p);
    TokenizeSkip(DefaultChain, b, f, p);
    assert NumberScan(b, f, p) == Scan(NoMatch, p);
    TokenizeSkip(DefaultChain[1..], b, f, p);
    TokenizeHead(DefaultChain[1..][1..], b, f, p);
  }

  lemma DispatchQuote(b: seq<byte>, f: seq<char>, p: Pos)
    requires CurrentAt(b, p.offset) == QuoteByte
    ensures Tokenize(DefaultChain, b, f, p) == StringScan(b, f, p)
  {
    DefaultChainTails();
    assert IdentifierScan(b, f, p) == Scan(NoMatch, p);
    TokenizeSkip(DefaultChain, b, f, p);
    assert NumberScan(b, f, p) == Scan(NoMatch, p);
    TokenizeSkip(DefaultChain[1..], b, f, p);
    assert SeparatorScan(b, f, p) == Scan(NoMatch, p);
    TokenizeSkip(DefaultChain[1..][1..], b, f, p);
    TokenizeHead(DefaultChain[1..][1..][1..], b, f, p);
  }

  lemma DispatchBacktick(b: seq<byte>, f: seq<char>, p: Pos)
    requires CurrentAt(b, p.offset) == BacktickByte
    ensures Tokenize(DefaultChain, b, f, p) == CharScan(b, f, p)
  {
    DefaultChainTails();
    assert IdentifierScan(b, f, p) == Scan(NoMatch, p);
    TokenizeSkip(DefaultChain, b, f, p);
    assert NumberScan(b, f, p) == Scan(NoMatch, p);
    TokenizeSkip(DefaultChain[1..], b, f, p);
    assert SeparatorScan(b, f, p) == Scan(NoMatch, p);
    TokenizeSkip(DefaultChain[1..][1..], b, f, p);
    assert StringScan(b, f, p) == Scan(NoMatch, p);
    TokenizeSkip(DefaultChain[1..][1..][1..], b, f, p);
    TokenizeHead(DefaultChain[1..][1..][1..][1..], b, f, p);
  }

  /** When the five tokenizers all decline at q, the chain reports "Unknown
      character" there. */
  lemma TokenizeRestDeclines(b: seq<byte>, f: seq<char>, q: Pos)
    requires var c := CurrentAt(b, q.offset);
      !IsDigit(c) && c != QuoteByte && c != BacktickByte && !(c != 0 && RuneString(c) in Separators)
    ensures Tokenize(DefaultChain[1..], b, f, q) == Scan(Failed(MakeError(UnknownCharacter, f, q)), q)
  {
    DefaultChainTails();
    assert NumberScan(b, f, q) == Scan(NoMatch, q);
    TokenizeSkip(DefaultChain[1..], b, f, q);
    assert SeparatorScan(b, f, q) == Scan(NoMatch, q);
    TokenizeSkip(DefaultChain[1..][1..], b, f, q);
    assert StringScan(b, f, q) == Scan(NoMatch, q);
    TokenizeSkip(DefaultChain[1..][1..][1..], b, f, q);
    assert CharScan(b, f, q) == Scan(NoMatch, q);
    TokenizeSkip(DefaultChain[1..][1..][1..][1..], b, f, q);
  }

  lemma DispatchWord(b: seq<byte>, f: seq<char>, p: Pos)
    requires var c := CurrentAt(b, p.offset); IsLetter(c) || c == UnderscoreByte
    ensures var id := IdentifierScan(b, f, p);
      Tokenize(DefaultChain, b, f, p)
        == if id.outcome.NoMatch? then Scan(Failed(MakeError(UnknownCharacter, f, id.after)), id.after) else id
  {
    var c := CurrentAt(b, p.offset);
    var id := IdentifierScan(b, f, p);
    if id.outcome.NoMatch? {
      assert id.after.offset == p.offset;
      assert CurrentAt(b, id.after.offset) == c;
      assert RuneString(c) == [c] || RuneString(c)[0] >= 0xC2;
      TokenizeRestDeclines(b, f, id.after);
    } else {
      TokenizeHead(DefaultChain, b, f, p);
    }
  }

  lemma DispatchOther(b: seq<byte>, f: seq<char>, p: Pos)
    requires var c := CurrentAt(b, p.offset);
      !IsWordByte(c) && c != QuoteByte && c != BacktickByte && !(c != 0 && RuneString(c) in Separators)
    ensures Tokenize(DefaultChain, b, f, p) == Scan(Failed(MakeError(UnknownCharacter, f, p)), p)
  {
    DefaultChainTails();
    assert IdentifierScan(b, f, p) == Scan(NoMatch, p);
    TokenizeSkip(DefaultChain, b, f, p);
    TokenizeRestDeclines(b, f, p);
  }

  // ------------------------------------------------------------ Do

  /** Every successful run with the default tokenizers emits at most one
      token per remaining byte. */
  lemma {:induction false} LexLoopTokenBound(chain: seq<Tokenizer>, b: seq<byte>, f: seq<char>, p: Pos, acc: seq<Lexeme>)
    requires p.offset <= |b|
    ensures var r := LexLoop(chain, b, f, p, acc);
      r.result.Ok? ==> |r.result.value| <= |acc| + (|b| - p.offset)
    decreases |b| - p.offset
  {
    if !AtEof(b, p) {
      var p1 := SkipWhitespace(b, p);
      var s := Tokenize(chain, b, f, p1);
      if s.outcome.Matched? {
        LexLoopTokenBound(chain, b, f, SkipWhitespace(b, s.after), acc + [s.outcome.lexeme]);
      }
    }
  }

  /** Empty input yields no tokens and leaves the cursor alone. */
  lemma LexEmpty(chain: seq<Tokenizer>, f: seq<char>)
    ensures Lex(chain, [], f, Start) == Lexed(Ok([]), Start)
  {
  }

  /** Input made only of whitespace is an "Unknown character" error as soon
      as there is at least one tokenizer: the chain runs once at the end. */
  lemma LexWhitespaceOnly(chain: seq<Tokenizer>, b: seq<byte>, f: seq<char>, p: Pos)
    requires chain != [] && p.offset < |b|
    requires forall i | p.offset <= i < |b| :: IsSpace(b[i])
    ensures Lex(chain, b, f, p).result.Err?
    ensures Lex(chain, b, f, p).result.error.msg == UnknownCharacter
  {
    var p1 := SkipWhitespace(b, p);
    TokenizeAtEof(chain, b, f, p1);
  }

  /** Do does not reset the cursor: after a successful run, a second run
      over the same bytes yields no tokens at all. */
  lemma LexRerunIsEmpty(chain: seq<Tokenizer>, b: seq<byte>, f: seq<char>, p: Pos)
    requires Lex(chain, b, f, p).result.Ok?
    ensures var after := Lex(chain, b, f, p).after;
      Lex(chain, b, f, after) == Lexed(Ok([]), after)
  {
  }

  const FooNumber: seq<byte> := [102, 111, 111, 32, 49, 50, 51]

  /** In "foo 123" the chain first takes the identifier foo. */
  lemma FooNumberFirstToken()
    ensures Tokenize(DefaultChain, FooNumber, [], Start) == Scan(Matched(Lexeme([102, 111, 111], Identifier)), Pos(3, 1, 4))
  {
    var b := FooNumber;
    var foo: seq<byte> := [102, 111, 111];
    assert SkipWord(b, Pos(3, 1, 4)) == Pos(3, 1, 4);
    assert SkipWord(b, Pos(2, 1, 3)) == Pos(3, 1, 4);
    assert SkipWord(b, Pos(1, 1, 2)) == Pos(3, 1, 4);
    assert SkipWord(b, Start) == Pos(3, 1, 4);
    assert b[0..3] == foo;
    assert IsIdentifier(foo);
    assert IdentifierScan(b, [], Start) == Scan(Matched(Lexeme(foo, Identifier)), Pos(3, 1, 4));
    DispatchWord(b, [], Start);
  }

  /** After the blank, the chain takes the number 123. */
  lemma FooNumberSecondToken()
    ensures Tokenize(DefaultChain, FooNumber, [], Pos(4, 1, 5)) == Scan(Matched(Lexeme([49, 50, 51], Number)), Pos(7, 1, 8))
  {
    var b := FooNumber;
    assert SkipDigits(b, Pos(7, 1, 8)) == Pos(7, 1, 8);
    assert SkipDigits(b, Pos(6, 1, 7)) == Pos(7, 1, 8);
    assert SkipDigits(b, Pos(5, 1, 6)) == Pos(7, 1, 8);
    assert SkipDigits(b, Pos(4, 1, 5)) == Pos(7, 1, 8);
    assert b[4..7] == [49, 50, 51];
    DispatchDigit(b, [], Pos(4, 1, 5));
  }

  /** One turn of Do's loop that emits a token. */
  lemma LexLoopMatched(chain: seq<Tokenizer>, b: seq<byte>, f: seq<char>, p: Pos, acc: seq<Lexeme>, lx: Lexeme, q: Pos)
    requires !AtEof(b, p) && Tokenize(chain, b, f, SkipWhitespace(b, p)) == Scan(Matched(lx), q)
    ensures LexLoop(chain, b, f, p, acc) == LexLoop(chain, b, f, SkipWhitespace(b, q), acc + [lx])
  {
  }

  /** "foo 123" lexes to the identifier foo and the number 123. */
  lemma LexFooNumber()
    ensures Lex(DefaultChain, FooNumber, [], Start).result
      == Ok([Lexeme([102, 111, 111], Identifier), Lexeme([49, 50, 51], Number)])
  {
    var b := FooNumber;
    var foo := Lexeme([102, 111, 111], Identifier);
    var num := Lexeme([49, 50, 51], Number);
    assert SkipWhitespace(b, Start) == Start;
    FooNumberFirstToken();
    LexLoopMatched(DefaultChain, b, [], Start, [], foo, Pos(3, 1, 4));
    assert SkipWhitespace(b, Pos(4, 1, 5)) == Pos(4, 1, 5);
    assert SkipWhitespace(b, Pos(3, 1, 4)) == Pos(4, 1, 5);
    FooNumberSecondToken();
    LexLoopMatched(DefaultChain, b, [], Pos(4, 1, 5), [] + [foo], num, Pos(7, 1, 8));
    assert SkipWhitespace(b, Pos(7, 1, 8)) == Pos(7, 1, 8);
    assert [] + [foo] + [num] == [foo, num];
  }
}
