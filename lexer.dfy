/** The lexer engine of lexer/lexer.go and the default tokenizers of
    lexer/tokenizer/default.go, as a class over the buffered bytes and one
    mutable Position object. Every method is proved to follow the matching
    function of LexerSpec. The tokenizers are methods of the class here
    (in the source they are functions handed a cursor context), so that the
    chain and the engine live in one module without an import cycle. */
module Lexer {
  import opened Token
  import opened Results
  import opened LexerSpec

  /** What a tokenizer hands back to the engine. */
  datatype TokResult = Emitted(token: Token) | Declined | Error(err: LexError)

  /** Attaches the shared position object to a tokenizer's outcome. */
  function Realize(o: Outcome, pos: Position): (r: TokResult)
    ensures o.Matched? <==> r.Emitted?
    ensures r.Emitted? ==> r.token.literal == o.lexeme.literal && r.token.kind == o.lexeme.kind && r.token.pos == pos
    ensures o.NoMatch? <==> r.Declined?
    ensures o.Failed? ==> r == Error(o.err)
  {
    match o
    case Matched(lx) => Emitted(New(lx.literal, lx.kind, pos))
    case NoMatch => Declined
    case Failed(e) => Error(e)
  }

  /** Every lexeme, as a token pointing at pos. */
  function Attach(ls: seq<Lexeme>, pos: Position): (ts: seq<Token>)
    ensures |ts| == |ls|
    ensures forall i | 0 <= i < |ls| :: ts[i] == Token(ls[i].literal, pos, ls[i].kind)
  {
    if ls == [] then [] else Attach(ls[..|ls| - 1], pos) + [Token(ls[|ls| - 1].literal, pos, ls[|ls| - 1].kind)]
  }

  /** The outcome of a whole run, with the shared position attached. */
  function RealizeRun(r: Result<seq<Lexeme>, LexError>, pos: Position): Result<seq<Token>, LexError> {
    match r
    case Ok(ls) => Ok(Attach(ls, pos))
    case Err(e) => Err(e)
  }

  class Lexer {
    var bytes: seq<byte>
    var tokenizers: seq<Tokenizer>
    var filename: seq<char>
    /** The one cursor object; every emitted token points at it. */
    const position: Position

    /** newBase: the cursor starts at offset 0, line 1, column 1. */
    constructor (input: seq<byte>)
      ensures bytes == input && tokenizers == [] && filename == []
      ensures fresh(position) && Snapshot() == Start
    {
      bytes := input;
      tokenizers := [];
      filename := [];
      position := new Position(1, 1, 0);
    }

    function Snapshot(): Pos
      reads position
    {
      Pos(position.offset, position.line, position.column)
    }

    /** SetReader replaces the bytes and leaves the cursor where it is. */
    method SetReader(input: seq<byte>)
      modifies this`bytes
      ensures bytes == input
      ensures tokenizers == old(tokenizers) && filename == old(filename)
    {
      bytes := input;
    }

    method AppendTokenizer(t: Tokenizer)
      modifies this`tokenizers
      ensures tokenizers == old(tokenizers) + [t]
      ensures bytes == old(bytes) && filename == old(filename)
    {
      tokenizers := tokenizers + [t];
    }

    /** Default.Append: registers the five default tokenizers in order. */
    method AppendDefault()
      modifies this`tokenizers
      ensures tokenizers == old(tokenizers) + DefaultChain
      ensures bytes == old(bytes) && filename == old(filename)
    {
      AppendTokenizer(IdentifierTokenizer);
      AppendTokenizer(NumberTokenizer);
      AppendTokenizer(SeparatorTokenizer);
      AppendTokenizer(StringTokenizer);
      AppendTokenizer(CharTokenizer);
    }

    // ------------------------------------------------------ cursor context

    function Eof(): (r: bool)
      reads this, position
      ensures r <==> position.offset >= |bytes|
    {
      AtEof(bytes, Snapshot())
    }

    function Sof(): (r: bool)
      reads position
      ensures r <==> position.offset == 0
    {
      AtSof(Snapshot())
    }

    function Current(): (c: byte)
      reads this, position
      ensures position.offset >= |bytes| ==> c == 0
      ensures position.offset < |bytes| ==> c == bytes[position.offset]
    {
      CurrentAt(bytes, position.offset)
    }

    function Slice(start: int, end: int): (r: Result<seq<byte>, LexError>)
      reads this, position
      ensures r.Ok? <==> 0 <= start <= end <= |bytes|
      ensures r.Ok? ==> r.value == bytes[start..end]
      ensures start > end ==> r.error.msg.SliceStartAfterEnd?
      ensures start <= end && start < 0 ==> r.error.msg.SliceNegativeStart?
      ensures 0 <= start <= end && end > |bytes| ==> r.error.msg.SliceEndOutOfBounds?
    {
      LexerSpec.Slice(bytes, filename, Snapshot(), start, end)
    }

    function NewError(msg: LexMsg): (e: LexError)
      reads this, position
      ensures e.msg == msg && e.filename == filename && e.line == position.line && e.column == position.column
    {
      MakeError(msg, filename, Snapshot())
    }

    method Advance()
      modifies position
      ensures Snapshot() == Step(bytes, old(Snapshot()))
    {
      if Eof() {
        return;
      }
      position.offset := position.offset + 1;
      var cur := Current();
      if cur != 0 && cur == NewlineByte {
        position.line := position.line + 1;
        position.column := 1;
      } else {
        position.column := position.column + 1;
      }
    }

    method Backward()
      modifies position
      ensures Snapshot() == StepBack(bytes, old(Snapshot()))
    {
      if Sof() {
        return;
      }
      position.offset := position.offset - 1;
      var cur := Current();
      if cur == NewlineByte {
        position.line := position.line - 1;
        var col := 1;
        var i := position.offset - 1;
        while i >= 0
          invariant -1 <= i < position.offset < |bytes|
          invariant col == 1 + (position.offset - 1 - i)
          invariant RunBefore(bytes, position.offset) == (position.offset - 1 - i) + RunBefore(bytes, i + 1)
          decreases i
        {
          if bytes[i] == NewlineByte {
            break;
          }
          col := col + 1;
          i := i - 1;
        }
        position.column := col;
      } else {
        if position.column > 1 {
          position.column := position.column - 1;
        }
      }
    }

    // ------------------------------------------------- default tokenizers

    method Identifier() returns (r: TokResult)
      modifies position
      ensures var s := IdentifierScan(bytes, filename, old(Snapshot()));
        r == Realize(s.outcome, position) && Snapshot() == s.after
    {
      var cur := Current();
      if cur == 0 || (!IsLetter(cur) && cur != UnderscoreByte) {
        return Declined;
      }
      var start := position.offset;
      ghost var stop := SkipWord(bytes, Snapshot());
      while true
        invariant SkipWord(bytes, Snapshot()) == stop
        decreases |bytes| - position.offset
      {
        var c := Current();
        if c == 0 || !IsWordByte(c) {
          break;
        }
        Advance();
      }
      var end := position.offset;
      var sliced := Slice(start, end);
      var str: seq<byte>;
      match sliced {
        case Err(e) => return Error(e);
        case Ok(v) => str := v;
      }
      if !IsIdentifier(str) {
        var i := 0;
        while i < end - start
          invariant 0 <= i <= end - start
          invariant StepBackN(bytes, Snapshot(), end - start - i) == StepBackN(bytes, stop, end - start)
        {
          Backward();
          i := i + 1;
        }
        return Declined;
      }
      return Emitted(New(str, Kind.Identifier, position));
    }

    method Number() returns (r: TokResult)
      modifies position
      ensures var s := NumberScan(bytes, filename, old(Snapshot()));
        r == Realize(s.outcome, position) && Snapshot() == s.after
    {
      var cur := Current();
      if cur == 0 || !IsDigit(cur) {
        return Declined;
      }
      var start := position.offset;
      ghost var stop := SkipDigits(bytes, Snapshot());
      while true
        invariant SkipDigits(bytes, Snapshot()) == stop
        decreases |bytes| - position.offset
      {
        var c := Current();
        if c == 0 || !IsDigit(c) {
          break;
        }
        Advance();
      }
      var end := position.offset;
      var sliced := Slice(start, end);
      match sliced {
        case Err(e) => return Error(e);
        case Ok(str) => return Emitted(New(str, Kind.Number, position));
      }
    }

    method Separator() returns (r: TokResult)
      modifies position
      ensures var s := SeparatorScan(bytes, filename, old(Snapshot()));
        r == Realize(s.outcome, position) && Snapshot() == s.after
    {
      var cur := Current();
      if cur == 0 || RuneString(cur) !in Separators {
        return Declined;
      }
      Advance();
      return Emitted(New(RuneString(cur), Kind.Separator, position));
    }

    method String() returns (r: TokResult)
      modifies position
      ensures var s := StringScan(bytes, filename, old(Snapshot()));
        r == Realize(s.outcome, position) && Snapshot() == s.after
    {
      var cur := Current();
      if cur == 0 || cur != QuoteByte {
        return Declined;
      }
      Advance();
      var start := position.offset;
      ghost var stop := StringClose(bytes, Snapshot());
      while true
        invariant StringClose(bytes, Snapshot()) == stop
        decreases |bytes| - position.offset
      {
        Advance();
        var c := Current();
        if Eof() {
          return Error(NewError(UnterminatedString));
        }
        if c == QuoteByte {
          break;
        }
      }
      var end := position.offset;
      Advance();
      var sliced := Slice(start, end);
      match sliced {
        case Err(e) => return Error(e);
        case Ok(str) => return Emitted(New(str, Kind.String, position));
      }
    }

    method Char() returns (r: TokResult)
      modifies position
      ensures var s := CharScan(bytes, filename, old(Snapshot()));
        r == Realize(s.outcome, position) && Snapshot() == s.after
    {
      var cur := Current();
      if cur == 0 || cur != BacktickByte {
        return Declined;
      }
      Advance();
      var ch := Current();
      if !IsLetter(ch) {
        return Error(NewError(CharExpectedLetter));
      }
      Advance();
      var close := Current();
      if close != BacktickByte || Eof() {
        return Error(NewError(UnterminatedChar));
      }
      Advance();
      return Emitted(New(RuneString(ch), Kind.Char, position));
    }

    // --------------------------------------------------------------- engine

    method Run(t: Tokenizer) returns (r: TokResult)
      modifies position
      ensures var s := RunTokenizer(t, bytes, filename, old(Snapshot()));
        r == Realize(s.outcome, position) && Snapshot() == s.after
    {
      match t
      case IdentifierTokenizer => r := Identifier();
      case NumberTokenizer => r := Number();
      case SeparatorTokenizer => r := Separator();
      case StringTokenizer => r := String();
      case CharTokenizer => r := Char();
    }

    /** tokenize: tries the registered tokenizers in order. */
    method Tokenize() returns (r: TokResult)
      modifies position
      ensures var s := LexerSpec.Tokenize(tokenizers, bytes, filename, old(Snapshot()));
        r == Realize(s.outcome, position) && Snapshot() == s.after
    {
      ghost var goal := LexerSpec.Tokenize(tokenizers, bytes, filename, Snapshot());
      for i := 0 to |tokenizers|
        invariant LexerSpec.Tokenize(tokenizers[i..], bytes, filename, Snapshot()) == goal
      {
        assert tokenizers[i..][1..] == tokenizers[i + 1..];
        var res := Run(tokenizers[i]);
        if res.Error? {
          return res;
        }
        if res.Declined? {
          continue;
        }
        return res;
      }
      return Error(NewError(UnknownCharacter));
    }

    method SkipWhitespace()
      modifies position
      ensures Snapshot() == LexerSpec.SkipWhitespace(bytes, old(Snapshot()))
    {
      ghost var stop := LexerSpec.SkipWhitespace(bytes, Snapshot());
      while true
        invariant LexerSpec.SkipWhitespace(bytes, Snapshot()) == stop
        decreases |bytes| - position.offset
      {
        var cur := Current();
        if !(cur != 0 && IsSpace(cur)) {
          break;
        }
        Advance();
      }
    }

    /** Do: runs the chain over the whole input from where the cursor
        stands (it is not reset); all tokens, or the first error. */
    method Do(name: seq<char>) returns (r: Result<seq<Token>, LexError>)
      modifies this`filename, position
      ensures filename == name
      ensures var run := Lex(tokenizers, bytes, name, old(Snapshot()));
        r == RealizeRun(run.result, position) && Snapshot() == run.after
    {
      filename := name;
      if |tokenizers| == 0 {
        return Ok([]);
      }
      ghost var goal := LexLoop(tokenizers, bytes, name, Snapshot(), []);
      ghost var acc: seq<Lexeme> := [];
      var tokens: seq<Token> := [];
      while !Eof()
        invariant filename == name
        invariant tokens == Attach(acc, position)
        invariant LexLoop(tokenizers, bytes, name, Snapshot(), acc) == goal
        decreases |bytes| - position.offset
      {
        SkipWhitespace();
        var tok := Tokenize();
        if tok.Error? {
          return Err(tok.err);
        }
        tokens := tokens + [tok.token];
        acc := acc + [Lexeme(tok.token.literal, tok.token.kind)];
        SkipWhitespace();
      }
      return Ok(tokens);
    }
  }
}
