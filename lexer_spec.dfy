/** The lexer as functions of the byte buffer and a cursor value: the cursor
    moves of lexer/lexer.go, the default tokenizers of
    lexer/tokenizer/default.go and the driving loop of Lexer.Do. The class
    in lexer.dfy is proved to follow these functions step for step. */
module LexerSpec {
  import opened Token
  import opened Results

  /** A snapshot of the lexer's Position object. */
  datatype Pos = Pos(offset: nat, line: int, column: int)

  /** Where a freshly built lexer starts. */
  const Start: Pos := Pos(0, 1, 1)

  /** What can go wrong while lexing. */
  datatype LexMsg =
    | UnknownCharacter
    | UnterminatedString
    | CharExpectedLetter
    | UnterminatedChar
    | SliceStartAfterEnd(start: int, end: int)
    | SliceNegativeStart(start: int)
    | SliceEndOutOfBounds(end: int)

  /** An error, tagged with the file name and the cursor's line and column
      at the moment it was made. */
  datatype LexError = LexError(msg: LexMsg, filename: seq<char>, line: int, column: int)

  /** A token's value without its (shared) position. */
  datatype Lexeme = Lexeme(literal: seq<byte>, kind: Kind)

  /** What one tokenizer reports. */
  datatype Outcome = Matched(lexeme: Lexeme) | NoMatch | Failed(err: LexError)

  /** A tokenizer's report together with where it left the cursor. */
  datatype Scan = Scan(outcome: Outcome, after: Pos)

  /** The registered tokenizers; the five default ones. */
  datatype Tokenizer = IdentifierTokenizer | NumberTokenizer | SeparatorTokenizer | StringTokenizer | CharTokenizer

  /** The default chain, in registration order. */
  const DefaultChain: seq<Tokenizer> :=
    [IdentifierTokenizer, NumberTokenizer, SeparatorTokenizer, StringTokenizer, CharTokenizer]

  // ---------------------------------------------------------------- cursor

  predicate AtEof(b: seq<byte>, p: Pos) {
    p.offset >= |b|
  }

  predicate AtSof(p: Pos) {
    p.offset <= 0
  }

  /** The byte under the cursor, 0 at the end of the input. */
  function CurrentAt(b: seq<byte>, off: nat): byte {
    if off >= |b| then 0 else b[off]
  }

  function MakeError(msg: LexMsg, filename: seq<char>, p: Pos): LexError {
    LexError(msg, filename, p.line, p.column)
  }

  /** One byte forward; the line is bumped when the cursor lands ON a newline. */
  function Step(b: seq<byte>, p: Pos): (q: Pos)
    ensures AtEof(b, p) ==> q == p
    ensures !AtEof(b, p) ==> q.offset == p.offset + 1
  {
    if AtEof(b, p) then p
    else
      var o := p.offset + 1;
      if CurrentAt(b, o) == NewlineByte then Pos(o, p.line + 1, 1)
      else Pos(o, p.line, p.column + 1)
  }

  /** The number of non-newline bytes directly before index k. */
  function RunBefore(b: seq<byte>, k: nat): (n: nat)
    requires k <= |b|
    ensures n <= k
    ensures forall i | k - n <= i < k :: b[i] != NewlineByte
    ensures n < k ==> b[k - n - 1] == NewlineByte
  {
    if k == 0 || b[k - 1] == NewlineByte then 0 else 1 + RunBefore(b, k - 1)
  }

  /** One byte back; landing on a newline drops the line and recounts the
      column back to the previous newline, otherwise the column drops but
      never below 1. */
  function StepBack(b: seq<byte>, p: Pos): (q: Pos)
    ensures AtSof(p) ==> q == p
    ensures !AtSof(p) ==> q.offset == p.offset - 1
  {
    if AtSof(p) then p
    else
      var o := p.offset - 1;
      if CurrentAt(b, o) == NewlineByte then Pos(o, p.line - 1, 1 + RunBefore(b, o))
      else Pos(o, p.line, if p.column > 1 then p.column - 1 else p.column)
  }

  /** k steps back, as the backtracking loop of the Identifier tokenizer does. */
  function StepBackN(b: seq<byte>, p: Pos, k: nat): (q: Pos)
    ensures k <= p.offset ==> q.offset == p.offset - k
    decreases k
  {
    if k == 0 then p else StepBackN(b, StepBack(b, p), k - 1)
  }

  /** Slice(start, end): the three range checks in the source's order. */
  function Slice(b: seq<byte>, filename: seq<char>, p: Pos, start: int, end: int): (r: Result<seq<byte>, LexError>)
    ensures r.Ok? <==> 0 <= start <= end <= |b|
    ensures r.Ok? ==> r.value == b[start..end]
  {
    if start > end then Err(MakeError(SliceStartAfterEnd(start, end), filename, p))
    else if start < 0 then Err(MakeError(SliceNegativeStart(start), filename, p))
    else if end > |b| then Err(MakeError(SliceEndOutOfBounds(end), filename, p))
    else Ok(b[start..end])
  }

  // ----------------------------------------------------------- byte runs

  predicate IsWordByte(c: byte) {
    IsLetter(c) || c == UnderscoreByte || IsDigit(c)
  }

  /** The maximal run of letters, digits and underscores from p. */
  function SkipWord(b: seq<byte>, p: Pos): (q: Pos)
    ensures p.offset <= q.offset
    ensures p.offset < q.offset ==> q.offset <= |b|
    ensures forall i | p.offset <= i < q.offset :: IsWordByte(b[i])
    ensures !IsWordByte(CurrentAt(b, q.offset))
    decreases |b| - p.offset
  {
    var c := CurrentAt(b, p.offset);
    if c == 0 || !IsWordByte(c) then p else SkipWord(b, Step(b, p))
  }

  /** The maximal run of decimal digits from p. */
  function SkipDigits(b: seq<byte>, p: Pos): (q: Pos)
    ensures p.offset <= q.offset
    ensures p.offset < q.offset ==> q.offset <= |b|
    ensures forall i | p.offset <= i < q.offset :: IsDigit(b[i])
    ensures !IsDigit(CurrentAt(b, q.offset))
    decreases |b| - p.offset
  {
    var c := CurrentAt(b, p.offset);
    if c == 0 || !IsDigit(c) then p else SkipDigits(b, Step(b, p))
  }

  /** The maximal run of whitespace from p. */
  function SkipWhitespace(b: seq<byte>, p: Pos): (q: Pos)
    ensures p.offset <= q.offset
    ensures p.offset < q.offset ==> q.offset <= |b|
    ensures forall i | p.offset <= i < q.offset :: IsSpace(b[i])
    ensures !IsSpace(CurrentAt(b, q.offset))
    decreases |b| - p.offset
  {
    var c := CurrentAt(b, p.offset);
    if c == 0 || !IsSpace(c) then p else SkipWhitespace(b, Step(b, p))
  }

  /** Where a string body stops: on the closing quote, or at the end. */
  datatype Stop = Closed(at: Pos) | HitEof(at: Pos)

  /** The string loop: step first, then test for the end, then for the
      quote; so the byte after the opening quote is never tested. */
  function StringClose(b: seq<byte>, p: Pos): (s: Stop)
    ensures s.Closed? ==> p.offset < s.at.offset < |b| && b[s.at.offset] == QuoteByte
    ensures s.Closed? ==> forall i | p.offset < i < s.at.offset :: b[i] != QuoteByte
    ensures s.HitEof? ==> AtEof(b, s.at)
    ensures s.HitEof? ==> forall i | p.offset < i < |b| :: b[i] != QuoteByte
    decreases |b| - p.offset
  {
    var q := Step(b, p);
    if AtEof(b, q) then HitEof(q)
    else if CurrentAt(b, q.offset) == QuoteByte then Closed(q)
    else StringClose(b, q)
  }

  // ------------------------------------------------------------ tokenizers

  function IdentifierScan(b: seq<byte>, filename: seq<char>, p: Pos): (s: Scan)
    ensures s.outcome.NoMatch? ==> s.after.offset == p.offset
    ensures s.outcome.Matched? ==> s.after.offset > p.offset
    ensures s.outcome.Matched? ==> s.after.offset <= |b|
  {
    var c := CurrentAt(b, p.offset);
    if c == 0 || (!IsLetter(c) && c != UnderscoreByte) then Scan(NoMatch, p)
    else
      var e := SkipWord(b, p);
      match Slice(b, filename, e, p.offset, e.offset)
      case Err(err) => Scan(Failed(err), e)
      case Ok(str) =>
        if !IsIdentifier(str) then Scan(NoMatch, StepBackN(b, e, e.offset - p.offset))
        else Scan(Matched(Lexeme(str, Identifier)), e)
  }

  function NumberScan(b: seq<byte>, filename: seq<char>, p: Pos): (s: Scan)
    ensures s.outcome.NoMatch? ==> s.after == p
    ensures s.outcome.Matched? ==> s.after.offset > p.offset
    ensures s.outcome.Matched? ==> s.after.offset <= |b|
  {
    var c := CurrentAt(b, p.offset);
    if c == 0 || !IsDigit(c) then Scan(NoMatch, p)
    else
      var e := SkipDigits(b, p);
      match Slice(b, filename, e, p.offset, e.offset)
      case Err(err) => Scan(Failed(err), e)
      case Ok(str) => Scan(Matched(Lexeme(str, Number)), e)
  }

  function SeparatorScan(b: seq<byte>, filename: seq<char>, p: Pos): (s: Scan)
    ensures s.outcome.NoMatch? ==> s.after == p
    ensures s.outcome.Matched? ==> s.after.offset == p.offset + 1
    ensures s.outcome.Matched? ==> s.after.offset <= |b|
    ensures !s.outcome.Failed?
  {
    var c := CurrentAt(b, p.offset);
    if c == 0 || RuneString(c) !in Separators then Scan(NoMatch, p)
    else Scan(Matched(Lexeme(RuneString(c), Separator)), Step(b, p))
  }

  function StringScan(b: seq<byte>, filename: seq<char>, p: Pos): (s: Scan)
    ensures s.outcome.NoMatch? ==> s.after == p
    ensures s.outcome.Matched? ==> s.after.offset >= p.offset + 3
    ensures s.outcome.Matched? ==> s.after.offset <= |b|
  {
    var c := CurrentAt(b, p.offset);
    if c == 0 || c != QuoteByte then Scan(NoMatch, p)
    else
      var p1 := Step(b, p);
      var start := p1.offset;
      match StringClose(b, p1)
      case HitEof(q) => Scan(Failed(MakeError(UnterminatedString, filename, q)), q)
      case Closed(q) =>
        var end := q.offset;
        var p3 := Step(b, q);
        match Slice(b, filename, p3, start, end)
        case Err(err) => Scan(Failed(err), p3)
        case Ok(str) => Scan(Matched(Lexeme(str, String)), p3)
  }

  function CharScan(b: seq<byte>, filename: seq<char>, p: Pos): (s: Scan)
    ensures s.outcome.NoMatch? ==> s.after == p
    ensures s.outcome.Matched? ==> s.after.offset == p.offset + 3
    ensures s.outcome.Matched? ==> s.after.offset <= |b|
  {
    var c := CurrentAt(b, p.offset);
    if c == 0 || c != BacktickByte then Scan(NoMatch, p)
    else
      var p1 := Step(b, p);
      var ch := CurrentAt(b, p1.offset);
      if !IsLetter(ch) then Scan(Failed(MakeError(CharExpectedLetter, filename, p1)), p1)
      else
        var p2 := Step(b, p1);
        if CurrentAt(b, p2.offset) != BacktickByte || AtEof(b, p2) then
          Scan(Failed(MakeError(UnterminatedChar, filename, p2)), p2)
        else Scan(Matched(Lexeme(RuneString(ch), Char)), Step(b, p2))
  }

  function RunTokenizer(t: Tokenizer, b: seq<byte>, filename: seq<char>, p: Pos): (s: Scan)
    ensures s.outcome.NoMatch? ==> s.after.offset == p.offset
    ensures s.outcome.Matched? ==> s.after.offset > p.offset
    ensures s.outcome.Matched? ==> s.after.offset <= |b|
  {
    match t
    case IdentifierTokenizer => IdentifierScan(b, filename, p)
    case NumberTokenizer => NumberScan(b, filename, p)
    case SeparatorTokenizer => SeparatorScan(b, filename, p)
    case StringTokenizer => StringScan(b, filename, p)
    case CharTokenizer => CharScan(b, filename, p)
  }

  /** tokenize: the first tokenizer that does not decline decides; when all
      decline, "Unknown character" at the cursor. */
  function Tokenize(chain: seq<Tokenizer>, b: seq<byte>, filename: seq<char>, p: Pos): (s: Scan)
    ensures s.outcome != NoMatch
    ensures s.outcome.Matched? ==> s.after.offset > p.offset
    ensures s.outcome.Matched? ==> s.after.offset <= |b|
    decreases |chain|
  {
    if chain == [] then Scan(Failed(MakeError(UnknownCharacter, filename, p)), p)
    else
      var s := RunTokenizer(chain[0], b, filename, p);
      if s.outcome.NoMatch? then Tokenize(chain[1..], b, filename, s.after) else s
  }

  /** What a run of Do yields, and where it leaves the cursor. */
  datatype Lexed = Lexed(result: Result<seq<Lexeme>, LexError>, after: Pos)

  /** The loop of Do: skip whitespace, tokenize, skip whitespace, until the
      end; the first error discards everything. */
  function LexLoop(chain: seq<Tokenizer>, b: seq<byte>, filename: seq<char>, p: Pos, acc: seq<Lexeme>): (r: Lexed)
    ensures r.result.Ok? ==> AtEof(b, r.after)
    ensures r.result.Ok? ==> |r.result.value| >= |acc| && r.result.value[..|acc|] == acc
    decreases |b| - p.offset
  {
    if AtEof(b, p) then Lexed(Ok(acc), p)
    else
      var p1 := SkipWhitespace(b, p);
      var s := Tokenize(chain, b, filename, p1);
      match s.outcome
      case Failed(err) => Lexed(Err(err), s.after)
      case Matched(lx) => LexLoop(chain, b, filename, SkipWhitespace(b, s.after), acc + [lx])
  }

  /** Do: nothing at all without tokenizers, otherwise the loop. */
  function Lex(chain: seq<Tokenizer>, b: seq<byte>, filename: seq<char>, p: Pos): (r: Lexed)
    ensures chain == [] ==> r == Lexed(Ok([]), p)
  {
    if chain == [] then Lexed(Ok([]), p) else LexLoop(chain, b, filename, p, [])
  }
}
