/** Properties of the grammar in Grammar: where syntax errors point, how many
    top-level nodes a run can build, the number conversion used for fixed
    array sizes, and concrete parses of small programs. */
module ParserProps {
  import opened Token
  import opened Grammar
  import Results
  import Lexer
  import LexerSpec

  // ------------------------------------------------------------ errors

  /** The error points at the position object of a token at index i or
      later. */
  ghost predicate Blamed(toks: seq<Token>, i: nat, e: SyntaxError) {
    exists k | i <= k < |toks| :: toks[k].pos == e.at
  }

  lemma {:induction false} ExpressionBlames(toks: seq<Token>, i: nat)
    ensures var r := ParseExpression(toks, i); r.Fail? ==> Blamed(toks, i, r.err)
    decreases |toks| - i, 2
  {
    if i < |toks| {
      var t := toks[i];
      if IsValueKind(t.kind) || t.kind == Identifier {
      } else if t.kind == Kind.SpecialFunction {
        SpecialFunctionBlames(toks, i);
      } else if t.literal == LParen {
        FunctionBlames(toks, i);
      } else if t.literal == LBracket {
        ArrayBlames(toks, i);
      }
    }
  }

  lemma {:induction false} FunctionBlames(toks: seq<Token>, i: nat)
    ensures var r := ParseFunction(toks, i); r.Fail? ==> Blamed(toks, i, r.err)
    decreases |toks| - i, 1
  {
    FunctionArgsBlames(toks, i);
    match ParseFunctionArgs(toks, i)
    case Ok(_, j) => FunctionBodyBlames(toks, j);
    case _ =>
  }

  lemma FunctionArgsBlames(toks: seq<Token>, i: nat)
    ensures var r := ParseFunctionArgs(toks, i); r.Fail? ==> Blamed(toks, i, r.err)
  {
    if i < |toks| && toks[i].literal == LParen {
      ArgsLoopBlames(toks, i + 1, []);
    }
  }

  lemma {:induction false} ArgsLoopBlames(toks: seq<Token>, j: nat, acc: seq<FunctionArgument>)
    ensures var r := ArgsLoop(toks, j, acc); r.Fail? ==> Blamed(toks, j, r.err)
    decreases |toks| - j
  {
    if j + 1 < |toks| && toks[j].literal != RParen && toks[j].kind == Identifier {
      var variadic := toks[j + 1].literal == Caret;
      var m := if variadic then j + 2 else j + 1;
      AfterArgBlames(toks, m, acc + [FunctionArgument(toks[j].literal, variadic)]);
    }
  }

  lemma {:induction false} AfterArgBlames(toks: seq<Token>, m: nat, acc: seq<FunctionArgument>)
    ensures var r := AfterArg(toks, m, acc); r.Fail? ==> Blamed(toks, m, r.err)
    decreases |toks| - m
  {
    if m < |toks| && toks[m].literal == Comma {
      ArgsLoopBlames(toks, m + 1, acc);
    }
  }

  lemma {:induction false} FunctionBodyBlames(toks: seq<Token>, i: nat)
    ensures var r := ParseFunctionBody(toks, i); r.Fail? ==> Blamed(toks, i, r.err)
    decreases |toks| - i, 1
  {
    if i < |toks| && toks[i].literal == LBrace {
      BodyLoopBlames(toks, i + 1, []);
    }
  }

  lemma {:induction false} BodyLoopBlames(toks: seq<Token>, j: nat, acc: seq<Instruction>)
    requires j <= |toks|
    ensures var r := BodyLoop(toks, j, acc); r.Fail? ==> Blamed(toks, j, r.err)
    decreases |toks| - j, 3
  {
    if j < |toks| && toks[j].literal != RBrace {
      InstructionBlames(toks, j);
      match ParseInstruction(toks, j)
      case Ok(ins, k) => BodyLoopBlames(toks, k, acc + [ins]);
      case _ =>
    }
  }

  lemma {:induction false} InstructionBlames(toks: seq<Token>, i: nat)
    ensures var r := ParseInstruction(toks, i); r.Fail? ==> Blamed(toks, i, r.err)
    decreases |toks| - i, 1
  {
    if i < |toks| && toks[i].kind == Identifier {
      ListLoopBlames(toks, i + 1, Semicolon, ExpectedCommaOrSemicolon, []);
    }
  }

  lemma {:induction false} ListLoopBlames(toks: seq<Token>, j: nat, close: seq<byte>, msg: ParseMsg, acc: seq<Node>)
    requires close != Comma
    ensures var r := ListLoop(toks, j, close, msg, acc); r.Fail? ==> Blamed(toks, j, r.err)
    decreases |toks| - j, 3
  {
    if j < |toks| && toks[j].literal != close {
      ExpressionBlames(toks, j);
      match ParseExpression(toks, j)
      case Ok(e, k) => AfterElementBlames(toks, k, close, msg, acc + [e]);
      case _ =>
    }
  }

  lemma {:induction false} AfterElementBlames(toks: seq<Token>, k: nat, close: seq<byte>, msg: ParseMsg, acc: seq<Node>)
    requires close != Comma
    ensures var r := AfterElement(toks, k, close, msg, acc); r.Fail? ==> Blamed(toks, k, r.err)
    decreases |toks| - k, 4
  {
    if k < |toks| && toks[k].literal == Comma {
      ListLoopBlames(toks, k + 1, close, msg, acc);
    }
  }

  lemma {:induction false} ArrayBlames(toks: seq<Token>, i: nat)
    ensures var r := ParseArray(toks, i); r.Fail? ==> Blamed(toks, i, r.err)
    decreases |toks| - i, 1
  {
    if i < |toks| && toks[i].literal == LBracket {
      ListLoopBlames(toks, i + 1, RBracket, ExpectedRBracketOrComma, []);
    }
  }

  lemma {:induction false} SpecialFunctionBlames(toks: seq<Token>, i: nat)
    ensures var r := ParseSpecialFunction(toks, i); r.Fail? ==> Blamed(toks, i, r.err)
    decreases |toks| - i, 1
  {
    if i + 1 < |toks| && toks[i].kind == Kind.SpecialFunction && toks[i + 1].literal == LParen {
      ListLoopBlames(toks, i + 2, RParen, ExpectedCommaOrRParenAfterSpecialArg, []);
    }
  }

  lemma ChainBlames(minis: seq<MiniParser>, toks: seq<Token>, i: nat)
    requires i < |toks|
    ensures var r := ParseChain(minis, toks, i); r.Failed? ==> Blamed(toks, i, r.err)
    decreases |minis|
  {
    if minis != [] {
      ExpressionBlames(toks, i + 1);
      ChainBlames(minis[1..], toks, i);
    }
  }

  /** A failed run reports the position of one of the tokens. */
  lemma {:induction false} ParseAllBlames(minis: seq<MiniParser>, toks: seq<Token>, filename: seq<char>, i: nat, acc: seq<Node>)
    ensures var r := ParseAll(minis, toks, filename, i, acc); r.Error? ==> r.filename == filename && Blamed(toks, i, r.err)
    decreases |toks| - i
  {
    if i < |toks| {
      ChainBlames(minis, toks, i);
      match ParseChain(minis, toks, i)
      case Claimed(n, k) => ParseAllBlames(minis, toks, filename, k, acc + [n]);
      case _ =>
    }
  }

  /** The lexer gives every token of a run the same position object, its
      own cursor (see Lexer.Attach). A syntax error in such a token
      sequence therefore always reports that one object, which after the
      lexer has run holds the end of the input, whichever token was at
      fault. */
  lemma ErrorsReportLexerCursor(minis: seq<MiniParser>, ls: seq<LexerSpec.Lexeme>, pos: Position, filename: seq<char>)
    ensures var r := Parse(minis, Lexer.Attach(ls, pos), filename); r.Error? ==> r.err.at == pos
  {
    if minis != [] {
      ParseAllBlames(minis, Lexer.Attach(ls, pos), filename, 0, []);
    }
  }

  // ------------------------------------------------------------ shape

  /** Every run builds only TopLevel nodes, at most one per token. */
  lemma {:induction false} ParseAllShape(minis: seq<MiniParser>, toks: seq<Token>, filename: seq<char>, i: nat, acc: seq<Node>)
    requires i <= |toks|
    ensures var r := ParseAll(minis, toks, filename, i, acc);
      r.Built? ==>
        && |r.tree.topLevel| <= |acc| + (|toks| - i)
        && forall k | |acc| <= k < |r.tree.topLevel| :: r.tree.topLevel[k].TopLevel?
    decreases |toks| - i
  {
    if i < |toks| {
      match ParseChain(minis, toks, i)
      case Claimed(n, k) =>
        ChainBuildsTopLevel(minis, toks, i);
        ParseAllShape(minis, toks, filename, k, acc + [n]);
      case _ =>
    }
  }

  lemma ChainBuildsTopLevel(minis: seq<MiniParser>, toks: seq<Token>, i: nat)
    requires i < |toks|
    ensures var r := ParseChain(minis, toks, i); r.Claimed? ==> r.node.TopLevel?
    decreases |minis|
  {
    if minis != [] {
      ChainBuildsTopLevel(minis[1..], toks, i);
    }
  }

  /** With the default chain, a top-level parse starts with an identifier
      or fails with "Unknown token" at the first token. */
  lemma DefaultChainDecides(toks: seq<Token>, i: nat)
    requires i < |toks|
    ensures ParseChain(DefaultMinis, toks, i) ==
      if toks[i].kind == Identifier then ParseTopLevel(toks, i)
      else Failed(SyntaxError(UnknownToken, toks[i].pos))
  {
    assert DefaultMinis[1..] == [];
  }

  // ------------------------------------------------------------ dispatch

  /** Expression is decided by the current token: a value kind gives a
      Value of that one token, an identifier a reference to it, a
      special-function name a call; otherwise "(" starts a function, "["
      an array, and any other token is "Unknown token" at that token. No
      token at all is the nil dereference. */
  lemma ExpressionDispatch(toks: seq<Token>, i: nat)
    ensures i >= |toks| ==> ParseExpression(toks, i) == Panic
    ensures i < |toks| ==>
      var t := toks[i];
      var r := ParseExpression(toks, i);
      var other := !IsValueKind(t.kind) && t.kind != Identifier && t.kind != Kind.SpecialFunction;
      && (IsValueKind(t.kind) ==> r == Ok(Value(t.literal, t.kind), i + 1))
      && (t.kind == Identifier ==> r == Ok(ReferenceToIdentifier(t.literal), i + 1))
      && (t.kind == Kind.SpecialFunction ==> r == ParseSpecialFunction(toks, i))
      && (other && t.literal == LParen ==> r == ParseFunction(toks, i))
      && (other && t.literal == LBracket ==> r == ParseArray(toks, i))
      && (other && t.literal != LParen && t.literal != LBracket ==>
            r == Fail(SyntaxError(UnknownToken, t.pos)))
  {
  }

  /** The size of an array: it is fixed exactly when a Number token follows
      "]", and then that token is consumed and read by Atoi; otherwise the
      size is 0 and nothing after "]" is consumed. A Number that Atoi
      rejects is a conversion error at that token, and no token after "]"
      is the nil dereference. */
  lemma ArrayFixedSize(toks: seq<Token>, i: nat)
    ensures var r := ParseArray(toks, i);
      r.Ok? ==>
        && i < |toks| && toks[i].literal == LBracket
        && var l := ListLoop(toks, i + 1, RBracket, ExpectedRBracketOrComma, []);
        && l.Ok? && l.next < |toks|
        && r.value.Array? && r.value.elements == l.value
        && (r.value.fixed <==> toks[l.next].kind == Number)
        && (r.value.fixed ==>
              Atoi(toks[l.next].literal) == Results.Some(r.value.fixedSize) && r.next == l.next + 1)
        && (!r.value.fixed ==> r.value.fixedSize == 0 && r.next == l.next)
        && toks[l.next - 1].literal == RBracket
    ensures var r := ParseArray(toks, i);
      i < |toks| && toks[i].literal == LBracket ==>
        var l := ListLoop(toks, i + 1, RBracket, ExpectedRBracketOrComma, []);
        && (l.Ok? && l.next >= |toks| ==> r == Panic)
        && (l.Ok? && l.next < |toks| && toks[l.next].kind == Number && Atoi(toks[l.next].literal).None? ==>
              r == Fail(SyntaxError(ConversionFailed, toks[l.next].pos)))
  {
    ListLoopCloses(toks, i + 1, RBracket, ExpectedRBracketOrComma, []);
  }

  // ------------------------------------------------------------ shapes

  /** A list loop that succeeds ends just past its closing literal. */
  lemma {:induction false} ListLoopCloses(toks: seq<Token>, j: nat, close: seq<byte>, msg: ParseMsg, acc: seq<Node>)
    requires close != Comma
    ensures var r := ListLoop(toks, j, close, msg, acc);
      r.Ok? ==> toks[r.next - 1].literal == close
    decreases |toks| - j
  {
    if j < |toks| && toks[j].literal != close {
      match ParseExpression(toks, j)
      case Ok(e, k) => AfterElementCloses(toks, k, close, msg, acc + [e]);
      case _ =>
    }
  }

  lemma {:induction false} AfterElementCloses(toks: seq<Token>, k: nat, close: seq<byte>, msg: ParseMsg, acc: seq<Node>)
    requires close != Comma
    ensures var r := AfterElement(toks, k, close, msg, acc);
      r.Ok? ==> toks[r.next - 1].literal == close
    decreases |toks| - k
  {
    if k < |toks| && toks[k].literal == Comma {
      ListLoopCloses(toks, k + 1, close, msg, acc);
    }
  }

  /** The token at k names the argument arg: an identifier whose literal is
      the name, variadic exactly when "^" follows it. */
  predicate ArgAt(toks: seq<Token>, k: nat, arg: FunctionArgument) {
    k + 1 < |toks| && toks[k].kind == Identifier && arg.name == toks[k].literal
    && (arg.variadic <==> toks[k + 1].literal == Caret)
  }

  /** Every argument of vals from index from on is named by an identifier
      token at some position in [lo, hi). */
  predicate ArgsNamed(toks: seq<Token>, lo: int, hi: int, vals: seq<FunctionArgument>, from: nat)
  {
    forall a | from <= a < |vals| :: NamedBetween(toks, lo, hi, vals[a])
  }

  /** Some identifier token at a position in [lo, hi) names arg. */
  predicate NamedBetween(toks: seq<Token>, lo: int, hi: int, arg: FunctionArgument)
  {
    exists k: nat | lo <= k < hi :: ArgAt(toks, k, arg)
  }

  /** Every argument the loop adds is named by an identifier token between
      where the loop starts and the closing ")", which ends the list. */
  lemma {:induction false} ArgsLoopShape(toks: seq<Token>, j: nat, acc: seq<FunctionArgument>)
    ensures ArgsLoop(toks, j, acc).Ok? ==>
      && toks[ArgsLoop(toks, j, acc).next - 1].literal == RParen
      && ArgsNamed(toks, j, ArgsLoop(toks, j, acc).next - 1, ArgsLoop(toks, j, acc).value, |acc|)
    decreases |toks| - j
  {
    var r := ArgsLoop(toks, j, acc);
    if j < |toks| && toks[j].literal != RParen && toks[j].kind == Identifier && j + 1 < |toks| {
      var variadic := toks[j + 1].literal == Caret;
      var m := if variadic then j + 2 else j + 1;
      var arg := FunctionArgument(toks[j].literal, variadic);
      AfterArgShape(toks, m, acc + [arg]);
      assert r == AfterArg(toks, m, acc + [arg]);
      if r.Ok? {
        assert ArgsNamed(toks, m, r.next - 1, r.value, |acc| + 1);
        assert r.value[..|acc| + 1] == acc + [arg];
        forall a | |acc| <= a < |r.value|
          ensures NamedBetween(toks, j, r.next - 1, r.value[a])
        {
          if a == |acc| {
            assert r.value[a] == arg;
            assert ArgAt(toks, j, r.value[a]);
          } else {
            assert NamedBetween(toks, m, r.next - 1, r.value[a]);
            var k :| m <= k < r.next - 1 && ArgAt(toks, k, r.value[a]);
            assert j <= k;
          }
        }
        assert ArgsNamed(toks, j, r.next - 1, r.value, |acc|);
      }
    }
  }

  lemma {:induction false} AfterArgShape(toks: seq<Token>, m: nat, acc: seq<FunctionArgument>)
    ensures AfterArg(toks, m, acc).Ok? ==>
      && toks[AfterArg(toks, m, acc).next - 1].literal == RParen
      && ArgsNamed(toks, m, AfterArg(toks, m, acc).next - 1, AfterArg(toks, m, acc).value, |acc|)
    decreases |toks| - m
  {
    var r := AfterArg(toks, m, acc);
    if m < |toks| && toks[m].literal == Comma {
      ArgsLoopShape(toks, m + 1, acc);
      assert r == ArgsLoop(toks, m + 1, acc);
      if r.Ok? {
        assert ArgsNamed(toks, m + 1, r.next - 1, r.value, |acc|);
        forall a | |acc| <= a < |r.value|
          ensures NamedBetween(toks, m, r.next - 1, r.value[a])
        {
          assert NamedBetween(toks, m + 1, r.next - 1, r.value[a]);
          var k :| m + 1 <= k < r.next - 1 && ArgAt(toks, k, r.value[a]);
        }
        assert ArgsNamed(toks, m, r.next - 1, r.value, |acc|);
      }
    }
  }

  /** FunctionArgs: a parsed list runs from "(" to ")", and every argument
      is named by an identifier token between them, variadic exactly when
      "^" follows the name. */
  lemma FunctionArgsShape(toks: seq<Token>, i: nat)
    ensures ParseFunctionArgs(toks, i).Ok? ==>
      && toks[i].literal == LParen
      && toks[ParseFunctionArgs(toks, i).next - 1].literal == RParen
      && ArgsNamed(toks, i + 1, ParseFunctionArgs(toks, i).next - 1, ParseFunctionArgs(toks, i).value, 0)
  {
    if i < |toks| && toks[i].literal == LParen {
      ArgsLoopShape(toks, i + 1, []);
    }
  }

  /** A body loop that succeeds stops just past a "}" or at the end of the
      tokens. */
  lemma {:induction false} BodyLoopShape(toks: seq<Token>, j: nat, acc: seq<Instruction>)
    requires j <= |toks|
    ensures var r := BodyLoop(toks, j, acc);
      r.Ok? ==> r.next == |toks| || toks[r.next - 1].literal == RBrace
    decreases |toks| - j
  {
    if j < |toks| && toks[j].literal != RBrace {
      match ParseInstruction(toks, j)
      case Ok(ins, k) => BodyLoopShape(toks, k, acc + [ins]);
      case _ =>
    }
  }

  /** FunctionBody: a parsed body starts with "{" and ends just past a "}",
      or silently at the end of the tokens. */
  lemma FunctionBodyShape(toks: seq<Token>, i: nat)
    ensures var r := ParseFunctionBody(toks, i);
      r.Ok? ==> toks[i].literal == LBrace && (r.next == |toks| || toks[r.next - 1].literal == RBrace)
  {
    if i < |toks| {
      BodyLoopShape(toks, i + 1, []);
    }
  }

  /** Instruction: a parsed instruction is named by the identifier it
      starts with and ends just past a ";". */
  lemma InstructionShape(toks: seq<Token>, i: nat)
    ensures var r := ParseInstruction(toks, i);
      r.Ok? ==>
        && toks[i].kind == Identifier && r.value.name == toks[i].literal
        && toks[r.next - 1].literal == Semicolon
  {
    ListLoopCloses(toks, i + 1, Semicolon, ExpectedCommaOrSemicolon, []);
  }

  /** SpecialFunction: a parsed call is a special-function name, then "(",
      and ends just past a ")". */
  lemma SpecialFunctionShape(toks: seq<Token>, i: nat)
    ensures var r := ParseSpecialFunction(toks, i);
      r.Ok? ==>
        && i + 1 < |toks| && toks[i].kind == Kind.SpecialFunction && toks[i + 1].literal == LParen
        && r.value.SpecialFunction? && r.value.name == toks[i].literal
        && toks[r.next - 1].literal == RParen
  {
    ListLoopCloses(toks, i + 2, RParen, ExpectedCommaOrRParenAfterSpecialArg, []);
  }

  // ------------------------------------------------------------ numbers

  /** The decimal rendering of n, the reference that Atoi is checked
      against. */
  function DecimalString(n: nat): (s: seq<byte>)
    ensures 1 <= |s| && forall k | 0 <= k < |s| :: IsAsciiDigit(s[k])
  {
    if n < 10 then [(48 + n) as byte] else DecimalString(n / 10) + [(48 + n % 10) as byte]
  }

  lemma {:induction false} DecimalValueOfString(n: nat)
    ensures DecimalValue(DecimalString(n)) == n
  {
    var s := DecimalString(n);
    if n >= 10 {
      assert s[..|s| - 1] == DecimalString(n / 10);
      DecimalValueOfString(n / 10);
    } else {
      assert s[..0] == [];
    }
  }

  /** Atoi reads back every rendering of a value in the 64-bit range. */
  lemma AtoiRoundTrip(n: nat)
    requires n <= MaxInt64
    ensures Atoi(DecimalString(n)) == Results.Some(n)
  {
    DecimalValueOfString(n);
  }

  lemma AtoiNegative(n: nat)
    requires 0 < n <= -MinInt64
    ensures Atoi([45] + DecimalString(n)) == Results.Some(-(n as int))
  {
    DecimalValueOfString(n);
    assert ([45 as byte] + DecimalString(n))[1..] == DecimalString(n);
  }

  /** One past the largest 64-bit value does not convert. */
  lemma AtoiOverflow()
    ensures Atoi(DecimalString(MaxInt64 + 1)) == Results.None
  {
    DecimalValueOfString(MaxInt64 + 1);
  }

  // ------------------------------------------------------------ scenarios

  function Tok(lit: seq<byte>, kind: Kind, p: Position): Token {
    Token(lit, p, kind)
  }

  /** "[1, 2] 5": a fixed-size array of two elements. */
  lemma ArrayWithFixedSize(p: Position)
    ensures
      var toks := [Tok(LBracket, Separator, p), Tok([49], Number, p), Tok(Comma, Separator, p),
                   Tok([50], Number, p), Tok(RBracket, Separator, p), Tok([53], Number, p)];
      ParseArray(toks, 0) == Ok(Array([Value([49], Number), Value([50], Number)], true, 5), 6)
  {
    var toks := [Tok(LBracket, Separator, p), Tok([49], Number, p), Tok(Comma, Separator, p),
                 Tok([50], Number, p), Tok(RBracket, Separator, p), Tok([53], Number, p)];
    var one := Value([49], Number);
    var two := Value([50], Number);
    assert ParseExpression(toks, 3) == Ok(two, 4);
    assert toks[4].literal == RBracket && toks[4].literal != Comma;
    assert AfterElement(toks, 4, RBracket, ExpectedRBracketOrComma, [one, two]) == Ok([one, two], 5);
    assert [one] + [two] == [one, two];
    assert toks[3].literal != RBracket;
    assert ListLoop(toks, 3, RBracket, ExpectedRBracketOrComma, [one]) == Ok([one, two], 5);
    assert toks[2].literal == Comma;
    assert AfterElement(toks, 2, RBracket, ExpectedRBracketOrComma, [one]) == Ok([one, two], 5);
    assert ParseExpression(toks, 1) == Ok(one, 2);
    assert [] + [one] == [one];
    assert toks[1].literal != RBracket;
    assert ListLoop(toks, 1, RBracket, ExpectedRBracketOrComma, []) == Ok([one, two], 5);
    var five: seq<byte> := [53];
    assert five[..0] == [];
    assert DecimalValue(five) == 5;
    assert Atoi([53]) == Results.Some(5);
  }

  /** "[]" as the last tokens: the check for a size reads past the end. */
  lemma ArrayAtEndPanics(p: Position)
    ensures ParseArray([Tok(LBracket, Separator, p), Tok(RBracket, Separator, p)], 0) == Panic
  {
  }

  /** "(x,)": a trailing comma before ")" is accepted. */
  lemma ArgsTrailingComma(p: Position)
    ensures
      var toks := [Tok(LParen, Separator, p), Tok([120], Identifier, p), Tok(Comma, Separator, p), Tok(RParen, Separator, p)];
      ParseFunctionArgs(toks, 0) == Ok([FunctionArgument([120], false)], 4)
  {
    var toks := [Tok(LParen, Separator, p), Tok([120], Identifier, p), Tok(Comma, Separator, p), Tok(RParen, Separator, p)];
    var x := FunctionArgument([120], false);
    assert ArgsLoop(toks, 3, [x]) == Ok([x], 4);
    assert toks[2].literal == Comma;
    assert AfterArg(toks, 2, [x]) == Ok([x], 4);
    assert toks[2].literal != Caret && toks[1].literal != RParen;
    assert [] + [x] == [x];
    assert ArgsLoop(toks, 1, []) == Ok([x], 4);
  }

  /** "{ nop;" with no closing brace: the body ends with the tokens, without
      an error. */
  lemma BodyWithoutClosingBrace(p: Position)
    ensures
      var toks := [Tok(LBrace, Separator, p), Tok([110, 111, 112], Identifier, p), Tok(Semicolon, Separator, p)];
      ParseFunctionBody(toks, 0) == Ok([Instruction([110, 111, 112], [])], 3)
  {
    var toks := [Tok(LBrace, Separator, p), Tok([110, 111, 112], Identifier, p), Tok(Semicolon, Separator, p)];
    var nop := Instruction([110, 111, 112], []);
    assert toks[2].literal == Semicolon;
    assert ListLoop(toks, 2, Semicolon, ExpectedCommaOrSemicolon, []) == Ok([], 3);
    assert ParseInstruction(toks, 1) == Ok(nop, 3);
    assert BodyLoop(toks, 3, [nop]) == Ok([nop], 3);
    assert toks[1].literal != RBrace;
    assert [] + [nop] == [nop];
    assert BodyLoop(toks, 1, []) == Ok([nop], 3);
  }

  /** "at(1)": a special function with one argument. */
  lemma SpecialFunctionCall(p: Position)
    ensures
      var toks := [Tok(At, Kind.SpecialFunction, p), Tok(LParen, Separator, p), Tok([49], Number, p), Tok(RParen, Separator, p)];
      ParseExpression(toks, 0) == Ok(Node.SpecialFunction(At, [Value([49], Number)]), 4)
  {
    var toks := [Tok(At, Kind.SpecialFunction, p), Tok(LParen, Separator, p), Tok([49], Number, p), Tok(RParen, Separator, p)];
    assert ParseExpression(toks, 2) == Ok(Value([49], Number), 3);
    assert ListLoop(toks, 2, RParen, ExpectedCommaOrRParenAfterSpecialArg, []) == Ok([Value([49], Number)], 4);
  }

  /** A program that starts with a number: no mini-parser claims it. */
  lemma LeadingNumberIsUnknown(p: Position, filename: seq<char>)
    ensures Parse(DefaultMinis, [Tok([49], Number, p)], filename) == Error(filename, SyntaxError(UnknownToken, p))
  {
    DefaultChainDecides([Tok([49], Number, p)], 0);
  }

  const MainName: seq<byte> := [109, 97, 105, 110]
  const AddName: seq<byte> := [97, 100, 100]
  const ResultName: seq<byte> := [114, 101, 115, 117, 108, 116]
  const XName: seq<byte> := [120]
  const YName: seq<byte> := [121]

  /** The tokens of "main (x, y^) { add result, x, y; }". */
  function SmallProgramTokens(p: Position): (toks: seq<Token>)
    ensures |toks| == 16
  {
    [Tok(MainName, Identifier, p), Tok(LParen, Separator, p), Tok(XName, Identifier, p), Tok(Comma, Separator, p),
     Tok(YName, Identifier, p), Tok(Caret, Separator, p), Tok(RParen, Separator, p), Tok(LBrace, Separator, p),
     Tok(AddName, Identifier, p), Tok(ResultName, Identifier, p), Tok(Comma, Separator, p), Tok(XName, Identifier, p),
     Tok(Comma, Separator, p), Tok(YName, Identifier, p), Tok(Semicolon, Separator, p), Tok(RBrace, Separator, p)]
  }

  lemma SmallProgramArgs(p: Position)
    ensures ParseFunctionArgs(SmallProgramTokens(p), 1)
         == Ok([FunctionArgument(XName, false), FunctionArgument(YName, true)], 7)
  {
    var toks := SmallProgramTokens(p);
    var ax := FunctionArgument(XName, false);
    var ay := FunctionArgument(YName, true);
    assert AfterArg(toks, 6, [ax, ay]) == Ok([ax, ay], 7);
    assert toks[5].literal == Caret && toks[4].literal != RParen;
    assert [ax] + [ay] == [ax, ay];
    assert ArgsLoop(toks, 4, [ax]) == Ok([ax, ay], 7);
    assert AfterArg(toks, 3, [ax]) == Ok([ax, ay], 7);
    assert toks[3].literal != Caret && toks[2].literal != RParen;
    assert [] + [ax] == [ax];
    assert ArgsLoop(toks, 2, []) == Ok([ax, ay], 7);
  }

  lemma SmallProgramInstruction(p: Position)
    ensures ParseInstruction(SmallProgramTokens(p), 8)
         == Ok(Instruction(AddName, [ReferenceToIdentifier(ResultName), ReferenceToIdentifier(XName), ReferenceToIdentifier(YName)]), 15)
  {
    var toks := SmallProgramTokens(p);
    var rr := ReferenceToIdentifier(ResultName);
    var rx := ReferenceToIdentifier(XName);
    var ry := ReferenceToIdentifier(YName);
    assert ParseExpression(toks, 13) == Ok(ry, 14);
    assert toks[14].literal == Semicolon && toks[14].literal != Comma;
    assert AfterElement(toks, 14, Semicolon, ExpectedCommaOrSemicolon, [rr, rx, ry]) == Ok([rr, rx, ry], 15);
    assert [rr, rx] + [ry] == [rr, rx, ry];
    assert toks[13].literal != Semicolon;
    assert ListLoop(toks, 13, Semicolon, ExpectedCommaOrSemicolon, [rr, rx]) == Ok([rr, rx, ry], 15);
    assert AfterElement(toks, 12, Semicolon, ExpectedCommaOrSemicolon, [rr, rx]) == Ok([rr, rx, ry], 15);
    assert ParseExpression(toks, 11) == Ok(rx, 12);
    assert [rr] + [rx] == [rr, rx];
    assert toks[11].literal != Semicolon;
    assert ListLoop(toks, 11, Semicolon, ExpectedCommaOrSemicolon, [rr]) == Ok([rr, rx, ry], 15);
    assert AfterElement(toks, 10, Semicolon, ExpectedCommaOrSemicolon, [rr]) == Ok([rr, rx, ry], 15);
    assert ParseExpression(toks, 9) == Ok(rr, 10);
    assert [] + [rr] == [rr];
    assert toks[9].literal != Semicolon;
    assert ListLoop(toks, 9, Semicolon, ExpectedCommaOrSemicolon, []) == Ok([rr, rx, ry], 15);
  }

  /** "main (x, y^) { add result, x, y; }": one top-level function with a
      variadic second argument and one instruction. */
  lemma SmallProgram(p: Position, filename: seq<char>)
    ensures Parse(DefaultMinis, SmallProgramTokens(p), filename) ==
      Built(Tree([TopLevel(MainName, Function(
        [FunctionArgument(XName, false), FunctionArgument(YName, true)],
        [Instruction(AddName, [ReferenceToIdentifier(ResultName), ReferenceToIdentifier(XName), ReferenceToIdentifier(YName)])]))]))
  {
    var toks := SmallProgramTokens(p);
    SmallProgramArgs(p);
    SmallProgramInstruction(p);
    var ins := Instruction(AddName, [ReferenceToIdentifier(ResultName), ReferenceToIdentifier(XName), ReferenceToIdentifier(YName)]);
    assert BodyLoop(toks, 15, [ins]) == Ok([ins], 16);
    assert [] + [ins] == [ins];
    assert toks[8].literal != RBrace;
    assert BodyLoop(toks, 8, []) == Ok([ins], 16);
    var f := Function([FunctionArgument(XName, false), FunctionArgument(YName, true)], [ins]);
    assert ParseFunction(toks, 1) == Ok(f, 16);
    assert ParseExpression(toks, 1) == Ok(f, 16);
    assert ParseTopLevel(toks, 0) == Claimed(TopLevel(MainName, f), 16);
    DefaultChainDecides(toks, 0);
    assert [] + [TopLevel(MainName, f)] == [TopLevel(MainName, f)];
    assert ParseAll(DefaultMinis, toks, filename, 16, [TopLevel(MainName, f)]) == Built(Tree([TopLevel(MainName, f)]));
  }
}
