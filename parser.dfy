/** The parser of pkg/parser/parser.go and the default mini-parsers of
    pkg/parser/mini/default.go. A Parser holds the token sequence and a
    cursor; the methods of Default move that cursor as the Go grammar does.
    Every method is proved to return what the matching function of Grammar
    computes from the cursor it started at, and to leave the cursor after
    the tokens it consumed. */
module Parser {
  import opened Token
  import opened Grammar
  import Results

  /** What ExpectLiteral and ExpectKind yield: the token they consumed, a
      mismatch (nothing consumed), or an index past the end of the tokens,
      which panics in Go. */
  datatype Expect = Got(tok: Token) | Mismatch | OutOfRange

  class Parser {
    var tokens: seq<Token>
    var pos: nat
    var minis: seq<MiniParser>
    var filename: seq<char>

    /** A parser over tokens, with no mini-parsers and an empty file name. */
    constructor (tokens: seq<Token>)
      ensures this.tokens == tokens && pos == 0 && minis == [] && filename == []
    {
      this.tokens := tokens;
      pos := 0;
      minis := [];
      filename := [];
    }

    method SetTokens(tokens: seq<Token>)
      modifies this`tokens
      ensures this.tokens == tokens
    {
      this.tokens := tokens;
    }

    method AppendParser(m: MiniParser)
      modifies this`minis
      ensures minis == old(minis) + [m]
    {
      minis := minis + [m];
    }

    predicate IsEnd()
      reads this
    {
      pos >= |tokens|
    }

    /** The current token, or None (Go's nil) at the end. */
    function Current(): (r: Results.Option<Token>)
      reads this
      ensures r.Some? <==> pos < |tokens|
      ensures r.Some? ==> r.value == tokens[pos]
    {
      if IsEnd() then Results.None else Results.Some(tokens[pos])
    }

    /** Moves past the current token; does nothing at the end. */
    method Advance()
      modifies this`pos
      ensures pos == if old(pos) < |tokens| then old(pos) + 1 else old(pos)
    {
      if IsEnd() {
        return;
      }
      pos := pos + 1;
    }

    /** Consumes the current token when its literal is lit. The Go code
        indexes the tokens without a bounds check. */
    method ExpectLiteral(lit: seq<byte>) returns (r: Expect)
      modifies this`pos
      ensures old(pos) >= |tokens| ==> r == OutOfRange && pos == old(pos)
      ensures old(pos) < |tokens| && tokens[old(pos)].literal == lit ==> r == Got(tokens[old(pos)]) && pos == old(pos) + 1
      ensures old(pos) < |tokens| && tokens[old(pos)].literal != lit ==> r == Mismatch && pos == old(pos)
    {
      if pos >= |tokens| {
        return OutOfRange;
      }
      var tok := tokens[pos];
      if tok.literal != lit {
        return Mismatch;
      }
      Advance();
      return Got(tok);
    }

    /** Consumes the current token when its kind is kind. */
    method ExpectKind(kind: Kind) returns (r: Expect)
      modifies this`pos
      ensures old(pos) >= |tokens| ==> r == OutOfRange && pos == old(pos)
      ensures old(pos) < |tokens| && tokens[old(pos)].kind == kind ==> r == Got(tokens[old(pos)]) && pos == old(pos) + 1
      ensures old(pos) < |tokens| && tokens[old(pos)].kind != kind ==> r == Mismatch && pos == old(pos)
    {
      if pos >= |tokens| {
        return OutOfRange;
      }
      var tok := tokens[pos];
      if tok.kind != kind {
        return Mismatch;
      }
      Advance();
      return Got(tok);
    }

    /** Runs one registered mini-parser at the cursor. */
    method Invoke(m: MiniParser) returns (r: Attempt)
      requires pos <= |tokens|
      modifies this`pos
      ensures r == RunMini(m, tokens, old(pos))
      ensures r.Claimed? ==> pos == r.next
      ensures r.Declined? ==> pos == old(pos)
    {
      match m
      case TopLevelParser =>
        var d := new Default();
        r := d.TopLevel(this);
    }

    /** parse: tries the mini-parsers in order; the first that does not
        decline decides. */
    method ParseNext() returns (r: Attempt)
      requires pos < |tokens|
      modifies this`pos
      ensures r == ParseChain(minis, tokens, old(pos))
      ensures r.Claimed? ==> pos == r.next
    {
      var tok := tokens[pos];
      var k := 0;
      while k < |minis|
        invariant 0 <= k <= |minis|
        invariant pos == old(pos)
        invariant ParseChain(minis[k..], tokens, pos) == ParseChain(minis, tokens, pos)
      {
        var got := Invoke(minis[k]);
        if got.Declined? {
          assert minis[k..][1..] == minis[k + 1..];
          k := k + 1;
          continue;
        }
        return got;
      }
      return Failed(SyntaxError(UnknownToken, tok.pos));
    }

    /** Do: resets the cursor, then parses top-level nodes until the end of
        the tokens; the first error or panic ends the run. */
    method Do(name: seq<char>) returns (r: Run)
      modifies this`pos, this`filename
      ensures filename == name
      ensures r == Parse(minis, tokens, name)
      ensures minis == [] ==> pos == 0
      ensures minis != [] && r.Built? ==> pos == |tokens|
    {
      pos := 0;
      filename := name;
      if |minis| == 0 {
        return Built(Tree([]));
      }
      var topLevel: seq<Node> := [];
      while !IsEnd()
        invariant pos <= |tokens| && filename == name
        invariant ParseAll(minis, tokens, name, pos, topLevel) == Parse(minis, tokens, name)
        decreases |tokens| - pos
      {
        var n := ParseNext();
        if n.Panicked? {
          return Crashed;
        }
        if n.Failed? {
          return Error(filename, n.err);
        }
        topLevel := topLevel + [n.node];
      }
      return Built(Tree(topLevel));
    }
  }

  /** The default mini-parsers. Default has no state of its own: every
      method works on the cursor of the parser it is given. */
  class Default {
    constructor ()
    {
    }

    /** Registers the default chain, which is TopLevel alone. */
    method Append(p: Parser)
      modifies p`minis
      ensures p.minis == old(p.minis) + DefaultMinis
    {
      p.AppendParser(TopLevelParser);
    }

    method TopLevel(c: Parser) returns (r: Attempt)
      requires c.pos <= |c.tokens|
      modifies c`pos
      ensures r == ParseTopLevel(c.tokens, old(c.pos))
      ensures r.Claimed? ==> c.pos == r.next
      ensures r.Declined? ==> c.pos == old(c.pos)
    {
      var identifier := c.ExpectKind(Identifier);
      if identifier.OutOfRange? {
        return Panicked;
      }
      if identifier.Mismatch? {
        return Declined;
      }
      var expr := Expression(c);
      if expr.Panic? {
        return Panicked;
      }
      if expr.Fail? {
        return Failed(expr.err);
      }
      return Claimed(Node.TopLevel(identifier.tok.literal, expr.value), c.pos);
    }

    method Expression(c: Parser) returns (r: Parsed<Node>)
      requires c.pos <= |c.tokens|
      modifies c`pos
      ensures r == ParseExpression(c.tokens, old(c.pos))
      ensures r.Ok? ==> c.pos == r.next
      decreases |c.tokens| - c.pos, 2
    {
      var tok := c.Current();
      if tok.None? {
        return Panic;
      }
      var t := tok.value;
      if IsValueKind(t.kind) {
        r := Value(c);
      } else if t.kind == Identifier {
        r := ReferenceToIdentifier(c);
      } else if t.kind == Kind.SpecialFunction {
        r := SpecialFunction(c);
      } else if t.literal == LParen {
        r := Function(c);
      } else if t.literal == LBracket {
        r := Array(c);
      } else {
        r := Fail(SyntaxError(UnknownToken, t.pos));
      }
    }

    /** Tries the kinds Char, Number and String in turn. ExpectKind yields
        no token on a mismatch, so when no kind fits the Go code reaches the
        final dereference with a nil token; its "Expected Char, Number or
        String" branch can never be taken. */
    method Value(c: Parser) returns (r: Parsed<Node>)
      requires c.pos <= |c.tokens|
      modifies c`pos
      ensures r == ParseValue(c.tokens, old(c.pos))
      ensures r.Ok? ==> c.pos == r.next
    {
      var kinds := [Char, Number, String];
      var lastTok: Results.Option<Token> := Results.None;
      var k := 0;
      while k < |kinds|
        invariant 0 <= k <= |kinds|
        invariant c.pos == old(c.pos)
        invariant lastTok.None?
        invariant k > 0 ==> c.pos < |c.tokens| && forall j | 0 <= j < k :: c.tokens[c.pos].kind != kinds[j]
      {
        var tok := c.ExpectKind(kinds[k]);
        if tok.OutOfRange? {
          return Panic;
        }
        if tok.Mismatch? {
          k := k + 1;
          continue;
        }
        lastTok := Results.Some(tok.tok);
        break;
      }
      if lastTok.None? {
        assert c.tokens[c.pos].kind != kinds[0] && c.tokens[c.pos].kind != kinds[1] && c.tokens[c.pos].kind != kinds[2];
        return Panic;
      }
      return Ok(Node.Value(lastTok.value.literal, lastTok.value.kind), c.pos);
    }

    method Function(c: Parser) returns (r: Parsed<Node>)
      requires c.pos <= |c.tokens|
      modifies c`pos
      ensures r == ParseFunction(c.tokens, old(c.pos))
      ensures r.Ok? ==> c.pos == r.next
      decreases |c.tokens| - c.pos, 1
    {
      var args := FunctionArgs(c);
      if args.Panic? {
        return Panic;
      }
      if args.Fail? {
        return Fail(args.err);
      }
      var body := FunctionBody(c);
      if body.Panic? {
        return Panic;
      }
      if body.Fail? {
        return Fail(body.err);
      }
      return Ok(Node.Function(args.value, body.value), c.pos);
    }

    method FunctionBody(c: Parser) returns (r: Parsed<seq<Instruction>>)
      requires c.pos <= |c.tokens|
      modifies c`pos
      ensures r == ParseFunctionBody(c.tokens, old(c.pos))
      ensures r.Ok? ==> c.pos == r.next
      decreases |c.tokens| - c.pos, 1
    {
      var open := c.ExpectLiteral(LBrace);
      if open.OutOfRange? {
        return Panic;
      }
      if open.Mismatch? {
        return Fail(SyntaxError(ExpectedLBraceInBody, c.tokens[c.pos].pos));
      }
      var instructions: seq<Grammar.Instruction> := [];
      while !c.IsEnd()
        invariant old(c.pos) < c.pos <= |c.tokens|
        invariant BodyLoop(c.tokens, c.pos, instructions) == ParseFunctionBody(c.tokens, old(c.pos))
        decreases |c.tokens| - c.pos
      {
        var cur := c.Current();
        if cur.value.literal == RBrace {
          c.Advance();
          break;
        }
        var instr := Instruction(c);
        if instr.Panic? {
          return Panic;
        }
        if instr.Fail? {
          return Fail(instr.err);
        }
        instructions := instructions + [instr.value];
      }
      return Ok(instructions, c.pos);
    }

    method FunctionArgs(c: Parser) returns (r: Parsed<seq<FunctionArgument>>)
      requires c.pos <= |c.tokens|
      modifies c`pos
      ensures r == ParseFunctionArgs(c.tokens, old(c.pos))
      ensures r.Ok? ==> c.pos == r.next
    {
      var open := c.ExpectLiteral(LParen);
      if open.OutOfRange? {
        return Panic;
      }
      if open.Mismatch? {
        return Fail(SyntaxError(ExpectedLParenInArgs, c.tokens[c.pos].pos));
      }
      ghost var goal := ParseFunctionArgs(c.tokens, old(c.pos));
      var args: seq<FunctionArgument> := [];
      while true
        invariant old(c.pos) < c.pos <= |c.tokens|
        invariant ArgsLoop(c.tokens, c.pos, args) == goal
        decreases |c.tokens| - c.pos
      {
        var cur := c.Current();
        if cur.None? {
          return Panic;
        }
        if cur.value.literal == RParen {
          c.Advance();
          return Ok(args, c.pos);
        }
        ghost var j := c.pos;
        var name := c.ExpectKind(Identifier);
        if name.Mismatch? {
          return Fail(SyntaxError(ExpectedArgName, c.tokens[c.pos].pos));
        }
        var variadic := false;
        var next := c.Current();
        if next.None? {
          return Panic;
        }
        if next.value.literal == Caret {
          variadic := true;
          c.Advance();
        }
        assert ArgsLoop(c.tokens, j, args) == AfterArg(c.tokens, c.pos, args + [FunctionArgument(name.tok.literal, variadic)]);
        args := args + [FunctionArgument(name.tok.literal, variadic)];
        cur := c.Current();
        if cur.None? {
          return Panic;
        }
        if cur.value.literal == Comma {
          c.Advance();
        } else if cur.value.literal == RParen {
          c.Advance();
          return Ok(args, c.pos);
        } else {
          return Fail(SyntaxError(ExpectedCommaOrRParenAfterArg, cur.value.pos));
        }
      }
    }

    method ReferenceToIdentifier(c: Parser) returns (r: Parsed<Node>)
      requires c.pos <= |c.tokens|
      modifies c`pos
      ensures r == ParseReference(c.tokens, old(c.pos))
      ensures r.Ok? ==> c.pos == r.next
    {
      var identifier := c.ExpectKind(Identifier);
      if identifier.OutOfRange? {
        return Panic;
      }
      if identifier.Mismatch? {
        return Fail(SyntaxError(ExpectedIdentifier, c.tokens[c.pos].pos));
      }
      return Ok(Node.ReferenceToIdentifier(identifier.tok.literal), c.pos);
    }

    method Instruction(c: Parser) returns (r: Parsed<Grammar.Instruction>)
      requires c.pos <= |c.tokens|
      modifies c`pos
      ensures r == ParseInstruction(c.tokens, old(c.pos))
      ensures r.Ok? ==> c.pos == r.next
      decreases |c.tokens| - c.pos, 1
    {
      var name := c.ExpectKind(Identifier);
      if name.OutOfRange? {
        return Panic;
      }
      if name.Mismatch? {
        return Fail(SyntaxError(ExpectedInstructionName, c.tokens[c.pos].pos));
      }
      var args: seq<Node> := [];
      while true
        invariant old(c.pos) < c.pos <= |c.tokens|
        invariant ListLoop(c.tokens, c.pos, Semicolon, ExpectedCommaOrSemicolon, args)
               == ListLoop(c.tokens, old(c.pos) + 1, Semicolon, ExpectedCommaOrSemicolon, [])
        decreases |c.tokens| - c.pos
      {
        var cur := c.Current();
        if cur.None? {
          return Panic;
        }
        if cur.value.literal == Semicolon {
          c.Advance();
          break;
        }
        ghost var j := c.pos;
        var expr := Expression(c);
        if expr.Panic? {
          return Panic;
        }
        if expr.Fail? {
          return Fail(expr.err);
        }
        assert ListLoop(c.tokens, j, Semicolon, ExpectedCommaOrSemicolon, args) == AfterElement(c.tokens, c.pos, Semicolon, ExpectedCommaOrSemicolon, args + [expr.value]);
        args := args + [expr.value];
        cur := c.Current();
        if cur.None? {
          return Panic;
        }
        if cur.value.literal == Comma {
          c.Advance();
        } else if cur.value.literal == Semicolon {
          c.Advance();
          break;
        } else {
          return Fail(SyntaxError(ExpectedCommaOrSemicolon, cur.value.pos));
        }
      }
      return Ok(Grammar.Instruction.Instruction(name.tok.literal, args), c.pos);
    }

    method Array(c: Parser) returns (r: Parsed<Node>)
      requires c.pos <= |c.tokens|
      modifies c`pos
      ensures r == ParseArray(c.tokens, old(c.pos))
      ensures r.Ok? ==> c.pos == r.next
      decreases |c.tokens| - c.pos, 1
    {
      var open := c.ExpectLiteral(LBracket);
      if open.OutOfRange? {
        return Panic;
      }
      if open.Mismatch? {
        return Fail(SyntaxError(ExpectedLBracket, c.tokens[c.pos].pos));
      }
      var elements := Elements(c);
      if elements.Panic? {
        return Panic;
      }
      if elements.Fail? {
        return Fail(elements.err);
      }
      // An optional Number token after "]" gives a fixed size.
      var fixed := false;
      var fixedSize := 0;
      var cur := c.Current();
      if cur.None? {
        return Panic;
      }
      if cur.value.kind == Number {
        fixed := true;
        var num := Atoi(cur.value.literal);
        if num.None? {
          return Fail(SyntaxError(ConversionFailed, cur.value.pos));
        }
        fixedSize := num.value;
        c.Advance();
      }
      return Ok(Node.Array(elements.value, fixed, fixedSize), c.pos);
    }

    /** The element loop of Array, after the opening "[": elements separated
        by "," up to "]". */
    method Elements(c: Parser) returns (r: Parsed<seq<Node>>)
      requires c.pos <= |c.tokens|
      modifies c`pos
      ensures r == ListLoop(c.tokens, old(c.pos), RBracket, ExpectedRBracketOrComma, [])
      ensures r.Ok? ==> c.pos == r.next
      decreases |c.tokens| - c.pos, 3
    {
      var elements: seq<Node> := [];
      while true
        invariant old(c.pos) <= c.pos <= |c.tokens|
        invariant ListLoop(c.tokens, c.pos, RBracket, ExpectedRBracketOrComma, elements)
               == ListLoop(c.tokens, old(c.pos), RBracket, ExpectedRBracketOrComma, [])
        decreases |c.tokens| - c.pos
      {
        var cur := c.Current();
        if cur.None? {
          return Panic;
        }
        if cur.value.literal == RBracket {
          c.Advance();
          return Ok(elements, c.pos);
        }
        ghost var j := c.pos;
        var expr := Expression(c);
        if expr.Panic? {
          return Panic;
        }
        if expr.Fail? {
          return Fail(expr.err);
        }
        assert ListLoop(c.tokens, j, RBracket, ExpectedRBracketOrComma, elements) == AfterElement(c.tokens, c.pos, RBracket, ExpectedRBracketOrComma, elements + [expr.value]);
        elements := elements + [expr.value];
        cur := c.Current();
        if cur.None? {
          return Panic;
        }
        if cur.value.literal == RBracket {
          c.Advance();
          return Ok(elements, c.pos);
        } else if cur.value.literal == Comma {
          c.Advance();
        } else {
          return Fail(SyntaxError(ExpectedRBracketOrComma, cur.value.pos));
        }
      }
    }

    method SpecialFunction(c: Parser) returns (r: Parsed<Node>)
      requires c.pos <= |c.tokens|
      modifies c`pos
      ensures r == ParseSpecialFunction(c.tokens, old(c.pos))
      ensures r.Ok? ==> c.pos == r.next
      decreases |c.tokens| - c.pos, 1
    {
      var name := c.ExpectKind(Kind.SpecialFunction);
      if name.OutOfRange? {
        return Panic;
      }
      if name.Mismatch? {
        return Fail(SyntaxError(ExpectedSpecialName, c.tokens[c.pos].pos));
      }
      var open := c.ExpectLiteral(LParen);
      if open.OutOfRange? {
        return Panic;
      }
      if open.Mismatch? {
        return Fail(SyntaxError(ExpectedLParenAfterSpecial, c.tokens[c.pos].pos));
      }
      var args: seq<Node> := [];
      while true
        invariant old(c.pos) + 1 < c.pos <= |c.tokens|
        invariant ListLoop(c.tokens, c.pos, RParen, ExpectedCommaOrRParenAfterSpecialArg, args)
               == ListLoop(c.tokens, old(c.pos) + 2, RParen, ExpectedCommaOrRParenAfterSpecialArg, [])
        decreases |c.tokens| - c.pos
      {
        var cur := c.Current();
        if cur.None? {
          return Panic;
        }
        if cur.value.literal == RParen {
          c.Advance();
          break;
        }
        ghost var j := c.pos;
        var expr := Expression(c);
        if expr.Panic? {
          return Panic;
        }
        if expr.Fail? {
          return Fail(expr.err);
        }
        assert ListLoop(c.tokens, j, RParen, ExpectedCommaOrRParenAfterSpecialArg, args) == AfterElement(c.tokens, c.pos, RParen, ExpectedCommaOrRParenAfterSpecialArg, args + [expr.value]);
        args := args + [expr.value];
        cur := c.Current();
        if cur.None? {
          return Panic;
        }
        if cur.value.literal == Comma {
          c.Advance();
        } else if cur.value.literal == RParen {
          c.Advance();
          break;
        } else {
          return Fail(SyntaxError(ExpectedCommaOrRParenAfterSpecialArg, cur.value.pos));
        }
      }
      return Ok(Node.SpecialFunction(name.tok.literal, args), c.pos);
    }
  }
}
