/** The default grammar of pkg/parser/mini/default.go and the driving loop
    of pkg/parser/parser.go, as functions of the token sequence and a cursor
    index. Each rule returns the node it built and the index after it, a
    syntax error, or Panic where the Go code would dereference a nil token
    or index past the end of the tokens. The class in parser.dfy is proved
    to follow these functions. */
module Grammar {
  import opened Token
  import Results

  datatype FunctionArgument = FunctionArgument(name: seq<byte>, variadic: bool)

  /** The AST: the closed set of node shapes the grammar builds. */
  datatype Node =
    | TopLevel(identifier: seq<byte>, expression: Node)
    | Value(literal: seq<byte>, kind: Kind)
    | ReferenceToIdentifier(identifier: seq<byte>)
    | Function(args: seq<FunctionArgument>, body: seq<Instruction>)
    | Array(elements: seq<Node>, fixed: bool, fixedSize: int)
    | SpecialFunction(name: seq<byte>, operands: seq<Node>)

  datatype Instruction = Instruction(name: seq<byte>, args: seq<Node>)

  datatype ParseMsg =
    | UnknownToken
    | ExpectedLBraceInBody
    | ExpectedLParenInArgs
    | ExpectedArgName
    | ExpectedCommaOrRParenAfterArg
    | ExpectedIdentifier
    | ExpectedInstructionName
    | ExpectedCommaOrSemicolon
    | ExpectedLBracket
    | ExpectedRBracketOrComma
    | ConversionFailed
    | ExpectedSpecialName
    | ExpectedLParenAfterSpecial
    | ExpectedCommaOrRParenAfterSpecialArg

  /** A syntax error, pointing at the position object of the token it
      blames. */
  datatype SyntaxError = SyntaxError(msg: ParseMsg, at: Position)

  /** What a grammar rule yields. */
  datatype Parsed<+T> = Ok(value: T, next: nat) | Fail(err: SyntaxError) | Panic

  /** What a top-level mini-parser yields. */
  datatype Attempt = Claimed(node: Node, next: nat) | Declined | Failed(err: SyntaxError) | Panicked

  /** The registered mini-parsers; the default chain has only TopLevel. */
  datatype MiniParser = TopLevelParser

  const DefaultMinis: seq<MiniParser> := [TopLevelParser]

  // ------------------------------------------------------------ numbers

  /** The value of a non-empty run of decimal digits. */
  function DecimalValue(ds: seq<byte>): nat
    requires forall i | 0 <= i < |ds| :: IsAsciiDigit(ds[i])
  {
    if ds == [] then 0
    else
      assert IsAsciiDigit(ds[|ds| - 1]);
      DecimalValue(ds[..|ds| - 1]) * 10 + (ds[|ds| - 1] as int - 48)
  }

  const MinInt64: int := -0x8000_0000_0000_0000
  const MaxInt64: int := 0x7FFF_FFFF_FFFF_FFFF

  /** strconv.Atoi on a 64-bit platform: an optional sign, at least one
      decimal digit, and a value that fits in 64 bits. */
  function Atoi(s: seq<byte>): (r: Results.Option<int>)
    ensures r.Some? ==> MinInt64 <= r.value <= MaxInt64
  {
    if |s| == 0 then Results.None
    else
      var signed := s[0] == 43 || s[0] == 45;
      var ds := if signed then s[1..] else s;
      if |ds| == 0 || exists i | 0 <= i < |ds| :: !IsAsciiDigit(ds[i]) then Results.None
      else
        var mag: int := DecimalValue(ds);
        var v := if s[0] == 45 then -mag else mag;
        if MinInt64 <= v <= MaxInt64 then Results.Some(v) else Results.None
  }

  // ------------------------------------------------------------ rules

  predicate IsValueKind(k: Kind) {
    k == Number || k == Char || k == String
  }

  /** Expression: dispatch on the kind, then on the literal, of the current
      token. */
  function ParseExpression(toks: seq<Token>, i: nat): (r: Parsed<Node>)
    ensures r.Ok? ==> i < r.next <= |toks|
    decreases |toks| - i, 2
  {
    if i >= |toks| then Panic
    else
      var t := toks[i];
      if IsValueKind(t.kind) then ParseValue(toks, i)
      else if t.kind == Identifier then ParseReference(toks, i)
      else if t.kind == Kind.SpecialFunction then ParseSpecialFunction(toks, i)
      else if t.literal == LParen then ParseFunction(toks, i)
      else if t.literal == LBracket then ParseArray(toks, i)
      else Fail(SyntaxError(UnknownToken, t.pos))
  }

  /** Value: tries the kinds Char, Number, String in turn; when none fits,
      the Go code dereferences a nil token. */
  function ParseValue(toks: seq<Token>, i: nat): (r: Parsed<Node>)
    ensures r.Ok? ==> i < r.next <= |toks|
    ensures r.Ok? <==> i < |toks| && IsValueKind(toks[i].kind)
    ensures r.Ok? ==> r.next == i + 1 && r.value == Value(toks[i].literal, toks[i].kind)
    ensures !r.Ok? ==> r == Panic
  {
    if i >= |toks| then Panic
    else if IsValueKind(toks[i].kind) then Ok(Value(toks[i].literal, toks[i].kind), i + 1)
    else Panic
  }

  function ParseReference(toks: seq<Token>, i: nat): (r: Parsed<Node>)
    ensures r.Ok? ==> i < r.next <= |toks|
    ensures r.Ok? <==> i < |toks| && toks[i].kind == Identifier
    ensures r.Ok? ==> r.next == i + 1 && r.value == ReferenceToIdentifier(toks[i].literal)
    ensures r.Fail? <==> i < |toks| && toks[i].kind != Identifier
    ensures r.Fail? ==> r.err == SyntaxError(ExpectedIdentifier, toks[i].pos)
  {
    if i >= |toks| then Panic
    else if toks[i].kind != Identifier then Fail(SyntaxError(ExpectedIdentifier, toks[i].pos))
    else Ok(ReferenceToIdentifier(toks[i].literal), i + 1)
  }

  function ParseFunction(toks: seq<Token>, i: nat): (r: Parsed<Node>)
    ensures r.Ok? ==> i < r.next <= |toks|
    decreases |toks| - i, 1
  {
    match ParseFunctionArgs(toks, i)
    case Panic => Panic
    case Fail(e) => Fail(e)
    case Ok(args, j) =>
      match ParseFunctionBody(toks, j)
      case Panic => Panic
      case Fail(e) => Fail(e)
      case Ok(body, k) => Ok(Function(args, body), k)
  }

  /** FunctionArgs: "(" then identifiers, each optionally followed by "^",
      separated by "," and closed by ")". */
  function ParseFunctionArgs(toks: seq<Token>, i: nat): (r: Parsed<seq<FunctionArgument>>)
    ensures r.Ok? ==> i < r.next <= |toks|
  {
    if i >= |toks| then Panic
    else if toks[i].literal != LParen then Fail(SyntaxError(ExpectedLParenInArgs, toks[i].pos))
    else ArgsLoop(toks, i + 1, [])
  }

  function ArgsLoop(toks: seq<Token>, j: nat, acc: seq<FunctionArgument>): (r: Parsed<seq<FunctionArgument>>)
    ensures r.Ok? ==> j < r.next <= |toks|
    ensures r.Ok? ==> |r.value| >= |acc| && r.value[..|acc|] == acc
    decreases |toks| - j
  {
    if j >= |toks| then Panic
    else if toks[j].literal == RParen then Ok(acc, j + 1)
    else if toks[j].kind != Identifier then Fail(SyntaxError(ExpectedArgName, toks[j].pos))
    else if j + 1 >= |toks| then Panic
    else
      var variadic := toks[j + 1].literal == Caret;
      var m := if variadic then j + 2 else j + 1;
      AfterArg(toks, m, acc + [FunctionArgument(toks[j].literal, variadic)])
  }

  /** The token after an argument: "," goes on, ")" ends the list. */
  function AfterArg(toks: seq<Token>, m: nat, acc: seq<FunctionArgument>): (r: Parsed<seq<FunctionArgument>>)
    ensures r.Ok? ==> m < r.next <= |toks|
    ensures r.Ok? ==> |r.value| >= |acc| && r.value[..|acc|] == acc
    decreases |toks| - m
  {
    if m >= |toks| then Panic
    else if toks[m].literal == Comma then ArgsLoop(toks, m + 1, acc)
    else if toks[m].literal == RParen then Ok(acc, m + 1)
    else Fail(SyntaxError(ExpectedCommaOrRParenAfterArg, toks[m].pos))
  }

  /** FunctionBody: "{" then instructions up to "}"; running out of tokens
      ends the body without an error. */
  function ParseFunctionBody(toks: seq<Token>, i: nat): (r: Parsed<seq<Instruction>>)
    ensures r.Ok? ==> i < r.next <= |toks|
    decreases |toks| - i, 1
  {
    if i >= |toks| then Panic
    else if toks[i].literal != LBrace then Fail(SyntaxError(ExpectedLBraceInBody, toks[i].pos))
    else BodyLoop(toks, i + 1, [])
  }

  function BodyLoop(toks: seq<Token>, j: nat, acc: seq<Instruction>): (r: Parsed<seq<Instruction>>)
    requires j <= |toks|
    ensures r.Ok? ==> j <= r.next <= |toks|
    ensures r.Ok? ==> |r.value| >= |acc| && r.value[..|acc|] == acc
    decreases |toks| - j, 3
  {
    if j >= |toks| then Ok(acc, j)
    else if toks[j].literal == RBrace then Ok(acc, j + 1)
    else
      match ParseInstruction(toks, j)
      case Panic => Panic
      case Fail(e) => Fail(e)
      case Ok(ins, k) => BodyLoop(toks, k, acc + [ins])
  }

  /** Instruction: a name, then expressions separated by "," up to ";". */
  function ParseInstruction(toks: seq<Token>, i: nat): (r: Parsed<Instruction>)
    ensures r.Ok? ==> i < r.next <= |toks|
    decreases |toks| - i, 1
  {
    if i >= |toks| then Panic
    else if toks[i].kind != Identifier then Fail(SyntaxError(ExpectedInstructionName, toks[i].pos))
    else
      match ListLoop(toks, i + 1, Semicolon, ExpectedCommaOrSemicolon, [])
      case Panic => Panic
      case Fail(e) => Fail(e)
      case Ok(args, k) => Ok(Instruction(toks[i].literal, args), k)
  }

  /** The loop shared by Instruction, Array and SpecialFunction: stop on the
      closing literal; otherwise an expression, then "," to go on or the
      closing literal to stop, anything else being the error msg. */
  function ListLoop(toks: seq<Token>, j: nat, close: seq<byte>, msg: ParseMsg, acc: seq<Node>): (r: Parsed<seq<Node>>)
    requires close != Comma
    ensures r.Ok? ==> j < r.next <= |toks|
    ensures r.Ok? ==> |r.value| >= |acc| && r.value[..|acc|] == acc
    decreases |toks| - j, 3
  {
    if j >= |toks| then Panic
    else if toks[j].literal == close then Ok(acc, j + 1)
    else
      match ParseExpression(toks, j)
      case Panic => Panic
      case Fail(e) => Fail(e)
      case Ok(e, k) => AfterElement(toks, k, close, msg, acc + [e])
  }

  /** The token after a list element: "," goes on, the closing literal
      ends the list, anything else is the error msg. */
  function AfterElement(toks: seq<Token>, k: nat, close: seq<byte>, msg: ParseMsg, acc: seq<Node>): (r: Parsed<seq<Node>>)
    requires close != Comma
    ensures r.Ok? ==> k < r.next <= |toks|
    ensures r.Ok? ==> |r.value| >= |acc| && r.value[..|acc|] == acc
    decreases |toks| - k, 4
  {
    if k >= |toks| then Panic
    else if toks[k].literal == Comma then ListLoop(toks, k + 1, close, msg, acc)
    else if toks[k].literal == close then Ok(acc, k + 1)
    else Fail(SyntaxError(msg, toks[k].pos))
  }

  /** Array: "[" elements "]", then an optional Number token giving a fixed
      size. The token after "]" is inspected unconditionally. */
  function ParseArray(toks: seq<Token>, i: nat): (r: Parsed<Node>)
    ensures r.Ok? ==> i < r.next <= |toks|
    decreases |toks| - i, 1
  {
    if i >= |toks| then Panic
    else if toks[i].literal != LBracket then Fail(SyntaxError(ExpectedLBracket, toks[i].pos))
    else
      match ListLoop(toks, i + 1, RBracket, ExpectedRBracketOrComma, [])
      case Panic => Panic
      case Fail(e) => Fail(e)
      case Ok(elements, m) =>
        if m >= |toks| then Panic
        else if toks[m].kind != Number then Ok(Array(elements, false, 0), m)
        else
          match Atoi(toks[m].literal)
          case None => Fail(SyntaxError(ConversionFailed, toks[m].pos))
          case Some(size) => Ok(Array(elements, true, size), m + 1)
  }

  /** SpecialFunction: a special-function name, "(", then expressions
      separated by "," up to ")". */
  function ParseSpecialFunction(toks: seq<Token>, i: nat): (r: Parsed<Node>)
    ensures r.Ok? ==> i < r.next <= |toks|
    decreases |toks| - i, 1
  {
    if i >= |toks| then Panic
    else if toks[i].kind != Kind.SpecialFunction then Fail(SyntaxError(ExpectedSpecialName, toks[i].pos))
    else if i + 1 >= |toks| then Panic
    else if toks[i + 1].literal != LParen then Fail(SyntaxError(ExpectedLParenAfterSpecial, toks[i + 1].pos))
    else
      match ListLoop(toks, i + 2, RParen, ExpectedCommaOrRParenAfterSpecialArg, [])
      case Panic => Panic
      case Fail(e) => Fail(e)
      case Ok(args, k) => Ok(Node.SpecialFunction(toks[i].literal, args), k)
  }

  /** TopLevel: declines unless the current token is an identifier. */
  function ParseTopLevel(toks: seq<Token>, i: nat): (r: Attempt)
    ensures r.Claimed? ==> i < r.next <= |toks|
  {
    if i >= |toks| then Panicked
    else if toks[i].kind != Identifier then Declined
    else
      match ParseExpression(toks, i + 1)
      case Panic => Panicked
      case Fail(e) => Failed(e)
      case Ok(e, k) => Claimed(TopLevel(toks[i].literal, e), k)
  }

  function RunMini(m: MiniParser, toks: seq<Token>, i: nat): (r: Attempt)
    ensures r.Claimed? ==> i < r.next <= |toks|
  {
    match m
    case TopLevelParser => ParseTopLevel(toks, i)
  }

  /** parse: the first mini-parser that does not decline decides; when all
      decline, "Unknown token" at the token that was current. */
  function ParseChain(minis: seq<MiniParser>, toks: seq<Token>, i: nat): (r: Attempt)
    requires i < |toks|
    ensures r != Declined
    ensures r.Claimed? ==> i < r.next <= |toks|
  {
    if minis == [] then Failed(SyntaxError(UnknownToken, toks[i].pos))
    else
      var a := RunMini(minis[0], toks, i);
      if a.Declined? then ParseChain(minis[1..], toks, i) else a
  }

  /** What a run of Do yields. */
  datatype Tree = Tree(topLevel: seq<Node>)
  datatype Run = Built(tree: Tree) | Error(filename: seq<char>, err: SyntaxError) | Crashed

  /** The loop of Do: one top-level node per successful parse, until the
      end of the tokens; the first error discards the tree. */
  function ParseAll(minis: seq<MiniParser>, toks: seq<Token>, filename: seq<char>, i: nat, acc: seq<Node>): (r: Run)
    ensures r.Built? ==> |r.tree.topLevel| >= |acc| && r.tree.topLevel[..|acc|] == acc
    decreases |toks| - i
  {
    if i >= |toks| then Built(Tree(acc))
    else
      match ParseChain(minis, toks, i)
      case Panicked => Crashed
      case Failed(e) => Error(filename, e)
      case Claimed(n, k) => ParseAll(minis, toks, filename, k, acc + [n])
  }

  /** Do: starts from the first token; no mini-parsers means an empty tree. */
  function Parse(minis: seq<MiniParser>, toks: seq<Token>, filename: seq<char>): (r: Run)
    ensures minis == [] ==> r == Built(Tree([]))
  {
    if minis == [] then Built(Tree([])) else ParseAll(minis, toks, filename, 0, [])
  }
}
