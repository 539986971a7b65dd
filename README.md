# miniasm front end in Dafny

miniasm is a small assembly-like language. Its front end has two stages:

- A **lexer** turns a byte buffer into tokens. It moves a cursor over the bytes and tracks offset, line and column in one shared `Position` object. At every non-whitespace position it asks a chain of tokenizers, in registration order, to recognise a token.
- A **parser** turns the token list into a tree of top-level declarations. It asks a chain of mini-parsers at every token.

This project models both stages over the default tokenizers (Identifier, Number, Separator, String, Char) and the default grammar (top-level declarations, values, references, functions with argument lists and instruction bodies, arrays with an optional fixed size, and special-function calls). It proves properties of the model.

The modules are:

- `Results` holds the `Result`/`Option` wrappers.
- `Token` holds the token vocabulary: kinds, separators, the shared `Position` class and the identifier rule.
- `LexerSpec` states the lexer as pure functions of the bytes and a cursor value `Pos`: cursor moves, the five tokenizers, the tokenizer chain and the `Do` loop.
- `Lexer` is the stateful lexer: a `class Lexer` whose cursor is one `Position` object that every emitted token shares. Each method is proved to leave the cursor where the matching `LexerSpec` function says and to return what that function computes.
- `LexerProps` holds lemmas about the lexer.
- `Grammar` states the default grammar and the driving loop of the parser as pure functions of the token list and a cursor index. A Go nil dereference or index past the end becomes an explicit `Panic`/`Panicked`/`Crashed` outcome.
- `Parser` is the stateful parser: `class Parser` holds tokens, cursor, mini-parser chain and file name, and `class Default` holds the default mini-parsers as methods that move the parser's cursor. Each method is proved equal to its `Grammar` function.
- `ParserProps` and `TokenProps` hold lemmas about the parser and the token vocabulary.

Bytes are a `byte` newtype. The Go predicates `unicode.IsLetter`, `unicode.IsDigit` and `unicode.IsSpace` on `rune(b)` are modelled on the Latin-1 range they see for a single byte.

A Go tokenizer or mini-parser is an arbitrary function. Here each one is an enum value naming one of the defaults.

The model follows the code where the code and its documentation differ:

- Whitespace-only input is an "unknown character" error. The chain runs once more at the end of the input and every tokenizer declines there.
- A function body with no closing `}` ends silently at the end of the tokens.
- An array at the very end of the tokens panics. `Current` returns nil past the end, and the code then reads the kind of that nil token to look for a fixed size.
- A trailing comma is accepted in argument and element lists.
- Every token points to the lexer's one `Position` object. So every syntax error reports the lexer's final cursor, not the place of the offending token (`ParserProps.ErrorsReportLexerCursor`).

## Model

| member | source | states |
|---|---|---|
| Token.Position.constructor | pkg/token/token.go:36-40 | a position holds the given offset, line and column |
| Token.New | pkg/token/token.go:77-79 | a token carries exactly the literal, kind and (shared) position it is given |
| Token.RuneString | lexer/tokenizer/default.go:170 | a byte below 0x80 encodes as itself; a higher byte as a two-byte UTF-8 sequence with lead 0xC2/0xC3 |
| Token.RunesOk | pkg/token/token.go:96-104 | true exactly when every byte from i on is a letter, digit or underscore, and the word does not start with a digit |
| Token.IsIdentifier | pkg/token/token.go:87-105 | true exactly when the word is 1..255 bytes, is not a separator or the reserved `at`, starts with a letter or underscore and continues with letters, digits and underscores |
| TokenProps.RuneRoundTrip | lexer/tokenizer/default.go:170 | decoding the one- or two-byte encoding of a byte gives the byte back |
| TokenProps.RuneStringInjective | lexer/tokenizer/default.go:170 | distinct letters give distinct Char literals |
| TokenProps.IdentifierAccepts | pkg/token/token_test.go:28-31 | `__foo`, `foo_123` and `___` are identifiers |
| TokenProps.IdentifierRejects | pkg/token/token_test.go:32-57 | `##`, `1234`, a 256-byte word, the empty word, `at` and every separator are not identifiers |
| TokenProps.IdentifierLengthBound | pkg/token/token.go:88-90 | the length limit is exact: 255 word bytes pass, 256 fail |
| LexerSpec.Step | lexer/lexer.go:175-191 | at the end of input the cursor stays; otherwise the offset grows by exactly one |
| LexerSpec.RunBefore | lexer/lexer.go:193-220 | counts the bytes back to the previous newline: none of them is a newline and the byte before them is one (or the buffer starts) |
| LexerSpec.StepBack | lexer/lexer.go:193-220 | at the start the cursor stays; otherwise the offset shrinks by exactly one |
| LexerSpec.StepBackN | lexer/tokenizer/default.go:63-69 | backing up k steps from offset at least k lands exactly k bytes earlier |
| LexerSpec.Slice | lexer/lexer.go:222-238 | succeeds exactly when 0 <= start <= end <= length, and then yields bytes[start..end] |
| LexerSpec.SkipWord | lexer/tokenizer/default.go:48-54 | advances over the maximal run of letters, digits and underscores and stops on a byte outside it |
| LexerSpec.SkipDigits | lexer/tokenizer/default.go:85-91 | advances over the maximal run of digits and stops on a non-digit |
| LexerSpec.SkipWhitespace | lexer/lexer.go:331-335 | advances over the maximal run of whitespace and stops on a non-space |
| LexerSpec.StringClose | lexer/tokenizer/default.go:122-134 | finds the first quote after the byte that follows the opening quote, or reports the end of input when there is none |
| LexerSpec.IdentifierScan | lexer/tokenizer/default.go:38-73 | a decline leaves the offset where it was; a match moves the cursor forward within the buffer |
| LexerSpec.NumberScan | lexer/tokenizer/default.go:75-100 | a decline leaves the cursor untouched; a match moves it forward within the buffer |
| LexerSpec.SeparatorScan | lexer/tokenizer/default.go:102-112 | never fails; a match consumes exactly one byte |
| LexerSpec.StringScan | lexer/tokenizer/default.go:114-143 | a decline leaves the cursor untouched; a match consumes at least the two quotes and one byte |
| LexerSpec.CharScan | lexer/tokenizer/default.go:145-171 | a decline leaves the cursor untouched; a match consumes exactly three bytes |
| LexerSpec.RunTokenizer | lexer/tokenizer/default.go:29-36 | any registered tokenizer either declines without moving the offset or matches and moves forward within the buffer |
| LexerSpec.Tokenize | lexer/lexer.go:313-329 | the chain never just declines: it matches (moving forward) or reports an error, "unknown character" when every tokenizer declines |
| LexerSpec.LexLoop | lexer/lexer.go:294-306 | a successful run ends at the end of input and keeps the tokens gathered so far as a prefix |
| LexerSpec.Lex | lexer/lexer.go:274-307 | with no tokenizers the result is an empty token list and the cursor does not move |
| LexerProps.StepBackUndoesStepOffset | lexer/lexer.go:175-220 | inside the buffer, Backward after Advance restores the offset |
| LexerProps.StepOntoNewline | lexer/lexer.go:182-186 | stepping onto a newline moves to the next line, column 1 |
| LexerProps.StepBackIsNotInverse | lexer/lexer.go:193-220 | Backward after Advance does not restore line and column in general: the counterexample "a\nb" |
| LexerProps.StepBackNSteps | lexer/tokenizer/default.go:63-69 | k backward steps are one backward step after k-1 and land k bytes earlier |
| LexerProps.IdentifierMatch | lexer/tokenizer/default.go:38-73 | a matched identifier is the maximal word run from the cursor, starts with a letter or underscore and passes IsIdentifier |
| LexerProps.IdentifierDecline | lexer/tokenizer/default.go:40-69 | Identifier declines exactly when the first byte cannot start a word or the word fails IsIdentifier, restores the offset then, and never fails |
| LexerProps.IdentifierBacktrackKeepsLine | lexer/tokenizer/default.go:63-69 | rejecting `at` before a newline restores the offset but leaves the cursor on line 2 |
| LexerProps.NumberMatch | lexer/tokenizer/default.go:75-100 | Number matches exactly on a digit, takes the maximal digit run verbatim, and never fails |
| LexerProps.SeparatorMatch | lexer/tokenizer/default.go:102-112 | Separator matches exactly when the current byte is a separator, and emits that byte |
| LexerProps.StringMatch | lexer/tokenizer/default.go:114-143 | a string literal is the bytes strictly between the opening and closing quote, with no quote after its first byte |
| LexerProps.StringUnterminated | lexer/tokenizer/default.go:122-130 | with no quote after the byte that follows the opening quote, String fails with "unterminated string" |
| LexerProps.EmptyStringAtEndFails | lexer/tokenizer/default.go:122-130 | `""` at the end of input is an error, not an empty string |
| LexerProps.StringTakesFirstByte | lexer/tokenizer/default.go:122-134 | in `"""` the byte after the opening quote is taken unchecked, giving the literal `"` |
| LexerProps.CharMatch | lexer/tokenizer/default.go:145-171 | Char matches exactly on backtick, letter, backtick, emits the letter's UTF-8 form, and fails exactly when a backtick starts anything else |
| LexerProps.RunTokenizerAtEof | lexer/tokenizer/default.go:38-171 | at the end of input every default tokenizer declines without moving |
| LexerProps.TokenizeAtEof | lexer/lexer.go:313-329 | at the end of input the chain reports "unknown character" |
| LexerProps.DefaultDispatch | lexer/tokenizer/default.go:29-171 | the default chain is decided by the current byte: digit to Number, separator to Separator, quote to String, backtick to Char, word byte to Identifier (else unknown), anything else unknown |
| LexerProps.LexLoopTokenBound | lexer/lexer.go:294-306 | a successful run emits at most one token per remaining byte |
| LexerProps.LexEmpty | lexer/lexer_test.go:192-204 | empty input gives no tokens and leaves the cursor at the start |
| LexerProps.LexWhitespaceOnly | lexer/lexer_test.go:206-218 | whitespace-only input with any tokenizer registered is an "unknown character" error |
| LexerProps.LexRerunIsEmpty | lexer/lexer.go:274-307 | Do does not reset the cursor: running it again after a success yields no tokens |
| LexerProps.LexFooNumber | lexer/lexer_test.go:163-190 | `foo 123` lexes to the identifier `foo` and the number `123` |
| Lexer.Realize | lexer/lexer.go:313-329 | a match becomes a token at the shared position with the same literal and kind; a decline and an error are kept as they are |
| Lexer.Attach | lexer/lexer.go:240-243 | every token of a run has the lexeme's literal and kind and points to the one shared position |
| Lexer.Lexer.constructor | lexer/lexer.go:81-93 | a new lexer holds the input, no tokenizers, a fresh position at offset 0, line 1, column 1 |
| Lexer.Lexer.SetReader | lexer/lexer.go:100-113 | replaces the bytes and keeps tokenizers and file name |
| Lexer.Lexer.AppendTokenizer | lexer/lexer.go:142-149 | adds one tokenizer at the end of the chain |
| Lexer.Lexer.AppendDefault | lexer/tokenizer/default.go:29-36 | adds the default tokenizers in registration order |
| Lexer.Lexer.Eof | lexer/lexer.go:156-159 | true exactly when the offset is at or past the end of the bytes |
| Lexer.Lexer.Sof | lexer/lexer.go:161-164 | true exactly when the offset is 0 |
| Lexer.Lexer.Current | lexer/lexer.go:166-173 | the byte under the cursor, or 0 past the end |
| Lexer.Lexer.Slice | lexer/lexer.go:222-238 | the bytes between start and end when in range, else the error for the first failing bound |
| Lexer.Lexer.NewError | lexer/lexer.go:263-265 | an error carries the message, the file name and the cursor's line and column |
| Lexer.Lexer.Advance | lexer/lexer.go:175-191 | moves the shared position as LexerSpec.Step says |
| Lexer.Lexer.Backward | lexer/lexer.go:193-220 | moves the shared position as LexerSpec.StepBack says |
| Lexer.Lexer.Identifier | lexer/tokenizer/default.go:38-73 | returns and leaves the cursor as IdentifierScan says |
| Lexer.Lexer.Number | lexer/tokenizer/default.go:75-100 | returns and leaves the cursor as NumberScan says |
| Lexer.Lexer.Separator | lexer/tokenizer/default.go:102-112 | returns and leaves the cursor as SeparatorScan says |
| Lexer.Lexer.String | lexer/tokenizer/default.go:114-143 | returns and leaves the cursor as StringScan says |
| Lexer.Lexer.Char | lexer/tokenizer/default.go:145-171 | returns and leaves the cursor as CharScan says |
| Lexer.Lexer.Run | lexer/tokenizer/default.go:29-36 | runs the named tokenizer as RunTokenizer says |
| Lexer.Lexer.Tokenize | lexer/lexer.go:313-329 | tries the chain in order as LexerSpec.Tokenize says |
| Lexer.Lexer.SkipWhitespace | lexer/lexer.go:331-335 | skips whitespace as LexerSpec.SkipWhitespace says |
| Lexer.Lexer.Do | lexer/lexer.go:274-307 | sets the file name and returns the tokens (or the first error) and leaves the cursor as Lex says |
| Grammar.Atoi | pkg/parser/mini/default.go:249-256 | a parsed size always lies in the signed 64-bit range |
| Grammar.ParseExpression | pkg/parser/mini/default.go:31-54 | on success at least one token is consumed and the cursor stays within the tokens |
| Grammar.ParseValue | pkg/parser/mini/default.go:56-79 | succeeds exactly on a Char, Number or String token, consuming that one token and yielding a Value of its literal and kind; anything else, or no token, is a panic |
| Grammar.ParseReference | pkg/parser/mini/default.go:168-176 | succeeds exactly on an Identifier token, consuming it and yielding a reference to its literal; any other token is "expected identifier" at that token |
| Grammar.ParseFunction | pkg/parser/mini/default.go:81-94 | on success at least one token is consumed, within the tokens |
| Grammar.ParseFunctionArgs | pkg/parser/mini/default.go:126-166 | on success at least one token is consumed, within the tokens |
| Grammar.ArgsLoop | pkg/parser/mini/default.go:133-163 | on success it consumes tokens and keeps the arguments read so far as a prefix |
| Grammar.AfterArg | pkg/parser/mini/default.go:145-162 | on success it consumes tokens and keeps the arguments read so far as a prefix |
| Grammar.ParseFunctionBody | pkg/parser/mini/default.go:96-124 | on success at least one token is consumed, within the tokens |
| Grammar.BodyLoop | pkg/parser/mini/default.go:103-121 | on success the cursor stays within the tokens and the instructions read so far are kept as a prefix |
| Grammar.ParseInstruction | pkg/parser/mini/default.go:178-211 | on success at least one token is consumed, within the tokens |
| Grammar.ListLoop | pkg/parser/mini/default.go:220-243 | on success it consumes tokens and keeps the elements read so far as a prefix |
| Grammar.AfterElement | pkg/parser/mini/default.go:231-242 | on success it consumes tokens and keeps the elements read so far as a prefix |
| Grammar.ParseArray | pkg/parser/mini/default.go:213-260 | on success at least one token is consumed, within the tokens |
| Grammar.ParseSpecialFunction | pkg/parser/mini/default.go:262-300 | on success at least one token is consumed, within the tokens |
| Grammar.ParseTopLevel | pkg/parser/mini/default.go:19-29 | a claimed declaration consumes at least one token, within the tokens |
| Grammar.RunMini | pkg/parser/parser.go:226-246 | a claimed declaration consumes at least one token, within the tokens |
| Grammar.ParseChain | pkg/parser/parser.go:226-246 | the chain never just declines: it claims, fails or panics, "unknown token" when every mini-parser declines |
| Grammar.ParseAll | pkg/parser/parser.go:203-214 | a successful run keeps the declarations gathered so far as a prefix |
| Grammar.Parse | pkg/parser/parser.go:183-215 | with no mini-parsers the tree is empty |
| Parser.Parser.constructor | pkg/parser/parser.go:63-73 | a new parser holds the tokens, cursor 0, no mini-parsers and no file name |
| Parser.Parser.SetTokens | pkg/parser/parser.go:75-82 | replaces the tokens |
| Parser.Parser.AppendParser | pkg/parser/parser.go:217-224 | adds one mini-parser at the end of the chain |
| Parser.Parser.Current | pkg/parser/parser.go:121-126 | the token under the cursor, present exactly when the cursor is inside the tokens |
| Parser.Parser.Advance | pkg/parser/parser.go:128-133 | moves the cursor one token forward, never past the end |
| Parser.Parser.ExpectLiteral | pkg/parser/parser.go:143-150 | consumes and returns the current token exactly when its literal matches; otherwise reports mismatch or end and leaves the cursor |
| Parser.Parser.ExpectKind | pkg/parser/parser.go:152-159 | consumes and returns the current token exactly when its kind matches; otherwise reports mismatch or end and leaves the cursor |
| Parser.Parser.Invoke | pkg/parser/parser.go:232-240 | runs one mini-parser as RunMini says; a decline leaves the cursor |
| Parser.Parser.ParseNext | pkg/parser/parser.go:226-246 | runs the chain as ParseChain says and leaves the cursor after a claimed declaration |
| Parser.Parser.Do | pkg/parser/parser.go:183-215 | resets the cursor, sets the file name and returns what Parse computes; after a successful run the cursor is at the end of the tokens, and with no mini-parsers it stays at 0 |
| Parser.Default.Append | pkg/parser/mini/default.go:15-17 | registers the default chain (TopLevel) |
| Parser.Default.TopLevel | pkg/parser/mini/default.go:19-29 | returns what ParseTopLevel computes and leaves the cursor after the claimed declaration, or untouched on a decline |
| Parser.Default.Expression | pkg/parser/mini/default.go:31-54 | returns what ParseExpression computes and leaves the cursor after the node |
| Parser.Default.Value | pkg/parser/mini/default.go:56-79 | returns what ParseValue computes and leaves the cursor after the node |
| Parser.Default.Function | pkg/parser/mini/default.go:81-94 | returns what ParseFunction computes and leaves the cursor after the node |
| Parser.Default.FunctionBody | pkg/parser/mini/default.go:96-124 | returns what ParseFunctionBody computes and leaves the cursor after the body |
| Parser.Default.FunctionArgs | pkg/parser/mini/default.go:126-166 | returns what ParseFunctionArgs computes and leaves the cursor after the list |
| Parser.Default.ReferenceToIdentifier | pkg/parser/mini/default.go:168-176 | returns what ParseReference computes and leaves the cursor after the node |
| Parser.Default.Instruction | pkg/parser/mini/default.go:178-211 | returns what ParseInstruction computes and leaves the cursor after the instruction |
| Parser.Default.Array | pkg/parser/mini/default.go:213-260 | returns what ParseArray computes and leaves the cursor after the node |
| Parser.Default.Elements | pkg/parser/mini/default.go:219-243 | returns what ListLoop computes for `]`-closed lists and leaves the cursor after the list |
| Parser.Default.SpecialFunction | pkg/parser/mini/default.go:262-300 | returns what ParseSpecialFunction computes and leaves the cursor after the node |
| ParserProps.ExpressionBlames | pkg/parser/mini/default.go:31-54 | every syntax error of an expression points at the position of a token at or after the cursor |
| ParserProps.FunctionBlames | pkg/parser/mini/default.go:81-94 | every syntax error of a function points at a token at or after the cursor |
| ParserProps.FunctionArgsBlames | pkg/parser/mini/default.go:126-166 | every syntax error of an argument list points at a token at or after the cursor |
| ParserProps.ArgsLoopBlames | pkg/parser/mini/default.go:133-163 | every syntax error inside the argument loop points at a token at or after the cursor |
| ParserProps.AfterArgBlames | pkg/parser/mini/default.go:145-162 | every syntax error after an argument points at a token at or after the cursor |
| ParserProps.FunctionBodyBlames | pkg/parser/mini/default.go:96-124 | every syntax error of a body points at a token at or after the cursor |
| ParserProps.BodyLoopBlames | pkg/parser/mini/default.go:103-121 | every syntax error inside the body loop points at a token at or after the cursor |
| ParserProps.InstructionBlames | pkg/parser/mini/default.go:178-211 | every syntax error of an instruction points at a token at or after the cursor |
| ParserProps.ListLoopBlames | pkg/parser/mini/default.go:220-243 | every syntax error inside an element list points at a token at or after the cursor |
| ParserProps.AfterElementBlames | pkg/parser/mini/default.go:231-242 | every syntax error after an element points at a token at or after the cursor |
| ParserProps.ArrayBlames | pkg/parser/mini/default.go:213-260 | every syntax error of an array points at a token at or after the cursor |
| ParserProps.SpecialFunctionBlames | pkg/parser/mini/default.go:262-300 | every syntax error of a special-function call points at a token at or after the cursor |
| ParserProps.ChainBlames | pkg/parser/parser.go:226-246 | every syntax error of the chain, "unknown token" included, points at a token at or after the cursor |
| ParserProps.ParseAllBlames | pkg/parser/parser.go:203-214 | a failed run carries the file name and an error pointing at one of the remaining tokens |
| ParserProps.ErrorsReportLexerCursor | pkg/parser/parser.go:179-181 | over tokens from one lexer run, every syntax error reports the lexer's one shared position |
| ParserProps.ParseAllShape | pkg/parser/parser.go:203-214 | a successful run builds only TopLevel nodes, at most one per token |
| ParserProps.ChainBuildsTopLevel | pkg/parser/mini/default.go:19-29 | every declaration the chain claims is a TopLevel node |
| ParserProps.DefaultChainDecides | pkg/parser/mini/default.go:19-29 | with the default chain, a declaration is parsed exactly when it starts with an identifier; otherwise "unknown token" at that token |
| ParserProps.ExpressionDispatch | pkg/parser/mini/default.go:31-54 | the current token decides: value kinds give a Value of it, an identifier a reference, a special-function name a call, then `(` a function and `[` an array; any other token is "unknown token" at it, and no token is a panic |
| ParserProps.ArrayFixedSize | pkg/parser/mini/default.go:220-259 | the element list ends with `]`; a parsed array is fixed exactly when a Number follows `]`, whose Atoi value is the size and which is consumed; otherwise the size is 0 and nothing after `]` is consumed; a Number Atoi rejects is a conversion error, and no token after `]` is a panic |
| ParserProps.ListLoopCloses | pkg/parser/mini/default.go:220-243 | a comma-separated element list that parses ends just past its closing token |
| ParserProps.AfterElementCloses | pkg/parser/mini/default.go:231-242 | after an element, a list that parses ends just past its closing token |
| ParserProps.ArgsLoopShape | pkg/parser/mini/default.go:133-163 | an argument list that parses ends just past `)`, and every argument it adds is named by an identifier token before that `)`, variadic exactly when `^` follows the name |
| ParserProps.AfterArgShape | pkg/parser/mini/default.go:145-162 | after an argument, a list that parses ends just past `)`, every later argument named by an identifier token before it |
| ParserProps.FunctionArgsShape | pkg/parser/mini/default.go:126-166 | a parsed argument list runs from `(` to `)`, and every argument is named by an identifier token between them, variadic exactly when `^` follows the name |
| ParserProps.BodyLoopShape | pkg/parser/mini/default.go:103-121 | a body loop that parses stops just past `}` or at the end of the tokens |
| ParserProps.FunctionBodyShape | pkg/parser/mini/default.go:96-124 | a parsed body starts with `{` and ends just past `}`, or silently at the end of the tokens |
| ParserProps.InstructionShape | pkg/parser/mini/default.go:178-211 | a parsed instruction starts at an identifier, which is its name, and ends just past `;` |
| ParserProps.SpecialFunctionShape | pkg/parser/mini/default.go:262-300 | a parsed special-function call starts with a special-function name, which is its name, followed by `(`, and ends just past `)` |
| ParserProps.DecimalString | pkg/parser/mini/default.go:251 | the decimal rendering of a number is a non-empty run of digits |
| ParserProps.DecimalValueOfString | pkg/parser/mini/default.go:251 | reading back the decimal rendering of n gives n |
| ParserProps.AtoiRoundTrip | pkg/parser/mini/default.go:251 | the fixed size reads back every non-negative 64-bit value from its decimal rendering |
| ParserProps.AtoiNegative | pkg/parser/mini/default.go:251 | a minus sign before the rendering of n reads back -n, down to the 64-bit minimum |
| ParserProps.AtoiOverflow | pkg/parser/mini/default.go:251-254 | one past the 64-bit maximum is a conversion failure |
| ParserProps.ArrayWithFixedSize | pkg/parser/mini/default.go:213-260 | `[1, 2] 5` is a fixed array of two values with size 5 |
| ParserProps.ArrayAtEndPanics | pkg/parser/mini/default.go:248-249 | `[]` as the last tokens reads past the end |
| ParserProps.ArgsTrailingComma | pkg/parser/mini/default.go:133-163 | `(x,)` is accepted as the one argument x |
| ParserProps.BodyWithoutClosingBrace | pkg/parser/mini/default.go:103-123 | `{ nop;` with no closing brace parses as one instruction, without error |
| ParserProps.SpecialFunctionCall | pkg/parser/mini/default.go:262-300 | `at(1)` is a special-function call with one value operand |
| ParserProps.LeadingNumberIsUnknown | pkg/parser/parser.go:226-245 | a program starting with a number is an "unknown token" error at that token |
| ParserProps.SmallProgramArgs | pkg/parser/mini/default.go:126-166 | `(x, y^)` is the plain argument x and the variadic argument y |
| ParserProps.SmallProgramInstruction | pkg/parser/mini/default.go:178-211 | `add result, x, y;` is one instruction with three reference operands |
| ParserProps.SmallProgram | pkg/parser/parser.go:183-215 | `main (x, y^) { add result, x, y; }` parses to one TopLevel declaration of that function |

## Left out

- Debug output (`NewDebug`, `DebugSetWriter`, `DebugSetMode`, `DebugOn`, the `DebugPrint*` helpers) is not modelled. It only writes to an `io.Writer`.
- The mutex and the "is on" flag of both `Lexer` and `Parser` are not modelled. The panics when a lexer or parser is reconfigured while it runs are left out, because the model has no concurrency.
- `io.Reader` input is not modelled: the lexer takes its bytes directly, and the read error of `New`/`SetReader` is left out.
- The `Type` tokenizer (lexer/tokenizer/default.go:173-209) is not in the default chain. It refers to `token.Types` and `token.Type`, which the token package does not define.
- No default tokenizer emits the SpecialFunction kind; the grammar still handles that kind when it is given.
- Tokenizers and mini-parsers supplied by users are not modelled: the chains hold only the defaults.
- Error messages are a datatype of causes plus file name, line and column (or the blamed position), not formatted strings.
- Token.IsIdentifier: only ASCII letters and digits are accepted. The Go code decodes UTF-8 and also accepts Unicode letters and digits, which the byte model does not decode.
- Token.RunesOk: the per-character loop of the identifier rule has the same ASCII-only gap as Token.IsIdentifier, for the same reason.
- Grammar.Atoi: `strconv.Atoi` is a function here rather than its digit loop; the error it returns becomes `None`.
- Parser.Parser.IsEnd (pkg/parser/parser.go:117-119) is modelled as a predicate with no further contract; the grammar uses the cursor bound directly.
- The parser's `Position` accessor (pkg/parser/parser.go:135) is the `pos` field itself.
- `main.go` and `pkg/ast` printing are not part of this model.
- The Value rule's error branch (pkg/parser/mini/default.go:75-77) cannot be reached: every failed ExpectKind leaves the last token nil (lines 64-68), so the guard at line 75 never holds and line 78 dereferences nil; the model records that as a panic.
