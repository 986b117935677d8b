# pyasm6502 in Dafny

pyasm6502 is a two-pass assembler for the 6502 family that accepts ACME
syntax. Each source line goes through these stages:

- **Line gate.** A line is first gated by the conditional-assembly state
  and by macro-body collection.
- **Tokenizer.** The line is turned into tokens.
- **Line scan.** The tokens are scanned step by step. A step can be:
  - a label;
  - `*=`;
  - an assignment;
  - an ACME `!directive` or a traditional `.directive`;
  - a macro call;
  - an instruction.
- **Instruction encoder.** It chooses an addressing mode from the operand
  and looks up the opcode in the table of the selected CPU.
- **Output.** Bytes go through the segment manager into a sparse
  address → byte map. After the second pass that map is written as plain
  binary, a CBM file with a load address, or Intel HEX.

This project models that core in Dafny and proves what it promises.

| module | models |
|---|---|
| `Tokenizer` | `tokenize`, including the context rules for `AND`/`OR`/`XOR`, `%`, `&`, `+`/`-` runs and `.` |
| `Numbers`, `Evaluator`, `EvalFacts`, `EvalLoops` | on integers only: number parsing, and the twelve-level precedence ladder of the expression evaluator |
| `Symbols` | the symbol store: global, zone-local, cheap-local and anonymous symbols |
| `Opcodes` | the four opcode tables |
| `Assembler` | the `Assembler6502` object, addressing-mode selection, instruction encoding, byte emission and macro-body collection |
| `Assembly` | `process_line` and the two passes of `assemble` |
| `Conditionals`, `Macros`, `Loops` | the conditional, macro and loop processors |
| `Directives` | the ACME and traditional directives |
| `Segments` | the segment manager |
| `Output` | the output generator |
| `TextConv` | character conversion |
| `Wrappers`, `Strings`, `Bits`, `Memory`, `Tokens` | shared datatypes and helpers |

## How the model is structured

- **Classes for state the source changes in place.** The source's
  `Assembler6502`, `ConditionalProcessor`, `MacroSystem`, `LoopProcessor`,
  `SegmentManager` and `TextConverter` each become a `class`. Its methods
  are proved against pure specification functions on the class's abstract
  state, and the properties are proved as lemmas about those functions.
- **Loops stay loops.** Where the source loops, the model loops: the
  tokenizer, the loop levels of the evaluator, the data directives, the
  padding and fill loops, the run and record builders of the output
  generator, and the table initialisation.
- **Integer widths are explicit.** Python integers are unbounded, as Dafny's
  are. Byte masking, `>>>` modulo 2^32 and the floor division of `DIV`
  are written out.
- **Errors are values.** Every error comes back as a `Result` or `Outcome`
  value carrying the source's message kind.

## Behaviour kept as written

- `DIV` floors; a binary `^` is always exponentiation. The XOR level of
  the evaluator therefore never sees a caret, and only the `XOR` keyword
  does xor.
- At the primary level, the evaluator recurses on `<`, `>` and `^` without
  consuming a token. Python then fails with a recursion error. The model
  returns that error as an explicit outcome.
- An all-`+` anonymous label resolves to the first address recorded for it
  in the pass.
- A nested `!else` does not toggle skipping.
- Screen codes map the digits to 16-25.
- Custom conversion tables can be loaded and selected, but conversion only
  applies the built-in `pet` and `scr` tables. `!text` always emits raw
  character codes.
- `!fill count, value` evaluates the value two tokens after the start of
  the count, whatever the count consumed. The model evaluates it there too.
- The traditional aliases `.byte`, `.db`, `.word`, `.dw` and `.text` run
  the ACME branch they stand for.
- `!while` always opens a while-loop. Nothing fills a for-loop's body
  lines, so a loop body is an abstract action on the loop variables.
- The "Apple" output format produces plain output.
- The macro call depth is raised only while a body is being substituted
  (pyasm6502/package/macros.py:140-147), and it is back at its old value when the
  expansion returns. Expanded lines are processed after that, so the
  check against the depth limit of 32 (pyasm6502/package/macros.py:117) never
  fires. Macros.MacroSystem.ExpandMacro keeps the depth unchanged in the
  same way.
- An Intel HEX record formats its address as four hex digits at least
  (pyasm6502/package/output.py:106). An address of 0x10000 or more gets more
  digits, and a negative one gets a minus sign. Output.HexField reproduces this
  formatting instead of clamping the address.

## Model

| member | source | states |
|---|---|---|
| Strings.Upper | pyasm6502/assembler.py:566 | `str.upper` on ASCII: same length, every character upper-cased |
| Strings.Lower | pyasm6502/package/directives.py:130 | `str.lower` on ASCII: same length, every character lower-cased |
| Strings.LStripShape | pyasm6502/package/tokenizer.py:37 | `lstrip` removes a whitespace prefix and no more |
| Strings.RStripShape | pyasm6502/package/tokenizer.py:37 | `rstrip` removes a whitespace suffix and no more |
| Strings.StripIsSlice | pyasm6502/package/tokenizer.py:37 | `strip` gives a slice of the string that starts and ends with non-whitespace, or is empty |
| Strings.Find | pyasm6502/package/tokenizer.py:27-28 | `str.find` gives the first index where the pattern occurs, or -1 exactly when it occurs nowhere |
| Strings.Count | pyasm6502/assembler.py:479 | `str.count` of one character is at most the length, and 0 exactly when the character is absent |
| Strings.Split | pyasm6502/package/macros.py:290 | `split` on one character gives one part more than there are separators, none containing it |
| Strings.SplitJoin | pyasm6502/package/macros.py:290 | joining the parts of a split with the separator gives the string back |
| Strings.RemoveSpace | pyasm6502/package/directives.py:78 | removing whitespace leaves no whitespace and never lengthens the string |
| Strings.RFind | pyasm6502/package/macros.py:90 | `str.rfind` of one character gives its last index, or -1 exactly when it is absent |
| Strings.IndexOf | pyasm6502/package/macros.py:89 | the first index of a character, or the length when it is absent |
| Strings.Ords | pyasm6502/package/text_conversion.py:91 | one character code per character |
| Memory.Min | pyasm6502/package/output.py:60 | `min` of a non-empty key set is a key no larger than any other |
| Memory.Sorted | pyasm6502/package/output.py:24 | `sorted` of a set is strictly increasing and holds exactly the set's elements |
| Memory.Addresses | pyasm6502/package/output.py:24 | `sorted(output_dict.keys())` is strictly increasing and holds exactly the written addresses |
| Bits.FloorDivMod | pyasm6502/package/evaluator.py:244-253 | Python's `//` and `%` split a value exactly, with the remainder on the divisor's side of zero |
| Bits.ShiftLeft | pyasm6502/package/evaluator.py:196 | `v << n` fails exactly for a negative count and is otherwise `v * 2^n` |
| Bits.ShiftRight | pyasm6502/package/evaluator.py:205 | `v >> n` fails exactly for a negative count and is otherwise the floor of `v / 2^n` |
| Bits.Power | pyasm6502/package/evaluator.py:283 | `b ** e` stays an integer exactly for a non-negative exponent, and is then `b^e` |
| Bits.MaskIsMod | pyasm6502/package/directives.py:120 | masking with `2^k - 1` keeps the value modulo `2^k`, for negative values too |
| Bits.LowByte | pyasm6502/package/segments.py:105 | `x & 0xFF` is `x % 256` and a byte, for negative `x` too |
| Bits.ClearLowBits | pyasm6502/package/directives.py:120 | `x & ~(2^k - 1)` rounds `x` down to a multiple of `2^k` |
| Bits.PowerOfTwoTest | pyasm6502/package/directives.py:109 | for a positive value, `a & (a - 1) == 0` holds exactly for the powers of two |
| Bits.OrDisjoint | pyasm6502/package/evaluator.py:85 | OR-ing a value into bits that are still clear is addition |
| Bits.XorIdentities | pyasm6502/package/segments.py:102 | XOR with 0 changes nothing and XOR with -1 is bitwise NOT |
| Bits.XorInvolution | pyasm6502/package/text_conversion.py:115 | XOR-ing twice with the same mask gives the value back |
| Bits.XorBound | pyasm6502/package/text_conversion.py:115 | XOR of two values below `2^k` stays below `2^k` |
| Numbers.ParseInt | pyasm6502/package/evaluator.py:61-77 | `int(s, base)` succeeds exactly on a non-empty string of digits of the base, and then gives a non-negative value |
| Numbers.ParseIntToDigits | pyasm6502/package/evaluator.py:61-77 | parsing the digits of `n` in any base from 2 to 16 gives `n` back |
| Numbers.BinaryDigits | pyasm6502/package/evaluator.py:69 | every `.` becomes `0` and every `#` becomes `1`; all other characters and the length are kept |
| Numbers.LittleEndianBound | pyasm6502/package/evaluator.py:82-86 | a constant of n characters below 256 packs into a value below 2^(8n) |
| Numbers.PackIsLittleEndian | pyasm6502/package/evaluator.py:84-85 | OR-ing shifted character codes below 256 is little-endian addition: no two characters share a bit |
| Numbers.PackLowByte | pyasm6502/package/evaluator.py:84-85 | the low byte of a packed constant is the code of its last character |
| Numbers.PackCharConstant | pyasm6502/package/evaluator.py:83-86 | the packing loop over the reversed characters computes the packed value |
| Numbers.HexLiteral | pyasm6502/package/evaluator.py:59-63 | `$` and `0x` literals read their digits in base 16 |
| Numbers.BinaryLiteral | pyasm6502/package/evaluator.py:64-70 | a `%` literal of `.` and `#` reads in base 2 after the replacement, and always parses |
| Numbers.OctalAndDecimalLiterals | pyasm6502/package/evaluator.py:71-77 | `&` literals read in base 8 and literals without a point read in base 10 |
| Numbers.CharConstantRules | pyasm6502/package/evaluator.py:78-88 | one character gives its code, two to four are packed little-endian from the last character, and more than four is an error |
| Evaluator.Compare | pyasm6502/package/evaluator.py:145-160 | a comparison gives 1 exactly when its relation holds between the operands, and 0 otherwise |
| Evaluator.ApplyFunction | pyasm6502/package/evaluator.py:331-349 | `address`/`addr` need exactly one argument and give it back; `int` takes at most one argument; the `is_*` tests take one and only `is_number` holds for an integer; the float and length functions are errors |
| Evaluator.Evaluate | pyasm6502/package/evaluator.py:92-94 | an evaluated expression consumes at least one token and never runs past the end of the tokens, and no `^` follows it |
| Evaluator.OrExpr | pyasm6502/package/evaluator.py:96-102 | the OR level stays within the tokens |
| Evaluator.XorExpr | pyasm6502/package/evaluator.py:104-115 | the XOR level stays within the tokens |
| Evaluator.AndExpr | pyasm6502/package/evaluator.py:117-123 | the AND level stays within the tokens |
| Evaluator.EqualityExpr | pyasm6502/package/evaluator.py:125-139 | the equality level stays within the tokens |
| Evaluator.ComparisonExpr | pyasm6502/package/evaluator.py:141-163 | the comparison level stays within the tokens |
| Evaluator.ComparisonRest | pyasm6502/package/evaluator.py:143-163 | once a comparison operator has been applied, the value is 0 or 1 |
| Evaluator.ByteUnaryExpr | pyasm6502/package/evaluator.py:165-183 | with no tokens left it is "Expected expression"; after `<`, `>` or a unary `^` the value is a byte |
| Evaluator.SelectByte | pyasm6502/package/evaluator.py:173-181 | `(v >> 8i) & 0xFF` is a byte, the i-th byte of `v` by floor division |
| Evaluator.ShiftExpr | pyasm6502/package/evaluator.py:185-213 | the shift level stays within the tokens |
| Evaluator.ShiftOp | pyasm6502/package/evaluator.py:189-210 | a shift fails exactly when its count is negative, and a `>>>` result lies in 0..2^32-1 |
| Evaluator.ShiftOpValues | pyasm6502/package/evaluator.py:196-209 | for a non-negative count, `<<` multiplies by 2^count, `>>` is the floored division by 2^count, and `>>>` the floored division of the operand reduced modulo 2^32 |
| Evaluator.AdditiveExpr | pyasm6502/package/evaluator.py:215-229 | the additive level stays within the tokens |
| Evaluator.MultiplicativeExpr | pyasm6502/package/evaluator.py:231-257 | the multiplicative level stays within the tokens |
| Evaluator.MulOp | pyasm6502/package/evaluator.py:235-254 | division and modulo by zero fail; `/` and `DIV` floor and `%`/`MOD` take the floor remainder |
| Evaluator.PowerExpr | pyasm6502/package/evaluator.py:275-285 | the power level stays within the tokens |
| Evaluator.UnaryExpr | pyasm6502/package/evaluator.py:259-273 | with no tokens left it is "Expected expression"; otherwise it stays within the tokens |
| Evaluator.PrimaryExpr | pyasm6502/package/evaluator.py:292-374 | with no tokens left it is "Expected expression"; otherwise it stays within the tokens |
| Evaluator.Parenthesised | pyasm6502/package/evaluator.py:363-369 | a parenthesised expression stays within the tokens |
| Evaluator.FunctionCall | pyasm6502/package/evaluator.py:297-349 | a function call stays within the tokens |
| Evaluator.ArgumentList | pyasm6502/package/evaluator.py:309-329 | a successful argument list ends at a `)`, takes at least three tokens with the name and `(`, and adds at least one argument |
| EvaluatorFacts.EqualIsTruthValue | pyasm6502/package/evaluator.py:129-133 | `a == b` is 1 when the left operand equals the whole right-hand equality expression, and 0 otherwise |
| EvaluatorFacts.NotEqualIsTruthValue | pyasm6502/package/evaluator.py:134-138 | `a != b` is 1 when the operands differ, and 0 otherwise |
| EvaluatorFacts.LogicalShiftIsUnsigned | pyasm6502/package/evaluator.py:207-210 | a `>>>` step passes on the floored division of the operand reduced modulo 2^32, a value in 0..2^32-1 whatever the operand's sign |
| EvaluatorFacts.LogicalAndArithmeticShiftDiffer | pyasm6502/package/evaluator.py:205-209 | `-1 >>> 0` is 0xFFFFFFFF while `-1 >> 0` is -1, and `-16 >>> 2` is 0x3FFFFFFC while `-16 >> 2` is -4 |
| EvaluatorFacts.ByteSelection | pyasm6502/package/evaluator.py:170-181 | a byte prefix selects its byte of the shift-level operand after it and consumes one token more |
| EvaluatorFacts.ByteValues | pyasm6502/package/evaluator.py:173-181 | bytes 0, 1 and 2 are `v % 256`, `(v / 256) % 256` and `(v / 65536) % 256` |
| EvaluatorFacts.ByteSelectors | pyasm6502/package/evaluator.py:170-181 | `<v`, `>v` and a prefix `^v` are the low, high and bank bytes of `v`, for negative `v` too |
| EvaluatorFacts.CaretIsPower | pyasm6502/package/evaluator.py:275-285 | `a ^ b` after an operand is a power, right-associative, so the XOR alternative at evaluator.py:108 is never reached |
| EvaluatorFacts.PowerOperator | pyasm6502/package/evaluator.py:278-284 | the power tail raises the left operand to the whole right-hand power expression |
| EvaluatorFacts.MinusBindsLooserThanPower | pyasm6502/package/evaluator.py:263-265 | unary minus negates a whole power expression |
| EvaluatorFacts.Parentheses | pyasm6502/package/evaluator.py:363-369 | a parenthesised expression has the value of its contents and consumes both parentheses; without `)` it is "Missing closing parenthesis" |
| EvaluatorFacts.PrimaryOfParen | pyasm6502/package/evaluator.py:363 | a primary starting with `(` is the parenthesised form |
| EvaluatorFacts.LoopVariableShadowsSymbol | pyasm6502/package/evaluator.py:355-358 | an identifier that names a loop variable evaluates to that variable |
| EvaluatorFacts.SingleArgument | pyasm6502/package/evaluator.py:315-325 | one argument followed by `)` gives one value and consumes argument plus three tokens |
| EvaluatorFacts.AddressOfValue | pyasm6502/package/evaluator.py:332-338 | `address(e)` and `addr(e)` have the value of `e` |
| EvaluatorFacts.BytePrefixAtPrimaryLevel | pyasm6502/package/evaluator.py:259-273 | a `<`, `>` or `^` that reaches the unary level is passed back and forth with the primary level without end, which the model reports as an error |
| EvaluatorFacts.SingleOperand | pyasm6502/package/evaluator.py:92-285 | an expression of one operand token has that operand's value |
| EvaluatorFacts.DecimalLiteral | pyasm6502/package/evaluator.py:351-352 | a decimal literal alone evaluates to its number |
| EvaluatorFacts.ProgramCounter | pyasm6502/package/evaluator.py:353-354 | `*` alone evaluates to the program counter |
| EvaluatorLoops.EvaluateExpression | pyasm6502/package/evaluator.py:92-94 | the method computes `Evaluate` |
| EvaluatorLoops.ParseOr | pyasm6502/package/evaluator.py:96-102 | the OR loop computes the OR level |
| EvaluatorLoops.OrOperand | pyasm6502/package/evaluator.py:99-101 | one pass of the OR loop advances and keeps the remaining loop's result |
| EvaluatorLoops.ParseXor | pyasm6502/package/evaluator.py:104-115 | the XOR loop computes the XOR level |
| EvaluatorLoops.XorOperand | pyasm6502/package/evaluator.py:107-112 | one pass of the XOR loop advances and keeps the remaining loop's result |
| EvaluatorLoops.ParseAnd | pyasm6502/package/evaluator.py:117-123 | the AND loop computes the AND level |
| EvaluatorLoops.AndOperand | pyasm6502/package/evaluator.py:120-122 | one pass of the AND loop advances and keeps the remaining loop's result |
| EvaluatorLoops.ParseComparison | pyasm6502/package/evaluator.py:141-163 | the comparison loop computes the comparison level |
| EvaluatorLoops.ComparisonOperand | pyasm6502/package/evaluator.py:144-160 | one pass of the comparison loop advances and keeps the remaining loop's result |
| EvaluatorLoops.ParseShift | pyasm6502/package/evaluator.py:185-213 | the shift loop computes the shift level |
| EvaluatorLoops.ShiftOperand | pyasm6502/package/evaluator.py:188-210 | one pass of the shift loop advances and keeps the remaining loop's result |
| EvaluatorLoops.ShiftRestStep | pyasm6502/package/evaluator.py:187-210 | a shift step whose count parses and whose shift succeeds continues the loop with the shifted value after the count's tokens |
| EvaluatorLoops.ParseAdditive | pyasm6502/package/evaluator.py:215-229 | the additive loop computes the additive level |
| EvaluatorLoops.AdditiveOperand | pyasm6502/package/evaluator.py:218-226 | one pass of the additive loop advances and keeps the remaining loop's result |
| EvaluatorLoops.ParseMultiplicative | pyasm6502/package/evaluator.py:231-257 | the multiplicative loop computes the multiplicative level |
| EvaluatorLoops.MultiplicativeOperand | pyasm6502/package/evaluator.py:234-254 | one pass of the multiplicative loop advances and keeps the remaining loop's result |
| EvaluatorLoops.ParseArguments | pyasm6502/package/evaluator.py:309-329 | the argument loop computes the argument list |
| EvaluatorLoops.NextArgument | pyasm6502/package/evaluator.py:316-329 | one argument and the `)` or `,` after it: finishing gives the list's result, continuing advances and adds exactly one argument |
| Tokens.LastKind | pyasm6502/package/tokenizer.py:6-10 | the type of the last token exactly when there is one |
| Tokenizer.CommentStart | pyasm6502/package/tokenizer.py:27-32 | the earliest `;` or `//`, or -1 exactly when the line has neither |
| Tokenizer.StripComment | pyasm6502/package/tokenizer.py:34-35 | the line is cut just before its first comment marker and contains none |
| Tokenizer.Span | pyasm6502/package/tokenizer.py:54-55 | an inner scanning loop stops at the first character outside its class, or at the end |
| Tokenizer.QuoteEnd | pyasm6502/package/tokenizer.py:147-151 | the quoted-literal loop stops at the closing quote or the end |
| Tokenizer.WordAt | pyasm6502/package/tokenizer.py:52-90 | a word appends one token starting at its first character |
| Tokenizer.NumberAt | pyasm6502/package/tokenizer.py:93-113 | a digit or `$` appends one HEX, BIN or DEC number token |
| Tokenizer.PercentAt | pyasm6502/package/tokenizer.py:115-140 | `%` appends one token |
| Tokenizer.QuotedAt | pyasm6502/package/tokenizer.py:143-158 | a quote appends one token |
| Tokenizer.SignAt | pyasm6502/package/tokenizer.py:161-202 | `+` or `-` appends one token, and only a PLUS or MINUS operator keeps the previous token type |
| Tokenizer.CheapLocalAt | pyasm6502/package/tokenizer.py:203-214 | `@` appends one token |
| Tokenizer.BangAt | pyasm6502/package/tokenizer.py:231-243 | `!` appends one token |
| Tokenizer.AmpersandAt | pyasm6502/package/tokenizer.py:273-298 | `&` appends one token |
| Tokenizer.DotAt | pyasm6502/package/tokenizer.py:324-347 | `.` appends one token |
| Tokenizer.PunctAt | pyasm6502/package/tokenizer.py:216-357 | each operator or punctuation character appends one token |
| Tokenizer.ScanAt | pyasm6502/package/tokenizer.py:42-360 | every pass of the loop advances; whitespace appends nothing and anything else appends one token at its own column and line |
| Tokenizer.SpanLoop | pyasm6502/package/tokenizer.py:54-55 | the inner loop computes its stopping index |
| Tokenizer.QuoteLoop | pyasm6502/package/tokenizer.py:147-151 | the quoted-literal loop computes its stopping index |
| Tokenizer.ScanWord | pyasm6502/package/tokenizer.py:52-90 | scanning a word gives its step |
| Tokenizer.ScanNumber | pyasm6502/package/tokenizer.py:93-113 | scanning a number gives its step |
| Tokenizer.ScanPercent | pyasm6502/package/tokenizer.py:115-140 | scanning `%` gives its step |
| Tokenizer.ScanQuoted | pyasm6502/package/tokenizer.py:143-158 | scanning a quoted literal gives its step |
| Tokenizer.ScanSign | pyasm6502/package/tokenizer.py:161-202 | scanning `+` or `-` gives its step |
| Tokenizer.ScanCheapLocal | pyasm6502/package/tokenizer.py:203-214 | scanning `@` gives its step |
| Tokenizer.ScanBang | pyasm6502/package/tokenizer.py:231-243 | scanning `!` gives its step |
| Tokenizer.ScanAmpersand | pyasm6502/package/tokenizer.py:273-298 | scanning `&` gives its step |
| Tokenizer.ScanDot | pyasm6502/package/tokenizer.py:324-347 | scanning `.` gives its step |
| Tokenizer.ScanStep | pyasm6502/package/tokenizer.py:42-360 | one pass of the scanning loop gives the step its character calls for |
| Tokenizer.Tokenize | pyasm6502/package/tokenizer.py:20-362 | the tokenizer's loop computes the token list of the line |
| Tokenizer.ColumnsIncrease | pyasm6502/package/tokenizer.py:43 | tokens come left to right: columns strictly increase and stay within the line, and all tokens carry the line number |
| Tokenizer.AtMostOneTokenPerChar | pyasm6502/package/tokenizer.py:42-360 | a line never gives more tokens than it has characters |
| Tokenizer.LabelAndFunctionFirst | pyasm6502/package/tokenizer.py:61-66 | a word followed by `:` is a LABEL without the colon and one followed by `(` is a FUNCTION, whatever the word |
| Tokenizer.KeywordRules | pyasm6502/package/tokenizer.py:68-90 | `AND`/`OR`/`XOR` in any case become operators right after a value token; otherwise an instruction name wins over `NOT`, `DIV` and `MOD`, and anything else is an identifier as written |
| Tokenizer.PercentRule | pyasm6502/package/tokenizer.py:123-140 | `%` starts a binary literal exactly when a binary digit follows and the previous token is not a value; otherwise it is MODULO |
| Tokenizer.AmpersandRule | pyasm6502/package/tokenizer.py:281-298 | `&` starts an octal literal exactly when an octal digit follows and the previous token is not a value; otherwise it is AND |
| Tokenizer.PlusMinusRules | pyasm6502/package/tokenizer.py:163-202 | `+letter` is a macro call; otherwise `+`/`-` is an operator after a number or identifier or before a different character, and a run of the same sign is an anonymous label |
| Tokenizer.GreedyOperators | pyasm6502/package/tokenizer.py:217-269 | `**`, `==`, `<<`, `<=`, `<>`, `>>>`, `>>` and `>=` are matched longest first |
| Tokenizer.BangRule | pyasm6502/package/tokenizer.py:231-243 | `!` followed by a word character is an ACME directive, `!=` is NOT_EQUAL, and `!` alone is NOT |
| Tokenizer.DotRules | pyasm6502/package/tokenizer.py:324-347 | `.digit` is a decimal literal, `.name:` a LABEL, a known `.name` a DIRECTIVE, other names identifiers, and `.` alone a DOT |
| Symbols.InitialStore | pyasm6502/assembler.py:27-80 | a new assembler has one empty zone, no globals, no cheap locals and nothing defined in this pass |
| Symbols.ScopeOf | pyasm6502/assembler.py:131-164 | a name of only `+` is forward, of only `-` backward, then `@` is cheap, `.` is local and the rest global, checked in that order |
| Symbols.Define | pyasm6502/assembler.py:174-224 | a definition keeps the zones, the current zone and the pass |
| Symbols.CreateZone | pyasm6502/assembler.py:122-126 | a new empty zone is appended and becomes current; all other symbol state is kept |
| Symbols.BeginPass | pyasm6502/assembler.py:695-724 | a pass starts with empty anonymous-label ledgers and no names defined in it, and keeps the symbols |
| Symbols.UnknownNamePolicy | pyasm6502/assembler.py:166-172 | a global name that is not defined resolves to 0 on pass 1 and is an error afterwards |
| Symbols.ForwardPolicy | pyasm6502/assembler.py:131-138 | a `+` name resolves to the first address recorded in this pass; with none it is 0 on pass 1 and an error afterwards |
| Symbols.BackwardPolicy | pyasm6502/assembler.py:140-145 | a `-` name resolves to the last address recorded, and is an error when there is none |
| Symbols.DefineThenResolve | pyasm6502/assembler.py:147-224 | after a successful definition of a named symbol, looking it up gives the defined value |
| Symbols.DefineBackwardThenResolve | pyasm6502/assembler.py:140-189 | defining a `-` label always succeeds and makes it the one a backward reference finds |
| Symbols.DefineForwardKeepsFirst | pyasm6502/assembler.py:131-183 | defining a `+` label appends to its ledger, so a forward reference keeps the first address |
| Symbols.DefineFailsOnlyOnDuplicate | pyasm6502/assembler.py:201-221 | a global or `.local` definition fails exactly when the name was already defined in this pass, with "Symbol already defined" |
| Symbols.SecondDefinitionRejected | pyasm6502/assembler.py:206-221 | defining a named symbol twice in one pass is rejected the second time |
| Symbols.EarlierPassOverwritten | pyasm6502/assembler.py:214-218 | a global carried over from an earlier pass is overwritten by its first definition in this pass |
| Symbols.GlobalClearsCheap | pyasm6502/assembler.py:212-224 | every successful global definition empties the cheap locals |
| Symbols.DefineOtherGlobalsUnchanged | pyasm6502/assembler.py:212-224 | a definition changes no other global |
| Symbols.NewZoneIsEmpty | pyasm6502/assembler.py:122-164 | after `create_zone` every `.name` resolves to 0 on pass 1 and is an error afterwards, and the earlier zones are kept |
| Symbols.BeginPassAllowsRedefinition | pyasm6502/assembler.py:201-224 | after the per-pass reset every symbol can be defined again |
| Opcodes.CpuOf | pyasm6502/assembler.py:97-120 | the CPU variant is chosen from the lower-cased type: `w65c02s`/`w65c02`, `65c02`, `nmos6502`, and the base 6502 for anything else |
| Opcodes.Sizes6502 | pyasm6502/package/constants.py:2-96 | every base entry's byte count is the one its addressing mode fixes |
| Opcodes.Sizes65C02 | pyasm6502/package/constants.py:99-122 | every 65C02 entry's byte count is the one its addressing mode fixes |
| Opcodes.SizesNmos | pyasm6502/package/constants.py:125-183 | every undocumented-NMOS entry's byte count is the one its addressing mode fixes |
| Opcodes.SizesW65C02S | pyasm6502/package/constants.py:186-211 | every W65C02S entry's byte count is the one its addressing mode fixes |
| Opcodes.TableSizes | pyasm6502/assembler.py:93-120 | after the CPU merge every entry's byte count is still the one its mode fixes |
| Opcodes.UnlistedHasNoModes | pyasm6502/assembler.py:93-120 | a name that is not a mnemonic of the active CPU has no table entry |
| Opcodes.DisjointFrom65C02 | pyasm6502/package/constants.py:2-122 | a 65C02 entry never names a mode the base table has for the same mnemonic, so the merge only adds |
| Opcodes.DisjointFromNmos | pyasm6502/package/constants.py:2-183 | an NMOS entry never names a mode the base table has for the same mnemonic, NOP's implied mode included |
| Opcodes.DisjointFromW65C02S | pyasm6502/package/constants.py:2-211 | a W65C02S entry never names a mode the base table has for the same mnemonic |
| Opcodes.MergeKeepsBase | pyasm6502/assembler.py:100-107 | merging only adds modes: every base entry survives unchanged on every CPU |
| Opcodes.ExtensionsHaveNoBranches | pyasm6502/package/constants.py:74-211 | no extension table touches the conditional branches |
| Opcodes.BranchesAreRelativeOnly | pyasm6502/package/constants.py:74-76 | the conditional branches have only their relative mode, on every CPU |
| Opcodes.BraIsRelativeOnly | pyasm6502/package/constants.py:101-188 | BRA exists only on the CMOS parts, as the relative opcode 0x80 |
| Opcodes.BbrOpcodes | pyasm6502/package/constants.py:193-196 | `BBRn` is the zero-page-relative opcode `0x0F + 0x10n` for n from 0 to 7 |
| Opcodes.BbsOpcodes | pyasm6502/package/constants.py:197-200 | `BBSn` is the zero-page-relative opcode `0x8F + 0x10n` |
| Opcodes.RmbOpcodes | pyasm6502/package/constants.py:201-204 | `RMBn` is the zero-page opcode `0x07 + 0x10n` |
| Opcodes.SmbOpcodes | pyasm6502/package/constants.py:205-208 | `SMBn` is the zero-page opcode `0x87 + 0x10n` |
| Opcodes.JmpModes | pyasm6502/package/constants.py:79-118 | JMP is absolute 0x4C and indirect 0x6C everywhere, and only the CMOS parts add `(addr,X)` 0x7C |
| Opcodes.W65C02SRepeatsCmos | pyasm6502/package/constants.py:99-211 | where the W65C02S table repeats a 65C02 entry it has the same opcode, so the second merge changes nothing there |
| Opcodes.AlrIsAsr | pyasm6502/package/constants.py:159-160 | ALR and ASR are the same immediate opcode 0x4B |
| Opcodes.DopTopAreNops | pyasm6502/package/constants.py:173-182 | DOP and TOP are undocumented NOP opcodes |
| Opcodes.NmosNopKeepsImplied | pyasm6502/assembler.py:100-107 | on the NMOS CPU, NOP keeps its implied opcode 0xEA after the merge |
| Opcodes.W65C02SNamesAreNew0 | pyasm6502/package/constants.py:186-211 | one group of the W65C02S-only mnemonics: none of them has a base 6502 entry |
| Opcodes.W65C02SNamesAreNew1 | pyasm6502/package/constants.py:186-211 | one group of the W65C02S-only mnemonics: none of them has a base 6502 entry |
| Opcodes.W65C02SNamesAreNew2 | pyasm6502/package/constants.py:186-211 | one group of the W65C02S-only mnemonics: none of them has a base 6502 entry |
| Opcodes.W65C02SNamesAreNew3 | pyasm6502/package/constants.py:186-211 | one group of the W65C02S-only mnemonics: none of them has a base 6502 entry |
| Opcodes.W65C02SNamesAreNew4 | pyasm6502/package/constants.py:186-211 | one group of the W65C02S-only mnemonics: none of them has a base 6502 entry |
| Assembler.IndirectMode | pyasm6502/assembler.py:257-291 | a parenthesised operand decides one of the indirect modes and consumes at least one and at most the remaining tokens |
| Assembler.ZpRelMode | pyasm6502/assembler.py:293-302 | a `BBR`/`BBS` operand is the `ZP_REL` pair of a zero-page value and a target, within the token list |
| Assembler.DirectMode | pyasm6502/assembler.py:304-355 | a direct, indexed or relative operand is a numeric operand that consumes tokens of the list only |
| Assembler.DirectModeFacts | pyasm6502/assembler.py:321-355 | zero page is chosen only when the instruction has it and the value fits a byte or carries `<`; `JMP`/`JSR` get `ABS` or an indexed mode; branches get `REL` or an indexed mode; `REL` keeps the value |
| Assembler.AddressingMode | pyasm6502/assembler.py:226-355 | without operand tokens nothing is consumed; with them at least one and no more than remain; the single implied byte is only for `TOP`/`DOP` without operand |
| Assembler.ImmediateIsLowByte | pyasm6502/assembler.py:250-254 | `#expr` succeeds exactly when a value follows and evaluates, and gives `IMM` with the value's low byte and the tokens consumed plus one |
| Assembler.ZeroPageNeedsByteValue | pyasm6502/assembler.py:325-353 | a zero-page mode is decided only when the table has it and the value is at most 0xFF or written with `<` |
| Assembler.JumpsAreNeverZeroPage | pyasm6502/assembler.py:337-339 | `JMP` and `JSR` never get the `ZP` mode |
| Assembler.BranchesAreRelative | pyasm6502/assembler.py:341-343 | a plain branch operand is `REL` with the evaluated target, unless an index register follows |
| Assembler.TableMode | pyasm6502/assembler.py:377-387 | a mode of the table is used as is; `ZP`, `ZPX`, `ZPY` fall back to `ABS`, `ABSX`, `ABSY` and to nothing else; it fails with "Invalid addressing mode" exactly when neither exists |
| Assembler.EncodedAddressedLength | pyasm6502/assembler.py:389-410 | the bytes of a decided instruction are its table entry's opcode then bytes below 256, as many as the mode's size |
| Assembler.EncodedLength | pyasm6502/assembler.py:357-410 | every emitted instruction is the opcode of the table entry it used followed by operand bytes, as long as that mode's size |
| Assembler.RelativeReachesTarget | pyasm6502/assembler.py:393-398 | on pass 2 a branch encodes exactly when the target is within -128..127 of the next instruction, and the signed offset byte leads there |
| Assembler.ZpRelativeReachesTarget | pyasm6502/assembler.py:401-408 | on pass 2 `BBR`/`BBS` encode exactly when the target is in range of the end of the instruction, as the zero-page byte and a signed offset that leads there |
| Assembler.FirstPassTakesAnyOffset | pyasm6502/assembler.py:396-405 | pass 1 never rejects an operand for its range |
| Assembler.WordIsLittleEndian | pyasm6502/assembler.py:409-425 | a word operand is two bytes, low first, that give the value modulo 65536 |
| Assembler.FirstWord | pyasm6502/assembler.py:493-498 | the first word is the longest whitespace-free prefix of the line |
| Assembler.Fis | pyasm6502/assembler.py:506-507 | the padding is exactly `n` lines of `!fi` |
| Assembler.FiCloses | pyasm6502/assembler.py:503-504 | a `!fi` line closes one conditional |
| Assembler.UnclosedSnoc | pyasm6502/assembler.py:491-504 | the open count of a body with one more line is the old count plus that line's change |
| Assembler.UnclosedAfterFis | pyasm6502/assembler.py:491-507 | appending `n` lines of `!fi` lowers the open count by `n` |
| Assembler.AutoCloseBalances | pyasm6502/assembler.py:488-507 | auto-closing keeps the body as a prefix, appends only `!fi` lines, leaves a balanced body untouched and a body with open conditionals with none open |
| Assembler.Assembler6502.constructor | pyasm6502/assembler.py:26-80 | a new assembler is at PC 0 with no output, the initial symbol store, the 6502 table, plain output, idle collection, the `raw` table and empty processors |
| Assembler.Assembler6502.UpdateInstructions | pyasm6502/assembler.py:93-120 | the instruction table follows the CPU type, and nothing else changes |
| Assembler.Assembler6502.CreateZone | pyasm6502/assembler.py:122-126 | the store becomes that of the zone function, and the PC, output, settings and collection state are kept |
| Assembler.Assembler6502.DefineSymbol | pyasm6502/assembler.py:174-224 | the store follows the definition function on success and is kept on failure, with its error; nothing else changes |
| Assembler.Assembler6502.EmitByte | pyasm6502/assembler.py:412-420 | the emitter state follows one emission through the segment manager; the rest of the segment state, the store and the settings are kept |
| Assembler.Assembler6502.EmitWord | pyasm6502/assembler.py:422-425 | the emitter state follows the low byte then the high byte |
| Assembler.Assembler6502.AssembleInstruction | pyasm6502/assembler.py:357-410 | on success the encoded bytes are emitted (`TOP`/`DOP` store one byte and advance the PC); on failure the error is the encoding's, and only the opcode of an out-of-range branch is emitted |
| Assembler.Assembler6502.EmitInstruction | pyasm6502/assembler.py:377-410 | the table entry's opcode then its operand bytes are emitted; a failure emits at most the opcode |
| Assembler.Assembler6502.EmitOperand | pyasm6502/assembler.py:393-410 | each operand byte is emitted in order |
| Assembler.Assembler6502.StartMacroCollection | pyasm6502/assembler.py:527-533 | collection starts for that name and those parameters, with an empty body at brace depth 1 |
| Assembler.Assembler6502.CountUnclosed | pyasm6502/assembler.py:489-504 | the loop's count equals the net number of conditionals the body leaves open |
| Assembler.Assembler6502.CollectMacroLine | pyasm6502/assembler.py:474-525 | a line that keeps the brace depth positive is appended; one that brings it to zero or below defines the macro with the auto-closed final body (a lone `}` dropped) and clears the collection state |
| Assembler.Assembler6502.FinishMacro | pyasm6502/assembler.py:506-522 | the macro is defined with the auto-closed body at the current line and the collection state is cleared |
| Assembler.Assembler6502.CloseConditionals | pyasm6502/assembler.py:488-507 | the result is the auto-closed body |
| Assembler.Assembler6502.EndCollection | pyasm6502/assembler.py:517-522 | the collection state is idle, and nothing else changes |
| Assembler.Assembler6502.BeginPass | pyasm6502/assembler.py:689-724 | a pass starts at PC 0, with empty output on pass 2, the per-pass symbol reset, empty conditional and loop stacks, local-label counter 0, no segments or pseudo-PC, idle collection; symbols, macros and settings carry over |
| Assembler.Assembler6502.ResetOwnState | pyasm6502/assembler.py:690-724 | the assembler's own fields are reset for the pass as above |
| Assembler.Assembler6502.ResetProcessors | pyasm6502/assembler.py:699-712 | the conditional, loop, macro-counter and segment resets, each keeping what it does not reset |
| Segments.OverlapsSymmetric | pyasm6502/package/segments.py:23-31 | overlap is symmetric |
| Segments.OverlapsMeansSharedAddress | pyasm6502/package/segments.py:23-31 | two normal, non-empty segments overlap exactly when some address lies in both |
| Segments.SavedPseudo | pyasm6502/package/segments.py:56 | the saved pseudo-PC is the current one unless it is absent or 0, in which case it is the real PC |
| Segments.Enter | pyasm6502/package/segments.py:51-60 | entering pushes the real PC with the saved pseudo-PC and makes the new address current, keeping the stack below |
| Segments.Exit | pyasm6502/package/segments.py:62-71 | leaving fails exactly on an empty stack; otherwise it pops, and the current pseudo-PC becomes the popped saved value, or none when the stack is then empty |
| Segments.ExitAfterEnter | pyasm6502/package/segments.py:51-71 | leaving the block just entered succeeds and restores the stack; at the outermost level there is no pseudo-PC afterwards, and nested it returns to the saved one (the real PC when that was 0) |
| Segments.EffectivePc | pyasm6502/package/segments.py:73-78 | the effective PC is the pseudo-PC when there is one and the real PC otherwise |
| Segments.Unpseudo | pyasm6502/package/segments.py:80-91 | outside a block the address is kept; inside, it keeps its distance from the block's saved pseudo-PC, measured from the real PC at entry |
| Segments.UnpseudoInOutermostBlock | pyasm6502/package/segments.py:51-91 | in an outermost block entered with no pseudo-PC, every address maps to itself |
| Segments.Masked | pyasm6502/package/segments.py:100-108 | with a zero mask the byte written is the value's low byte |
| Segments.EmitWritesEffectivePcOnly | pyasm6502/package/segments.py:93-110 | one emission writes the masked byte at the effective PC and nowhere else, and advances the real PC and any pseudo-PC by 1 |
| Segments.EmitAllAppend | pyasm6502/package/segments.py:93-110 | emitting two sequences in turn is emitting their concatenation |
| Segments.EmitAllPlain | pyasm6502/package/segments.py:93-110 | outside a pseudo-PC block, `n` emissions write the masked values at the `n` addresses from the PC up, keep every other address and advance the PC by `n` |
| Segments.RunsPartition | pyasm6502/package/segments.py:148-182 | the runs found cover each written address exactly once, and are each bounded by unwritten addresses |
| Segments.RunsDoNotOverlap | pyasm6502/package/segments.py:23-182 | no two of the runs overlap |
| Segments.RunsReportNoOverlap | pyasm6502/package/segments.py:184-201 | the overlap report over the runs is empty |
| Segments.FilledKeepsWritten | pyasm6502/package/segments.py:203-218 | filling covers the range, keeps every written byte and writes the init value at each unwritten address in the range |
| Segments.SegmentManager.constructor | pyasm6502/package/segments.py:36-41 | a new manager has no segments, no pseudo-PC stack or pseudo-PC, no init value and mask 0 |
| Segments.SegmentManager.SetInitMemory | pyasm6502/package/segments.py:43-45 | the init value becomes the low byte of the argument; nothing else changes |
| Segments.SegmentManager.SetXorValue | pyasm6502/package/segments.py:47-49 | the mask becomes the low byte of the argument; nothing else changes |
| Segments.SegmentManager.EnterPseudopc | pyasm6502/package/segments.py:51-60 | the pseudo-PC state follows Enter; nothing else changes |
| Segments.SegmentManager.ExitPseudopc | pyasm6502/package/segments.py:62-71 | fails with "No !pseudopc to exit" exactly when Exit fails, changing nothing; otherwise the state follows Exit |
| Segments.SegmentManager.EmitByte | pyasm6502/package/segments.py:93-110 | the real PC, output and pseudo-PC follow one emission; the rest is kept |
| Segments.SegmentManager.ProcessDirective | pyasm6502/package/segments.py:112-146 | `!pseudopc`, `!initmem` and `!xor` fail without an operand or with an evaluation error, changing nothing; otherwise they enter a block at the value or set the init value or the mask to its low byte |
| Segments.SegmentManager.AnalyzeSegments | pyasm6502/package/segments.py:148-182 | the result is the ascending list of maximal runs of written addresses with their bytes; it is recorded unless the output is empty |
| Segments.SegmentManager.DetectOverlaps | pyasm6502/package/segments.py:184-201 | the warnings are the overlapping pairs of the analysed runs, and there are none |
| Segments.SegmentManager.FillGapsWithInitmem | pyasm6502/package/segments.py:203-218 | without an init value, or for a range over 256 bytes, the output is kept; otherwise the gaps of the range are filled with the init value |
| Segments.SegmentManager.Reset | pyasm6502/package/segments.py:246-251 | segments, stack and pseudo-PC are cleared; the init value and the mask survive |
| Segments.FindRuns | pyasm6502/package/segments.py:156-180 | the scan yields the maximal runs of the output, none exactly when nothing was written |
| Segments.ScanAddress | pyasm6502/package/segments.py:166-176 | an address one past the current run extends it; any other closes the run and starts a new one; the scan invariant is kept |
| Segments.ReportOverlaps | pyasm6502/package/segments.py:189-199 | the nested loops report exactly the overlapping pairs, each earlier segment against each later one |
| Conditionals.SkippingIffInactiveBlock | pyasm6502/package/conditionals.py:33-77 | under the invariant, code is skipped exactly when some open block is inactive |
| Conditionals.NestingResult | pyasm6502/package/conditionals.py:246-253 | validation fails exactly when a block is still open, naming the start line of the innermost one |
| Conditionals.OpenKeepsConsistent | pyasm6502/package/conditionals.py:63-77 | opening a block keeps the invariant, pushes one block, skips exactly when it already skipped or the condition is false, and reports the block active exactly when not skipping |
| Conditionals.PopKeepsConsistent | pyasm6502/package/conditionals.py:202-227 | popping keeps the invariant and removes exactly the top block |
| Conditionals.ElseKeepsConsistent | pyasm6502/package/conditionals.py:159-190 | `!else` keeps the invariant and the depth |
| Conditionals.FiKeepsConsistent | pyasm6502/package/conditionals.py:192-211 | `!fi` keeps the invariant |
| Conditionals.CloseBraceKeepsConsistent | pyasm6502/package/conditionals.py:213-227 | `}` keeps the invariant |
| Conditionals.OpenThenCloseRestores | pyasm6502/package/conditionals.py:63-227 | a block opened and then closed by `!fi` (or by `}` for a brace block) gives the old state back |
| Conditionals.TopLevelIfElseFi | pyasm6502/package/conditionals.py:63-211 | at top level the if branch is assembled exactly when the condition holds, the else branch exactly when it does not, and `!fi` leaves nothing open |
| Conditionals.NestedElseKeepsSkipping | pyasm6502/package/conditionals.py:178-190 | a false inner `!if` under an active block keeps skipping through its `!else` |
| Conditionals.BraceBlocksRejectElseAndFi | pyasm6502/package/conditionals.py:169-216 | a brace block rejects `!else` and `!fi`, and a `!fi` block rejects `}` |
| Conditionals.SecondElseRejected | pyasm6502/package/conditionals.py:172-173 | a second `!else` in one block is rejected |
| Conditionals.IfConsumesConditionAndBrace | pyasm6502/package/conditionals.py:41-78 | `!if` consumes the condition and an optional `{`, makes a brace block exactly when the `{` is there, and outside skipping is active exactly when the value is non-zero |
| Conditionals.IfdefIfndefComplementary | pyasm6502/package/conditionals.py:80-244 | `!ifdef name` is active exactly when the name is defined, and `!ifndef name` exactly when it is not, consuming the same tokens |
| Conditionals.ConditionalProcessor.constructor | pyasm6502/package/conditionals.py:29-31 | a new processor has no blocks and skip level 0 |
| Conditionals.ConditionalProcessor.Push | pyasm6502/package/conditionals.py:76-77 | the block is pushed and the skip level set |
| Conditionals.ConditionalProcessor.OpenBlock | pyasm6502/package/conditionals.py:63-77 | the state and the result follow Open |
| Conditionals.ConditionalProcessor.ProcessIfDirective | pyasm6502/package/conditionals.py:41-78 | errors change nothing; otherwise the state, the activity and the tokens consumed follow IfDirective |
| Conditionals.ConditionalProcessor.ProcessIfdefDirective | pyasm6502/package/conditionals.py:80-157 | errors change nothing; otherwise the result and the state follow IfdefDirective |
| Conditionals.ConditionalProcessor.ProcessElseDirective | pyasm6502/package/conditionals.py:159-190 | errors change nothing; otherwise the state and whether the else branch is assembled follow Else |
| Conditionals.ConditionalProcessor.PopBlock | pyasm6502/package/conditionals.py:202-211 | the state follows Pop |
| Conditionals.ConditionalProcessor.ProcessFiDirective | pyasm6502/package/conditionals.py:192-211 | errors change nothing; otherwise the state follows Fi |
| Conditionals.ConditionalProcessor.ProcessRBraceDirective | pyasm6502/package/conditionals.py:213-227 | errors change nothing; otherwise the state follows CloseBrace |
| Conditionals.ConditionalProcessor.ValidateNesting | pyasm6502/package/conditionals.py:246-253 | the outcome is NestingResult of the state |
| Conditionals.ConditionalProcessor.Reset | pyasm6502/package/conditionals.py:255-258 | no blocks and skip level 0 |
| Macros.MacroDirective | pyasm6502/package/macros.py:45-107 | a `!macro` line fails only for a missing name or malformed braces; a definition has the name, the parsed parameters, the line and at most one body line; a collection start has the name and parameters |
| Macros.MacroDirectiveForms | pyasm6502/package/macros.py:87-107 | no `{` defines an empty body; `{` without `}` starts collection; `{ ... }` on one line defines the stripped text between them as the body, or none when it is empty |
| Macros.Bind | pyasm6502/package/macros.py:130-132 | binding an existing key keeps the order and the length; a new key is appended |
| Macros.ParamMapPairs | pyasm6502/package/macros.py:129-132 | with distinct parameter names the `k`-th parameter is bound to the `k`-th argument, in order |
| Macros.ProtectWrapsOperators | pyasm6502/package/macros.py:206-222 | an argument is wrapped in parentheses exactly when it contains an operator character |
| Macros.OperatorIsNotSpace | pyasm6502/package/macros.py:215-217 | no operator character is whitespace, so stripping does not change the operator test |
| Macros.SubSelf | pyasm6502/package/macros.py:159-173 | substituting a pattern by itself changes nothing |
| Macros.SubWithoutMatch | pyasm6502/package/macros.py:159-173 | a line without a match of the pattern is left as it is |
| Macros.WordEnd | pyasm6502/package/macros.py:185-202 | the run of word characters is maximal |
| Macros.NoDotLabelsInWord | pyasm6502/package/macros.py:185 | no `.label` starts inside a run of word characters |
| Macros.DotRenameLength | pyasm6502/package/macros.py:177-185 | renaming inserts the suffix exactly once per `.label`; a dot followed by a digit is not a label |
| Macros.DotRenameEmptySuffix | pyasm6502/package/macros.py:177-185 | with an empty suffix `.label` renaming is the identity |
| Macros.CheapRenameEmptySuffix | pyasm6502/package/macros.py:189-202 | with an empty suffix `@label` renaming is the identity |
| Macros.CheapRenameKeepsParams | pyasm6502/package/macros.py:193-196 | an `@name` that is a parameter is copied unchanged, with its colon |
| Macros.CommentsAreNotRenamed | pyasm6502/package/macros.py:177-189 | a line that is a comment after substitution gets no label renamed |
| Macros.SuffixInjective | pyasm6502/package/macros.py:135-136 | different expansion counters give different label suffixes |
| Macros.Expansion | pyasm6502/package/macros.py:109-149 | expansion fails exactly for an undefined macro, a depth of 32 or more, or a wrong argument count, with those errors in that order; otherwise it has one line per body line |
| Macros.CollectTurn | pyasm6502/package/macros.py:234-261 | a line closes the body only after a `{` was seen and only if it holds `}`; each line adds at most one body line and never drops one; the flag ends true exactly when it was true or the line holds `{`; lines before the first `{` change nothing |
| Macros.CollectFrom | pyasm6502/package/macros.py:224-263 | collection fails only with "Unclosed macro" at the start line plus one; on success it ends on a line holding `}` and extends the body by at most one line per line read |
| Macros.CollectNeedsOpeningBrace | pyasm6502/package/macros.py:247-263 | without any `{` the collection fails |
| Macros.SpaceIndex | pyasm6502/package/macros.py:278 | the index is that of the first whitespace at or after the start, or the end |
| Macros.StripAll | pyasm6502/package/macros.py:291 | each argument is stripped, in order |
| Macros.ParseMacroCall | pyasm6502/package/macros.py:265-293 | parsing fails exactly when the stripped line does not start with `+` or has nothing after it; the name is a non-empty word without whitespace |
| Macros.SplitJoinedArguments | pyasm6502/package/macros.py:287-291 | splitting `, `-joined plain arguments on commas and stripping gives them back |
| Macros.FormattedCallIsTrimmed | pyasm6502/package/macros.py:271 | a formatted call is its own strip |
| Macros.ArgumentTailParses | pyasm6502/package/macros.py:285-291 | the argument part of a formatted call strips to the joined list, which splits back to the arguments |
| Macros.MacroCallRoundTrip | pyasm6502/package/macros.py:265-293 | parsing `+name a, b, ...` gives back the name and the arguments |
| Macros.MacroSystem.constructor | pyasm6502/package/macros.py:26-30 | no macros, call depth 0 and counter 0 |
| Macros.MacroSystem.DefineMacro | pyasm6502/package/macros.py:32-39 | the macro is stored under its name, replacing any earlier one |
| Macros.MacroSystem.ParseParameters | pyasm6502/package/macros.py:63-85 | the loop yields the parameter list of the specification |
| Macros.MacroSystem.ProcessMacroDirective | pyasm6502/package/macros.py:45-107 | the result is MacroDirective's; a definition is stored and nothing else changes the table |
| Macros.MacroSystem.ExpandMacro | pyasm6502/package/macros.py:109-149 | the result is Expansion's; success bumps the counter by one, failure keeps it; the table and the call depth are unchanged afterwards |
| Macros.MacroSystem.SubstituteBody | pyasm6502/package/macros.py:143-145 | each body line is substituted, in order |
| Macros.MacroSystem.CollectMacroBody | pyasm6502/package/macros.py:224-263 | the loop's result is CollectFrom's from the start line |
| Macros.MacroSystem.CollectLine | pyasm6502/package/macros.py:234-261 | the loop body computes CollectTurn for the line |
| Macros.MacroSystem.Reset | pyasm6502/package/macros.py:295-298 | the call depth is 0; definitions and the counter persist |
| Loops.ScheduleShape | pyasm6502/package/loops.py:241-256 | a numeric loop visits `ForCount` values, the `k`-th being start plus `k` steps, each within the end bound; a zero step visits none |
| Loops.ForExec | pyasm6502/package/loops.py:240-256 | a numeric loop that completes has run the body at most 1000 times |
| Loops.ValuesExec | pyasm6502/package/loops.py:224-238 | a loop over values that completes has run the body once per value, within the ceiling |
| Loops.ForFollowsSchedule | pyasm6502/package/loops.py:240-256 | the numeric loop behaves as the loop over its schedule of values |
| Loops.LoopVariableFollowsValues | pyasm6502/package/loops.py:226-237 | the `k`-th body execution sees the loop variable set to the `k`-th value, and a completed loop runs the body once per value |
| Loops.ValuesCeiling | pyasm6502/package/loops.py:227-228 | more values than the ceiling allows, with a body that never fails, end with the safety-limit error |
| Loops.WhileExec | pyasm6502/package/loops.py:258-273 | a `!while` that completes ran its body fewer than 1000 times |
| Loops.WhileFalseRunsZero | pyasm6502/package/loops.py:266-269 | a condition that is 0 at the start runs the body zero times and changes nothing |
| Loops.WhileTrueHitsCeiling | pyasm6502/package/loops.py:262-273 | a true condition with a body that changes nothing ends with the safety-limit error |
| Loops.DoExec | pyasm6502/package/loops.py:275-297 | a `!do` loop that completes ran its body at least once and at most 1000 times |
| Loops.DoStopsAfterOneRun | pyasm6502/package/loops.py:283-297 | `!until c` stops after one run when `c` is then non-zero, the `while` form when it is then zero |
| Loops.SetDirective | pyasm6502/package/loops.py:74-86 | `!set` succeeds only for `name = expr` with an evaluable expression, giving that name and value |
| Loops.ForInStringLoopsOverOrds | pyasm6502/package/loops.py:100-238 | `!for v in "text"` names `v` and loops over the character codes of the unquoted text, in order |
| Loops.ForWithoutStep | pyasm6502/package/loops.py:129-153 | the numeric form takes its start and end from the expressions after the commas, starts its variable at the start value, and defaults its step to 1 |
| Loops.LoopProcessor.constructor | pyasm6502/package/loops.py:52-58 | no variables and no open loops |
| Loops.LoopProcessor.SetVariable | pyasm6502/package/loops.py:60-62 | the variable is set and the loop stacks are kept |
| Loops.LoopProcessor.ProcessSetDirective | pyasm6502/package/loops.py:74-86 | on error the variables are kept; otherwise the name gets the value of SetDirective |
| Loops.LoopProcessor.ProcessForDirective | pyasm6502/package/loops.py:88-156 | the result is ForDirective's, and a successful loop is pushed |
| Loops.LoopProcessor.ProcessWhileDirective | pyasm6502/package/loops.py:158-167 | without a condition it fails with "!while requires a condition"; otherwise a loop with the remaining tokens as condition is pushed |
| Loops.LoopProcessor.ProcessDoDirective | pyasm6502/package/loops.py:169-173 | an empty `!do` loop is pushed |
| Loops.LoopProcessor.ExecuteForLoop | pyasm6502/package/loops.py:220-256 | the result and the new variables follow the loop's specification, from the current variables |
| Loops.LoopProcessor.ExecuteWhileLoop | pyasm6502/package/loops.py:258-273 | the result and the new variables follow WhileExec |
| Loops.LoopProcessor.ExecuteDoLoop | pyasm6502/package/loops.py:275-297 | the result and the new variables follow DoExec |
| Loops.LoopProcessor.ProcessDoEnd | pyasm6502/package/loops.py:175-205 | without `!do` or without condition it fails with the form's error; otherwise the innermost `!do` takes the condition and form, runs as DoExec, and is popped only when it completes |
| Loops.LoopProcessor.ProcessOdDirective | pyasm6502/package/loops.py:207-218 | the innermost for-loop, else the innermost while-loop, runs and is popped when it completes; with neither it fails |
| Loops.LoopProcessor.Reset | pyasm6502/package/loops.py:333-339 | variables and all loop stacks are cleared |
| Output.Blocks | pyasm6502/package/output.py:27-39 | the blocks start at the lowest address and end at the highest |
| Output.BlocksStep | pyasm6502/package/output.py:31-37 | each further address extends the last block when it is at most 256 past its predecessor, and opens a new block otherwise |
| Output.BlocksShape | pyasm6502/package/output.py:27-39 | over ascending addresses the blocks are ordered ranges within the span, every address lies in its block, neighbouring blocks are more than 256 apart, and inside a block no step exceeds 256 |
| Output.BlocksBounded | pyasm6502/package/output.py:27-39 | every block lies within the span of the addresses |
| Output.LargestIn | pyasm6502/package/output.py:42 | the block chosen is the first of the largest span |
| Output.Window | pyasm6502/package/output.py:45-50 | the window has one byte per address of the block |
| Output.PlainOutputShape | pyasm6502/package/output.py:18-52 | plain output is the bytes of the first widest block, with written bytes in place and 0 in the gaps, and no block is wider |
| Output.PlainOutputEmpty | pyasm6502/package/output.py:20-21 | plain output is empty exactly when nothing was written |
| Output.CollectBlocks | pyasm6502/package/output.py:27-39 | the loop yields the blocks of the specification |
| Output.FillWindow | pyasm6502/package/output.py:45-50 | the buffer filled in place is the block's window |
| Output.GeneratePlain | pyasm6502/package/output.py:18-52 | the result is the plain output |
| Output.CbmLoadAddress | pyasm6502/package/output.py:54-68 | CBM output is the lowest address modulo 65536, low byte first, followed by the plain output |
| Output.GenerateCbm | pyasm6502/package/output.py:54-68 | the result is the CBM output |
| Output.RunEnd | pyasm6502/package/output.py:88-93 | a record never holds more than 16 bytes |
| Output.RunEndShape | pyasm6502/package/output.py:88-93 | a record covers consecutive addresses and ends at the last address, at 16 bytes or at a gap |
| Output.HexRecordsCoverOutput | pyasm6502/package/output.py:78-94 | the records hold every written address once, in ascending order, each with its byte |
| Output.HexRecordSizes | pyasm6502/package/output.py:84-93 | each record holds 1 to 16 bytes |
| Output.ChecksumCancels | pyasm6502/package/output.py:99-103 | the byte count, address bytes, type, data and checksum sum to 0 modulo 256 |
| Output.HexDigits | pyasm6502/package/output.py:106-109 | the upper-case hex digits denote the number |
| Output.HexFieldValue | pyasm6502/package/output.py:106-109 | a field below `16^w` is exactly `w` digits denoting the value |
| Output.HexData | pyasm6502/package/output.py:107-108 | two digits per data byte |
| Output.RecordLineFields | pyasm6502/package/output.py:96-109 | a record line at a 16-bit address is `:`, the byte count, the address, type 00, the data, the checksum and a newline, each field reading back its value |
| Output.RecordLineData | pyasm6502/package/output.py:107-108 | the `k`-th data field reads back the `k`-th byte |
| Output.HexBytes | pyasm6502/package/output.py:116 | one byte per character of the text |
| Output.HexEndsWithEof | pyasm6502/package/output.py:113-116 | the text of a non-empty map ends with the end-of-file record |
| Output.RecordChecksum | pyasm6502/package/output.py:99-103 | the loop computes the record's checksum |
| Output.FormatRecord | pyasm6502/package/output.py:96-109 | the line built is the record's line |
| Output.AppendHexData | pyasm6502/package/output.py:107-108 | the loop appends the two digits of every byte, in order, to the line |
| Output.CollectRecord | pyasm6502/package/output.py:84-93 | the inner loop collects the bytes of the record starting at that index, up to where it ends |
| Output.RecordsFromStep | pyasm6502/package/output.py:81-94 | one outer turn produces the record at that index and continues where it ends |
| Output.RecordLines | pyasm6502/package/output.py:81-111 | the loop writes the lines of all records in order |
| Output.GenerateHex | pyasm6502/package/output.py:70-116 | the result is the Intel HEX text, as ASCII |
| Output.OutputFormats | pyasm6502/package/output.py:7-16 | output is empty exactly when nothing was written, in every format; a format without its own generator is plain |
| Output.GenerateOutput | pyasm6502/package/output.py:7-16 | the result is the output of the chosen format |
| Directives.Repeat | pyasm6502/package/directives.py:124-125 | `count` copies of the value, none for a count that is not positive |
| Directives.ReverseInts | pyasm6502/package/directives.py:40-62 | the same values in reverse order |
| Directives.LittleBytesDecode | pyasm6502/package/directives.py:33-62 | reading the `size` low bytes back gives the value modulo 2^(8*size) |
| Directives.ReverseTwice | pyasm6502/package/directives.py:40-62 | reversing twice gives the bytes back |
| Directives.ValueBytesShape | pyasm6502/package/directives.py:33-62 | a numeric item emits exactly `size` bytes below 256; the big-endian bytes are the little-endian ones reversed, with the low byte first in one and last in the other |
| Directives.ValueBytesRoundTrip | pyasm6502/package/directives.py:33-62 | read back in the item's byte order the bytes give the value modulo 2^(8*size), the value itself when it fits |
| Directives.TextItemsIgnoreSize | pyasm6502/package/directives.py:20-28 | string and character items emit the codes of their characters in order, with no error, whatever the size and byte order |
| Directives.SingleValueItem | pyasm6502/package/directives.py:29-64 | a numeric item that ends the line emits its value bytes and nothing else; one that fails to evaluate emits nothing and stops |
| Directives.PairValue | pyasm6502/package/directives.py:84-89 | a pair parses exactly when it is two hex digits, or a sign then a hex digit, giving the value Python's `int(pair, 16)` gives |
| Directives.HexPairs | pyasm6502/package/directives.py:83-89 | the pairs give at most one byte per pair, exactly one per pair without error, and an error names the bad two-character pair |
| Directives.HexText | pyasm6502/package/directives.py:83-89 | two digits per byte |
| Directives.HexTextRoundTrip | pyasm6502/package/directives.py:76-89 | the hex text of bytes decodes back to those bytes with no error |
| Directives.HexOfHexText | pyasm6502/package/directives.py:70-98 | a `!hex` string holding the hex text of some bytes emits exactly those bytes |
| Directives.OddHexStringFails | pyasm6502/package/directives.py:78-81 | a string of odd length after whitespace removal emits nothing and fails |
| Directives.AlignPaddingReachesBoundary | pyasm6502/package/directives.py:109-121 | for a boundary that passes the power-of-two test the padding is below the boundary, reaches a multiple of it, and is zero exactly when the PC is aligned |
| Directives.AlignFill | pyasm6502/package/directives.py:112-116 | the fill value is 0 without a comma and otherwise a byte |
| Directives.AlignReachesBoundary | pyasm6502/package/directives.py:100-125 | a successful `!align` outside a pseudo-PC block ends on the next multiple of the boundary, fewer than boundary bytes on, with every padding byte the fill value under the mask |
| Directives.FillWritesCount | pyasm6502/package/directives.py:219-226 | a successful `!fill` outside a pseudo-PC block writes the value, under the mask, at `count` addresses from the PC and keeps every other address |
| Directives.SkipItems | pyasm6502/package/directives.py:232-236 | `!skip` writes nothing, keeps the pseudo-PC and mask, and on success moves the real PC by the count |
| Directives.OrgItems | pyasm6502/package/directives.py:376-382 | `.org` writes nothing, fails without an operand and otherwise sets the real PC to the value |
| Directives.DsItems | pyasm6502/package/directives.py:388-395 | `.ds` fails without an operand and otherwise emits `count` zero bytes |
| Directives.RawTextIsCharacterCodes | pyasm6502/package/directives.py:180-186 | `!text` and `!raw` emit plain character codes whatever table `!convtab` chose |
| Directives.FormatNamesRoundTrip | pyasm6502/package/directives.py:145-149 | each output format has exactly one name, and looking it up gives the format |
| Directives.ToSettings | pyasm6502/package/directives.py:133-149 | without a string nothing changes; the filename is the unquoted string; a format changes only to the format named after the comma; an unknown name is an error that keeps the format |
| Directives.CpuRunEnd | pyasm6502/package/directives.py:263-265 | the run of identifier and decimal tokens is maximal |
| Directives.CpuType | pyasm6502/package/directives.py:257-273 | the CPU type exists exactly when the first operand token is an identifier or decimal number; otherwise "Expected CPU type" |
| Directives.SplitCpuName | pyasm6502/package/directives.py:260-269 | `!cpu 65c02`, tokenized as `65` and `c02`, selects the 65C02 table |
| Directives.DebugOutcome | pyasm6502/package/directives.py:343-353 | `!serious` always fails, `!warn` and `!error` succeed exactly with a string argument, and the symbol list always succeeds |
| Directives.DataDirectiveFormats | pyasm6502/package/directives.py:151-170 | each data directive has its size and byte order |
| Directives.DataSizesInRange | pyasm6502/package/directives.py:151-170 | every data kind has a size from 1 to 4 |
| Directives.EmitValues | pyasm6502/package/directives.py:177-178 | each value is emitted in order, and nothing else changes |
| Directives.EmitRepeated | pyasm6502/package/directives.py:219-226 | the value is emitted `count` times, and nothing else changes |
| Directives.ProcessDataItem | pyasm6502/package/directives.py:19-68 | one item is emitted as the specification says and the scan moves past it and its comma; on error nothing is emitted |
| Directives.ProcessDataDirective | pyasm6502/package/directives.py:16-68 | the emitter state and the outcome follow DataItems |
| Directives.EmitHexPairs | pyasm6502/package/directives.py:83-89 | the decoded bytes are emitted and the outcome is the decoding's |
| Directives.ProcessHexDirective | pyasm6502/package/directives.py:70-98 | the emitter state and the outcome follow HexItems |
| Directives.ProcessAlignDirective | pyasm6502/package/directives.py:100-125 | the emitter state and the outcome follow AlignItems |
| Directives.ProcessFillDirective | pyasm6502/package/directives.py:219-226 | the emitter state and the outcome follow FillItems |
| Directives.ProcessSkipDirective | pyasm6502/package/directives.py:232-236 | the emitter state and the outcome follow SkipItems |
| Directives.ProcessOrgDirective | pyasm6502/package/directives.py:376-382 | the emitter state and the outcome follow OrgItems |
| Directives.ProcessDsDirective | pyasm6502/package/directives.py:388-395 | the emitter state and the outcome follow DsItems |
| Directives.ProcessTextDirective | pyasm6502/package/directives.py:172-206 | the string is converted with the named table and emitted |
| Directives.ProcessScrxorDirective | pyasm6502/package/directives.py:208-217 | the emitter state and the outcome follow ScrxorItems with the screen-code table |
| Directives.ProcessConvtabDirective | pyasm6502/package/directives.py:188-198 | a table argument is selected exactly when it is `raw`, `pet`, `scr` or a loaded table, else "Unknown conversion table"; without one nothing changes |
| Directives.ProcessToDirective | pyasm6502/package/directives.py:133-149 | filename, format and outcome follow ToSettings; nothing else changes |
| Directives.ProcessZoneDirective | pyasm6502/package/directives.py:242-250 | a zone named by the identifier or unquoted string, or unnamed, is created; nothing else changes |
| Directives.ProcessCpuDirective | pyasm6502/package/directives.py:257-273 | the CPU type becomes the joined run and the table follows it, or the directive fails and both are kept |
| Directives.ProcessEmittingDirective | pyasm6502/package/directives.py:151-240 | the emitting branches' state and outcome follow EmitEffect |
| Directives.ProcessConditionalDirective | pyasm6502/package/directives.py:276-292 | each conditional directive follows its transition; the opening ones return the tokens they used, `!else` and `!fi` the rest of the line |
| Directives.ProcessLoopDirective | pyasm6502/package/directives.py:295-314 | each loop directive follows its loop-processor method (LoopEffect): `!set` stores; `!for`, `!while` and `!do` push; `!od` runs the innermost for-loop, or the innermost while-loop through WhileExec, popping it on success and keeping it on error; `!until` runs the innermost do-loop through DoExec, popping it and setting the variables on success and recording its condition on error; with nothing open, `!od` and `!until` fail |
| Directives.ProcessMacroDefinition | pyasm6502/package/directives.py:317-318 | a definition is stored, a brace-opened body starts collection, an error changes neither |
| Directives.ProcessSettingDirective | pyasm6502/package/directives.py:133-353 | each setting directive has its effect and outcome (SettingEffect): `!to` the file settings, `!convtab` the current table on success, `!zone`, `!cpu`, the segment directives as the segment manager's DirectiveEffect (pseudo-PC, init value and XOR mask), `!realpc` leaving the innermost pseudo-PC block, the debug directives, `!binary`, `!address` and `!source`; the PC, the memory, the collection and the loaded tables are kept, and only the segment directives change the emitter state |
| Directives.ResultOf | pyasm6502/package/directives.py:127-358 | success gives the count of tokens and failure its error |
| Directives.ProcessAcmeDirective | pyasm6502/package/directives.py:127-358 | an unknown lower-cased name fails with "Unknown ACME directive"; a conditional directive follows ConditionalEffect, a loop directive LoopEffect, a macro definition MacroDefinitionEffect, a setting directive SettingEffect and an emitting directive EmitEffect; every branch but the opening conditionals reports the rest of the line as consumed |
| Directives.AliasKind | pyasm6502/package/directives.py:364-374 | `.byte`/`.db`, `.word`/`.dw` and `.text` run `!byte`, `!word` and `!text` |
| Directives.ProcessDirective | pyasm6502/package/directives.py:360-401 | an unknown name fails; `.org` and `.ds` follow their specifications, `.equ` and `.end` do nothing, and the aliases run the ACME branch they name; the loop variables and loaded tables are kept (TraditionalEffect) |
| TextConv.PetTable | pyasm6502/package/text_conversion.py:29-45 | 256 entries, each the PETSCII-like code of its index |
| TextConv.ScreenTable | pyasm6502/package/text_conversion.py:51-66 | 256 entries, each the screen code of its index |
| TextConv.PetTableGroups | pyasm6502/package/text_conversion.py:29-45 | upper-case letters go to 1-26, lower-case to 65-90, `@` to 0, `[\]^_` to 27-31, every other code is kept |
| TextConv.ScreenTableGroups | pyasm6502/package/text_conversion.py:51-66 | both cases of a letter go to the same code in 1-26, digits to 16-25, every other code is kept |
| TextConv.Convert | pyasm6502/package/text_conversion.py:101-110 | one value per character; without a table, and for codes beyond it, the character code |
| TextConv.OtherNamesAreRaw | pyasm6502/package/text_conversion.py:87-99 | any table name other than `pet` and `scr` gives the character codes |
| TextConv.XorByte | pyasm6502/package/text_conversion.py:112-115 | each value is a byte |
| TextConv.XorByteIsXor | pyasm6502/package/text_conversion.py:112-115 | for a byte and a byte mask the value is their XOR |
| TextConv.XorByteRoundTrip | pyasm6502/package/text_conversion.py:112-115 | applying the same byte mask twice gives the byte back |
| TextConv.XorBytes | pyasm6502/package/text_conversion.py:112-115 | one byte per converted value |
| TextConv.XorBytesRoundTrip | pyasm6502/package/text_conversion.py:112-115 | applying the same byte mask twice gives the byte values back |
| TextConv.CustomTablesAreNotApplied | pyasm6502/package/text_conversion.py:87-127 | a table loaded under a custom name is not applied: conversion under that name gives the character codes |
| TextConv.TextConverter.constructor | pyasm6502/package/text_conversion.py:9-23 | the current table is `raw` and the stored tables are exactly the PETSCII-like and screen-code tables |
| TextConv.TextConverter.BuildPetTable | pyasm6502/package/text_conversion.py:29-45 | the table built in place is PetTable |
| TextConv.TextConverter.BuildScreenTable | pyasm6502/package/text_conversion.py:51-66 | the table built in place is ScreenTable |
| TextConv.TextConverter.SetConversionTable | pyasm6502/package/text_conversion.py:70-79 | succeeds exactly for `raw`, `pet`, `scr` or a stored table, which then becomes current; otherwise nothing changes |
| TextConv.TextConverter.ConvertString | pyasm6502/package/text_conversion.py:85-110 | the result is Convert with the table of the non-empty override or else the current table |
| TextConv.TextConverter.ConvertStringWithXor | pyasm6502/package/text_conversion.py:112-115 | the converted values, each XORed with the mask and cut to a byte |
| TextConv.TextConverter.LoadCustomTable | pyasm6502/package/text_conversion.py:117-127 | stores the table under the name exactly when it is a list of 256 entries; the current table is kept |
| Assembly.GateFacts | pyasm6502/assembler.py:535-567 | a line is skipped exactly when it has tokens, the condition is false and it is neither a conditional directive nor `}`; those lines reach collection or the scan; while collecting every unskipped line goes to the macro body |
| Assembly.Step | pyasm6502/assembler.py:571-680 | an assignment starts at an identifier and its value starts two to four tokens on |
| Assembly.AssignForms | pyasm6502/assembler.py:595-626 | an assignment is `name = expr`, `name + N = expr` or `name .equ expr`, and its value starts after the `=` or `.equ` |
| Assembly.ProcessFixedStep | pyasm6502/assembler.py:584-677 | `*` without `=`, `.equ` without a value, `!source`, a macro call and an unexpected token each end the line with their outcome |
| Assembly.ProcessValueStep | pyasm6502/assembler.py:582-623 | the expression is evaluated on the state before the step; an error keeps the PC and the symbols; `*=` sets the PC; an assignment defines the symbol or fails as Define says; the line ends and the output, settings and collection are kept (ValueStepEffect) |
| Assembly.ProcessStep | pyasm6502/assembler.py:567-680 | `}` closes a block as CloseBrace says; a label is defined at the PC; `*=` and the assignments follow ValueStepEffect; an ACME directive follows AcmeEffect and the scan continues after the tokens it reports; a traditional directive follows TraditionalEffect and ends the line; an instruction's bytes are emitted as Encode says; a continuing step stops only on an error; the steps that end the line without state change nothing |
| Assembly.ScanStep | pyasm6502/assembler.py:571-680 | a continuing step moves forward, and calls, includes and unexpected tokens end the line with their outcome |
| Assembly.ProcessTokens | pyasm6502/assembler.py:567-680 | the tokens where steps began rise from 0; all steps but the last continue; the outcome is the last step's if it stopped and Done if the scan ran past the end; a continuing step that stops makes the line fail; a macro call or `!source` outcome comes only from such a step |
| Assembly.ProcessLine | pyasm6502/assembler.py:535-680 | an empty or skipped line changes nothing; a collected line follows CollectsLine and changes neither memory nor symbols nor conditionals; a bare label is defined at the PC; a scanned line starting with a macro call or `!source` is handed back with the rest of its tokens |
| Assembly.RunPass | pyasm6502/assembler.py:689-740 | a pass that succeeds leaves no open conditional; with no lines the PC is 0, the symbols are reset for the pass and the second pass starts with empty output |
| Assembly.Assemble | pyasm6502/assembler.py:681-742 | a success returns the output bytes of the memory in the selected format with no open conditional; no lines give no bytes |

## Left out

- **Command line, files, listing, debug output.** The command-line front
  end, file reading and writing, listing text, and the debug system's
  printing and exports are I/O. `!warn`, `!error`, `!serious` and
  `!symbollist` are modelled only as their success or failure outcome.
- **`!binary`.** It reads a file, so it returns a `NotModelled` failure.
- **`!source` and macro calls.** Re-dispatching lines through
  `process_line` recursively (`expand_and_process_macro`,
  `process_included_lines`) is not modelled. A line that includes a file
  or calls a macro reports that as a line outcome. `Assemble` treats
  either outcome as a `NotModelled` failure. Macro expansion itself is
  modelled in `Macros`.
- **Operand spacing for macro calls.** The reconstruction of operand
  spacing for macro calls (assembler.py:644-671) is not modelled.
- **Floating point.** Float literals, float division and powers with a
  negative exponent, the trigonometric and conversion functions, `len` and
  the `is_*` functions give a `NotModelled` or invalid-arguments error
  instead of a value.
- **Regular expressions.** The renaming done by `_substitute_parameters`
  is stated as character-level rewrites on ASCII text instead. Python's
  Unicode character classes (`isalpha`, `isdigit`, `\w`) are modelled by
  their ASCII subset.
- **Shared tables when CPU tables merge.** `_update_instructions` mutates
  the base tables' inner dictionaries when it merges. The model merges
  CPU tables as a pure map union, so that shared mutation is not captured.
- **Error reporting.** The line numbers and file names attached to an
  `AssemblerError` are not modelled. An error is its message kind only.
- **Loop bodies.** A loop body is an abstract action on the loop
  variables. Restoring `current_line` after a body, and the body lines
  themselves, are not modelled.
- **`load_custom_table` with a file path.** This argument is rejected, as
  in the source. Reading the file is not modelled.
- **`get_memory_usage_info`.** This is diagnostics and is not modelled.
- **The file manager's reset.** It is part of the file-system layer, which
  is not part of this model, so it is left out of the pass reset.
