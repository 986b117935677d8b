/** Failure-compatible result types and the assembler's error taxonomy.
    Every `AssemblerError` raised by the core, and every Python exception the
    core lets escape (ZeroDivisionError, ValueError, RecursionError, ...),
    becomes an `Err` carrying one of the `Error` values below. */
module Wrappers {

  datatype Option<T> = None | Some(value: T)

  datatype Result<T> = Ok(value: T) | Err(error: Error) {
    predicate IsFailure() { Err? }
    function PropagateFailure<U>(): Result<U>
      requires Err?
    {
      Err(error)
    }
    function Extract(): T
      requires Ok?
    {
      value
    }
  }

  /** A result without a value: the source's methods that return None. */
  datatype Outcome = Pass | Fail(error: Error) {
    predicate IsFailure() { Fail? }
    function PropagateFailure(): Outcome
      requires Fail?
    {
      this
    }
  }

  datatype Error =
    // evaluator
    | ExpectedExpression
    | MissingClosingParen
    | InvalidExpression(text: string)
    | UnknownFunction(name: string)
    | ExpectedParenAfterFunction(name: string)
    | FunctionArgumentIndex           // IndexError: nothing after `f(`
    | ExpectedCommaOrParen
    | WrongArgumentCount(name: string)
    | InvalidArguments(name: string)   // a TypeError inside a built-in function
    | NoLength                         // len() of a number raises ValueError
    | InvalidNumber(text: string)
    | CharConstantTooLong(text: string)
    | DivisionByZero                   // Python ZeroDivisionError
    | NegativeShiftCount               // Python ValueError from `<<`/`>>`
    | Recursion                        // Python RecursionError
    | NotModelled(what: string)        // floating-point results
    // symbols
    | UndefinedAnonForward(name: string)
    | UndefinedAnonBackward(name: string)
    | UndefinedCheapLocal(name: string)
    | UndefinedLocal(name: string)
    | UndefinedSymbol(name: string)
    | SymbolAlreadyDefined(name: string)
    // instruction encoder
    | UnknownInstruction(mnemonic: string)
    | InvalidAddressingMode(mnemonic: string)
    | BranchTooFar(offset: int)
    | ExpectedValueAfterHash
    | ExpectedParenAfterX
    | InvalidIndirect
    | ExpectedTwoOperands(mnemonic: string)
    | InvalidIndexRegister(reg: string)
    // conditionals
    | IfRequiresCondition
    | IfdefRequiresSymbol
    | IfndefRequiresSymbol
    | ElseWithoutIf
    | ElseInBraceBlock
    | MultipleElse
    | FiWithoutIf
    | FiClosesBraceBlock
    | UnexpectedRBrace
    | UnclosedConditional(startLine: int)
    // macros
    | MacroRequiresName
    | InvalidMacroBraces
    | UndefinedMacro(name: string)
    | MacroDepthExceeded
    | MacroArity(name: string, expected: nat, got: nat)
    | MacroCallWithoutPlus
    | EmptyMacroCall
    | UnclosedMacro(line: int)
    // loops
    | SetRequiresName
    | SetRequiresEquals
    | ForRequiresName
    | ForInRequiresIterable
    | NotIterable(name: string)
    | ForInRequiresStringOrIdentifier
    | ForRequiresCommaAfterName
    | ForRequiresCommaAfterStart
    | WhileRequiresCondition
    | UntilWithoutDo
    | UntilRequiresCondition
    | WhileWithoutDo
    | OdWithoutLoop
    | LoopLimitExceeded
    // directives and segments
    | OddHexString
    | InvalidHexByte(pair: string)
    | AlignRequiresBoundary
    | AlignNotPowerOfTwo
    | UnknownAcmeDirective(name: string)
    | UnknownDirective(name: string)
    | ExpectedAddressAfterOrg
    | ExpectedCountAfterDs
    | UnknownOutputFormat(name: string)
    | ExpectedCpuType
    | UnknownConversionTable(name: string)
    | NoPseudopcToExit
    | PseudopcRequiresAddress
    | InitmemRequiresValue
    | XorRequiresValue
    // debug directives
    | WarnRequiresMessage
    | WarnRequiresString
    | ErrorRequiresMessage
    | SeriousRequiresMessage
    | SeriousError(message: string)
    // line processing
    | ExpectedAddressAfterStar
    | ExpectedValueAfterEqu
    | UnexpectedToken(value: string)
}
