/** The line tokenizer of pyasm6502/package/tokenizer.py.

    `Lex` is the specification: comment removal, stripping, then `LexFrom`,
    which applies one scanning step (`ScanAt`) per loop iteration. `Tokenize`
    is the source's loop, proved to produce exactly `Lex`. */
module Tokenizer {
  import opened Wrappers
  import opened Strings
  import opened Tokens

  // ---------------------------------------------------------------------
  // Comment removal and stripping (tokenizer.py:26-39)
  // ---------------------------------------------------------------------

  /** The earliest `;` or `//`, or -1 when the line has neither. */
  function CommentStart(line: string): (p: int)
    ensures -1 <= p <= |line|
    ensures p == -1 <==> (forall k :: 0 <= k <= |line| ==> !OccursAt(line, ";", k) && !OccursAt(line, "//", k))
    ensures p != -1 ==> (OccursAt(line, ";", p) || OccursAt(line, "//", p))
    ensures forall k :: 0 <= k < p ==> !OccursAt(line, ";", k) && !OccursAt(line, "//", k)
  {
    var semi := Find(line, ";");
    var slashes := Find(line, "//");
    if semi != -1 && slashes != -1 then (if semi < slashes then semi else slashes)
    else if slashes != -1 then slashes
    else semi
  }

  /** The line with its comment cut off. */
  function StripComment(line: string): (r: string)
    ensures r <= line
    ensures forall k :: 0 <= k <= |r| ==> !OccursAt(r, ";", k) && !OccursAt(r, "//", k)
    ensures |r| < |line| ==> OccursAt(line, ";", |r|) || OccursAt(line, "//", |r|)
  {
    var p := CommentStart(line);
    var r := if p != -1 then line[..p] else line;
    assert forall k :: 0 <= k <= |r| && OccursAt(r, ";", k) ==> OccursAt(line, ";", k) by {
      forall k | 0 <= k <= |r| && OccursAt(r, ";", k) ensures OccursAt(line, ";", k) {
        assert line[k..k + 1] == r[k..k + 1];
      }
    }
    assert forall k :: 0 <= k <= |r| && OccursAt(r, "//", k) ==> OccursAt(line, "//", k) by {
      forall k | 0 <= k <= |r| && OccursAt(r, "//", k) ensures OccursAt(line, "//", k) {
        assert line[k..k + 2] == r[k..k + 2];
      }
    }
    r
  }

  /** The text the scanning loop walks over. */
  function Prepare(line: string): string
  {
    Strip(StripComment(line))
  }

  // ---------------------------------------------------------------------
  // Character runs
  // ---------------------------------------------------------------------

  /** The character classes the inner scanning loops test. */
  datatype CharClass = Word | Hex | Bin | Dec | Oct | Digits | Same(c: char)

  predicate InClass(cl: CharClass, c: char)
  {
    match cl
    case Word => IsWordChar(c)
    case Hex => IsHexDigit(c)
    case Bin => c in "01.#"
    case Dec => IsDigit(c) || c == '.'
    case Oct => '0' <= c <= '7'
    case Digits => IsDigit(c)
    case Same(d) => c == d
  }

  /** Where a `while i < len(line) and <class>(line[i])` loop stops. */
  function Span(s: string, i: nat, cl: CharClass): (j: nat)
    requires i <= |s|
    ensures i <= j <= |s|
    ensures forall k :: i <= k < j ==> InClass(cl, s[k])
    ensures j < |s| ==> !InClass(cl, s[j])
    decreases |s| - i
  {
    if i < |s| && InClass(cl, s[i]) then Span(s, i + 1, cl) else i
  }

  /** Where the quoted-literal loop stops: at the closing quote or the end,
      a backslash skipping the character after it. */
  function QuoteEnd(s: string, j: nat, q: char): (r: nat)
    requires j <= |s|
    ensures j <= r <= |s|
    ensures r < |s| ==> s[r] == q
    decreases |s| - j
  {
    if j == |s| || s[j] == q then j
    else if s[j] == '\\' then QuoteEnd(s, if j + 1 < |s| then j + 2 else j + 1, q)
    else QuoteEnd(s, j + 1, q)
  }

  // ---------------------------------------------------------------------
  // One scanning step
  // ---------------------------------------------------------------------

  /** The outcome of one loop iteration: the token appended (none for
      whitespace), the next index, and whether the iteration skipped the
      `prev_token_type` update (whitespace and the `+`/`-` operator
      `continue`). */
  datatype Step = Step(token: Option<Token>, next: nat, keepsPrev: bool)

  const DotDirectives: set<string> := {".byte", ".word", ".text", ".org", ".equ", ".ds", ".end"}

  predicate IsPlusMinusOperand(last: Option<Kind>)
  {
    last.Some? && last.value in {DecNumber, HexNumber, Identifier, RParen}
  }

  /** A step that appends one token and updates `prev_token_type`. */
  function One(k: Kind, v: string, ln: int, i: nat, next: nat): Step
  {
    Step(Some(Token(k, v, ln, i)), next, false)
  }

  /** A well-formed non-whitespace step at index `i`. */
  predicate Appends(st: Step, s: string, i: nat, ln: int)
  {
    i < st.next <= |s| && st.token.Some? && st.token.value.column == i && st.token.value.line == ln
  }

  /** The type and value of an identifier not followed by `:` or `(`. */
  function WordToken(id: string, last: Option<Kind>, mnemonics: set<string>): (Kind, string)
  {
    var up := Upper(id);
    if up in {"AND", "OR", "XOR"} && OperatorContext(last) then
      (if up == "AND" then And else if up == "OR" then Or else Xor, up)
    else if up in mnemonics then (Instruction, up)
    else if up == "NOT" then (Not, up)
    else if up == "AND" then (And, up)
    else if up == "OR" then (Or, up)
    else if up == "XOR" then (Xor, up)
    else if up == "DIV" then (Div, up)
    else if up == "MOD" then (Mod, up)
    else (Identifier, id)
  }

  /** A letter or `_` (tokenizer.py:52-90). */
  function WordAt(s: string, i: nat, last: Option<Kind>, mnemonics: set<string>, ln: int): (st: Step)
    requires i < |s| && (IsLetter(s[i]) || s[i] == '_')
    ensures Appends(st, s, i, ln) && !st.keepsPrev
  {
    var j := Span(s, i, Word);
    var id := s[i..j];
    if j < |s| && s[j] == ':' then One(Label, id, ln, i, j + 1)
    else if j < |s| && s[j] == '(' then One(Function, id, ln, i, j)
    else
      var (k, v) := WordToken(id, last, mnemonics);
      One(k, v, ln, i, j)
  }

  /** A digit or `$` (tokenizer.py:93-113). */
  function NumberAt(s: string, i: nat, ln: int): (st: Step)
    requires i < |s| && (IsDigit(s[i]) || s[i] == '$')
    ensures Appends(st, s, i, ln) && !st.keepsPrev
    ensures st.token.value.kind in {HexNumber, BinNumber, DecNumber}
  {
    var c := s[i];
    if c == '$' then
      var j := Span(s, i + 1, Hex);
      One(HexNumber, s[i..j], ln, i, j)
    else if c == '0' && i + 1 < |s| && s[i + 1] == 'x' then
      var j := Span(s, i + 2, Hex);
      One(HexNumber, s[i..j], ln, i, j)
    else if c == '0' && i + 1 < |s| && s[i + 1] == 'b' then
      var j := Span(s, i + 2, Bin);
      One(BinNumber, s[i..j], ln, i, j)
    else
      var j := Span(s, i, Dec);
      One(DecNumber, s[i..j], ln, i, j)
  }

  /** `%` (tokenizer.py:115-140). */
  function PercentAt(s: string, i: nat, prev: Option<Kind>, ln: int): (st: Step)
    requires i < |s| && s[i] == '%'
    ensures Appends(st, s, i, ln) && !st.keepsPrev
  {
    if i + 1 < |s| && InClass(Bin, s[i + 1]) && !OperatorContext(prev) then
      var j := Span(s, i + 1, Bin);
      if j == i + 1 then One(Modulo, "%", ln, i, j) else One(BinNumber, s[i..j], ln, i, j)
    else One(Modulo, "%", ln, i, i + 1)
  }

  /** A quoted string or character constant (tokenizer.py:143-158). */
  function QuotedAt(s: string, i: nat, ln: int): (st: Step)
    requires i < |s| && (s[i] == '"' || s[i] == '\'')
    ensures Appends(st, s, i, ln) && !st.keepsPrev
  {
    var e := QuoteEnd(s, i + 1, s[i]);
    var j := if e < |s| then e + 1 else e;
    One(if s[i] == '\'' then Char else String, s[i..j], ln, i, j)
  }

  /** `+` or `-`: macro call, operator, or anonymous label (tokenizer.py:163-202). */
  function SignAt(s: string, i: nat, last: Option<Kind>, ln: int): (st: Step)
    requires i < |s| && (s[i] == '+' || s[i] == '-')
    ensures Appends(st, s, i, ln)
    ensures st.keepsPrev ==> st.token.value.kind in {Plus, Minus}
  {
    var c := s[i];
    if c == '+' && i + 1 < |s| && IsLetter(s[i + 1]) then
      var j := Span(s, i + 1, Word);
      One(MacroCall, s[i..j], ln, i, j)
    else if IsPlusMinusOperand(last) || (i + 1 < |s| && s[i + 1] != c) then
      Step(Some(Token(if c == '+' then Plus else Minus, [c], ln, i)), i + 1, true)
    else
      var j := Span(s, i, Same(c));
      if j < |s| && s[j] == ':' then One(Label, s[i..j], ln, i, j + 1)
      else One(Identifier, s[i..j], ln, i, j)
  }

  /** `@`: a cheap local (tokenizer.py:203-214). */
  function CheapLocalAt(s: string, i: nat, ln: int): (st: Step)
    requires i < |s| && s[i] == '@'
    ensures Appends(st, s, i, ln) && !st.keepsPrev
  {
    var j := Span(s, i + 1, Word);
    if j < |s| && s[j] == ':' then One(Label, s[i..j], ln, i, j + 1)
    else One(Identifier, s[i..j], ln, i, j)
  }

  /** `!` (tokenizer.py:231-243). */
  function BangAt(s: string, i: nat, ln: int): (st: Step)
    requires i < |s| && s[i] == '!'
    ensures Appends(st, s, i, ln) && !st.keepsPrev
  {
    if i + 1 < |s| && s[i + 1] == '=' then One(NotEqual, "!=", ln, i, i + 2)
    else if i + 1 < |s| && IsWordChar(s[i + 1]) then
      var j := Span(s, i + 1, Word);
      One(AcmeDirective, s[i..j], ln, i, j)
    else One(Not, "!", ln, i, i + 1)
  }

  /** `&` (tokenizer.py:273-298). */
  function AmpersandAt(s: string, i: nat, prev: Option<Kind>, ln: int): (st: Step)
    requires i < |s| && s[i] == '&'
    ensures Appends(st, s, i, ln) && !st.keepsPrev
  {
    if i + 1 < |s| && InClass(Oct, s[i + 1]) && !OperatorContext(prev) then
      var j := Span(s, i + 1, Oct);
      if j == i + 1 then One(And, "&", ln, i, j) else One(OctNumber, s[i..j], ln, i, j)
    else One(And, "&", ln, i, i + 1)
  }

  /** `.` (tokenizer.py:324-347). */
  function DotAt(s: string, i: nat, ln: int): (st: Step)
    requires i < |s| && s[i] == '.'
    ensures Appends(st, s, i, ln) && !st.keepsPrev
  {
    if i + 1 < |s| && IsDigit(s[i + 1]) then
      var j := Span(s, i + 1, Digits);
      One(DecNumber, s[i..j], ln, i, j)
    else if i + 1 < |s| && (IsLetter(s[i + 1]) || s[i + 1] == '_') then
      var j := Span(s, i + 1, Word);
      var id := s[i..j];
      if j < |s| && s[j] == ':' then One(Label, id, ln, i, j + 1)
      else if Lower(id) in DotDirectives then One(Directive, id, ln, i, j)
      else One(Identifier, id, ln, i, j)
    else One(Dot, ".", ln, i, i + 1)
  }

  /** The operators and punctuation that need no inner loop
      (tokenizer.py:217-230, 244-272, 299-323, 348-357). */
  function PunctAt(s: string, i: nat, ln: int): (st: Step)
    requires i < |s|
    ensures Appends(st, s, i, ln) && !st.keepsPrev
  {
    var c := s[i];
    var d := if i + 1 < |s| then s[i + 1] else ' ';
    if c == '*' then
      if d == '*' then One(Power, "**", ln, i, i + 2) else One(Star, "*", ln, i, i + 1)
    else if c == '=' then
      if d == '=' then One(EqualEqual, "==", ln, i, i + 2) else One(Equals, "=", ln, i, i + 1)
    else if c == '<' then
      if d == '<' then One(LeftShift, "<<", ln, i, i + 2)
      else if d == '=' then One(LessEqual, "<=", ln, i, i + 2)
      else if d == '>' then One(NotEqual, "<>", ln, i, i + 2)
      else One(LessThan, "<", ln, i, i + 1)
    else if c == '>' then
      if i + 2 < |s| && s[i + 1] == '>' && s[i + 2] == '>' then One(LogicalRightShift, ">>>", ln, i, i + 3)
      else if d == '>' then One(RightShift, ">>", ln, i, i + 2)
      else if d == '=' then One(GreaterEqual, ">=", ln, i, i + 2)
      else One(GreaterThan, ">", ln, i, i + 1)
    else if c == '^' then One(Caret, "^", ln, i, i + 1)
    else if c == '#' then One(Immediate, "#", ln, i, i + 1)
    else if c == ',' then One(Comma, ",", ln, i, i + 1)
    else if c == '(' then One(LParen, "(", ln, i, i + 1)
    else if c == ')' then One(RParen, ")", ln, i, i + 1)
    else if c == '/' then One(Divide, "/", ln, i, i + 1)
    else if c == '|' then One(Or, "|", ln, i, i + 1)
    else if c == '{' then One(LBrace, "{", ln, i, i + 1)
    else if c == '}' then One(RBrace, "}", ln, i, i + 1)
    else One(Unknown, [c], ln, i, i + 1)
  }

  /** The iteration of the scanning loop at index `i` (tokenizer.py:43-360).
      `prev` is `prev_token_type`, `last` the type of `tokens[-1]`. */
  function ScanAt(s: string, i: nat, prev: Option<Kind>, last: Option<Kind>,
                  mnemonics: set<string>, ln: int): (st: Step)
    requires i < |s|
    ensures i < st.next <= |s|
    ensures st.token.None? <==> IsSpace(s[i])
    ensures st.token.Some? ==> st.token.value.column == i && st.token.value.line == ln
    ensures st.keepsPrev ==> st.token.None? || st.token.value.kind in {Plus, Minus}
  {
    var c := s[i];
    if IsSpace(c) then Step(None, i + 1, true)
    else if IsLetter(c) || c == '_' then WordAt(s, i, last, mnemonics, ln)
    else if IsDigit(c) || c == '$' then NumberAt(s, i, ln)
    else if c == '%' then PercentAt(s, i, prev, ln)
    else if c == '"' || c == '\'' then QuotedAt(s, i, ln)
    else if c == '+' || c == '-' then SignAt(s, i, last, ln)
    else if c == '@' then CheapLocalAt(s, i, ln)
    else if c == '!' then BangAt(s, i, ln)
    else if c == '&' then AmpersandAt(s, i, prev, ln)
    else if c == '.' then DotAt(s, i, ln)
    else PunctAt(s, i, ln)
  }

  /** The tokens the loop appends from index `i` on. */
  function LexFrom(s: string, i: nat, prev: Option<Kind>, last: Option<Kind>,
                   mnemonics: set<string>, ln: int): seq<Token>
    requires i <= |s|
    decreases |s| - i
  {
    if i == |s| then []
    else
      var st := ScanAt(s, i, prev, last, mnemonics, ln);
      match st.token
      case None => LexFrom(s, st.next, prev, last, mnemonics, ln)
      case Some(t) =>
        [t] + LexFrom(s, st.next, if st.keepsPrev then prev else Some(t.kind), Some(t.kind), mnemonics, ln)
  }

  /** `tokenize(line, line_num, instructions)`, with the instruction table
      given by its set of mnemonics. */
  function Lex(line: string, ln: int, mnemonics: set<string>): seq<Token>
  {
    LexFrom(Prepare(line), 0, None, None, mnemonics, ln)
  }

  // ---------------------------------------------------------------------
  // The loops
  // ---------------------------------------------------------------------

  method SpanLoop(s: string, i: nat, cl: CharClass) returns (j: nat)
    requires i <= |s|
    ensures j == Span(s, i, cl)
  {
    j := i;
    while j < |s| && InClass(cl, s[j])
      invariant i <= j <= |s|
      invariant Span(s, j, cl) == Span(s, i, cl)
      decreases |s| - j
    {
      j := j + 1;
    }
  }

  method QuoteLoop(s: string, i: nat, q: char) returns (j: nat)
    requires i <= |s|
    ensures j == QuoteEnd(s, i, q)
  {
    j := i;
    while j < |s| && s[j] != q
      invariant i <= j <= |s|
      invariant QuoteEnd(s, j, q) == QuoteEnd(s, i, q)
      decreases |s| - j
    {
      if s[j] == '\\' {
        j := if j + 1 < |s| then j + 2 else j + 1;
      } else {
        j := j + 1;
      }
    }
  }

  method ScanWord(s: string, i: nat, last: Option<Kind>, mnemonics: set<string>, ln: int) returns (st: Step)
    requires i < |s| && (IsLetter(s[i]) || s[i] == '_')
    ensures st == WordAt(s, i, last, mnemonics, ln)
  {
    var j := SpanLoop(s, i, Word);
    var id := s[i..j];
    if j < |s| && s[j] == ':' {
      st := One(Label, id, ln, i, j + 1);
    } else if j < |s| && s[j] == '(' {
      st := One(Function, id, ln, i, j);
    } else {
      var (k, v) := WordToken(id, last, mnemonics);
      st := One(k, v, ln, i, j);
    }
  }

  method ScanNumber(s: string, i: nat, ln: int) returns (st: Step)
    requires i < |s| && (IsDigit(s[i]) || s[i] == '$')
    ensures st == NumberAt(s, i, ln)
  {
    var j;
    if s[i] == '$' {
      j := SpanLoop(s, i + 1, Hex);
      st := One(HexNumber, s[i..j], ln, i, j);
    } else if s[i] == '0' && i + 1 < |s| && s[i + 1] == 'x' {
      j := SpanLoop(s, i + 2, Hex);
      st := One(HexNumber, s[i..j], ln, i, j);
    } else if s[i] == '0' && i + 1 < |s| && s[i + 1] == 'b' {
      j := SpanLoop(s, i + 2, Bin);
      st := One(BinNumber, s[i..j], ln, i, j);
    } else {
      j := SpanLoop(s, i, Dec);
      st := One(DecNumber, s[i..j], ln, i, j);
    }
  }

  method ScanPercent(s: string, i: nat, prev: Option<Kind>, ln: int) returns (st: Step)
    requires i < |s| && s[i] == '%'
    ensures st == PercentAt(s, i, prev, ln)
  {
    if i + 1 < |s| && InClass(Bin, s[i + 1]) && !OperatorContext(prev) {
      var j := SpanLoop(s, i + 1, Bin);
      st := if j == i + 1 then One(Modulo, "%", ln, i, j) else One(BinNumber, s[i..j], ln, i, j);
    } else {
      st := One(Modulo, "%", ln, i, i + 1);
    }
  }

  method ScanQuoted(s: string, i: nat, ln: int) returns (st: Step)
    requires i < |s| && (s[i] == '"' || s[i] == '\'')
    ensures st == QuotedAt(s, i, ln)
  {
    var j := QuoteLoop(s, i + 1, s[i]);
    if j < |s| {
      j := j + 1;
    }
    st := One(if s[i] == '\'' then Char else String, s[i..j], ln, i, j);
  }

  method ScanSign(s: string, i: nat, last: Option<Kind>, ln: int) returns (st: Step)
    requires i < |s| && (s[i] == '+' || s[i] == '-')
    ensures st == SignAt(s, i, last, ln)
  {
    var c := s[i];
    if c == '+' && i + 1 < |s| && IsLetter(s[i + 1]) {
      var j := SpanLoop(s, i + 1, Word);
      st := One(MacroCall, s[i..j], ln, i, j);
    } else if IsPlusMinusOperand(last) || (i + 1 < |s| && s[i + 1] != c) {
      st := Step(Some(Token(if c == '+' then Plus else Minus, [c], ln, i)), i + 1, true);
    } else {
      var j := SpanLoop(s, i, Same(c));
      st := if j < |s| && s[j] == ':' then One(Label, s[i..j], ln, i, j + 1) else One(Identifier, s[i..j], ln, i, j);
    }
  }

  method ScanCheapLocal(s: string, i: nat, ln: int) returns (st: Step)
    requires i < |s| && s[i] == '@'
    ensures st == CheapLocalAt(s, i, ln)
  {
    var j := SpanLoop(s, i + 1, Word);
    st := if j < |s| && s[j] == ':' then One(Label, s[i..j], ln, i, j + 1) else One(Identifier, s[i..j], ln, i, j);
  }

  method ScanBang(s: string, i: nat, ln: int) returns (st: Step)
    requires i < |s| && s[i] == '!'
    ensures st == BangAt(s, i, ln)
  {
    if i + 1 < |s| && s[i + 1] == '=' {
      st := One(NotEqual, "!=", ln, i, i + 2);
    } else if i + 1 < |s| && IsWordChar(s[i + 1]) {
      var j := SpanLoop(s, i + 1, Word);
      st := One(AcmeDirective, s[i..j], ln, i, j);
    } else {
      st := One(Not, "!", ln, i, i + 1);
    }
  }

  method ScanAmpersand(s: string, i: nat, prev: Option<Kind>, ln: int) returns (st: Step)
    requires i < |s| && s[i] == '&'
    ensures st == AmpersandAt(s, i, prev, ln)
  {
    if i + 1 < |s| && InClass(Oct, s[i + 1]) && !OperatorContext(prev) {
      var j := SpanLoop(s, i + 1, Oct);
      st := if j == i + 1 then One(And, "&", ln, i, j) else One(OctNumber, s[i..j], ln, i, j);
    } else {
      st := One(And, "&", ln, i, i + 1);
    }
  }

  method ScanDot(s: string, i: nat, ln: int) returns (st: Step)
    requires i < |s| && s[i] == '.'
    ensures st == DotAt(s, i, ln)
  {
    if i + 1 < |s| && IsDigit(s[i + 1]) {
      var j := SpanLoop(s, i + 1, Digits);
      st := One(DecNumber, s[i..j], ln, i, j);
    } else if i + 1 < |s| && (IsLetter(s[i + 1]) || s[i + 1] == '_') {
      var j := SpanLoop(s, i + 1, Word);
      var id := s[i..j];
      if j < |s| && s[j] == ':' {
        st := One(Label, id, ln, i, j + 1);
      } else if Lower(id) in DotDirectives {
        st := One(Directive, id, ln, i, j);
      } else {
        st := One(Identifier, id, ln, i, j);
      }
    } else {
      st := One(Dot, ".", ln, i, i + 1);
    }
  }

  /** One iteration of the scanning loop, with its inner loops. */
  method ScanStep(s: string, i: nat, prev: Option<Kind>, last: Option<Kind>,
                  mnemonics: set<string>, ln: int) returns (st: Step)
    requires i < |s|
    ensures st == ScanAt(s, i, prev, last, mnemonics, ln)
  {
    var c := s[i];
    if IsSpace(c) {
      st := Step(None, i + 1, true);
    } else if IsLetter(c) || c == '_' {
      st := ScanWord(s, i, last, mnemonics, ln);
    } else if IsDigit(c) || c == '$' {
      st := ScanNumber(s, i, ln);
    } else if c == '%' {
      st := ScanPercent(s, i, prev, ln);
    } else if c == '"' || c == '\'' {
      st := ScanQuoted(s, i, ln);
    } else if c == '+' || c == '-' {
      st := ScanSign(s, i, last, ln);
    } else if c == '@' {
      st := ScanCheapLocal(s, i, ln);
    } else if c == '!' {
      st := ScanBang(s, i, ln);
    } else if c == '&' {
      st := ScanAmpersand(s, i, prev, ln);
    } else if c == '.' {
      st := ScanDot(s, i, ln);
    } else {
      st := PunctAt(s, i, ln);
    }
  }

  /** The token list and `prev_token_type` after a step. */
  function Appended(tokens: seq<Token>, st: Step): seq<Token>
  {
    if st.token.Some? then tokens + [st.token.value] else tokens
  }

  function PrevAfter(prev: Option<Kind>, st: Step): Option<Kind>
  {
    if st.token.Some? && !st.keepsPrev then Some(st.token.value.kind) else prev
  }

  /** One unfolding of `LexFrom`, as the loop sees it. */
  lemma LexFromStep(tokens: seq<Token>, s: string, i: nat, prev: Option<Kind>, mnemonics: set<string>, ln: int)
    requires i < |s|
    ensures var st := ScanAt(s, i, prev, LastKind(tokens), mnemonics, ln);
      tokens + LexFrom(s, i, prev, LastKind(tokens), mnemonics, ln) ==
        Appended(tokens, st) + LexFrom(s, st.next, PrevAfter(prev, st), LastKind(Appended(tokens, st)), mnemonics, ln)
  {
    var st := ScanAt(s, i, prev, LastKind(tokens), mnemonics, ln);
    if st.token.Some? {
      var t := st.token.value;
      assert LastKind(tokens + [t]) == Some(t.kind);
      assert tokens + ([t] + LexFrom(s, st.next, PrevAfter(prev, st), Some(t.kind), mnemonics, ln))
          == (tokens + [t]) + LexFrom(s, st.next, PrevAfter(prev, st), Some(t.kind), mnemonics, ln);
    }
  }

  /** The scanning loop of `tokenize`. */
  method Tokenize(line: string, ln: int, mnemonics: set<string>) returns (tokens: seq<Token>)
    ensures tokens == Lex(line, ln, mnemonics)
  {
    var s := Prepare(line);
    tokens := [];
    if s == [] {
      return;
    }
    var i: nat := 0;
    var prev: Option<Kind> := None;
    while i < |s|
      invariant i <= |s|
      invariant tokens + LexFrom(s, i, prev, LastKind(tokens), mnemonics, ln) == Lex(line, ln, mnemonics)
      decreases |s| - i
    {
      var st := ScanStep(s, i, prev, LastKind(tokens), mnemonics, ln);
      LexFromStep(tokens, s, i, prev, mnemonics, ln);
      tokens := Appended(tokens, st);
      prev := PrevAfter(prev, st);
      i := st.next;
    }
  }

  // ---------------------------------------------------------------------
  // Properties
  // ---------------------------------------------------------------------

  /** Every token carries line `ln` and a column in `[lo, hi)`, and the
      columns strictly increase. */
  predicate ColumnsIn(r: seq<Token>, lo: int, hi: int, ln: int)
  {
    (forall k :: 0 <= k < |r| ==> lo <= r[k].column < hi && r[k].line == ln) &&
    (forall a, b :: 0 <= a < b < |r| ==> r[a].column < r[b].column)
  }

  lemma ColumnsInCons(t: Token, rest: seq<Token>, lo: int, hi: int, ln: int)
    requires ColumnsIn(rest, lo, hi, ln) && t.column < lo <= hi && t.line == ln
    ensures ColumnsIn([t] + rest, t.column, hi, ln)
  {
    var r := [t] + rest;
    forall k | 0 < k < |r|
      ensures t.column <= r[k].column < hi && r[k].line == ln
    {
      assert r[k] == rest[k - 1];
    }
    forall a, b | 0 <= a < b < |r|
      ensures r[a].column < r[b].column
    {
      assert r[b] == rest[b - 1];
      if a > 0 {
        assert r[a] == rest[a - 1];
      }
    }
  }

  /** Tokens are listed left to right: columns are strictly increasing
      indices into the scanned text, and every token carries the line. */
  lemma {:induction false} ColumnsIncrease(s: string, i: nat, prev: Option<Kind>, last: Option<Kind>,
                                           mnemonics: set<string>, ln: int)
    requires i <= |s|
    ensures ColumnsIn(LexFrom(s, i, prev, last, mnemonics, ln), i, |s|, ln)
    decreases |s| - i
  {
    if i < |s| {
      var st := ScanAt(s, i, prev, last, mnemonics, ln);
      var prev' := PrevAfter(prev, st);
      var last' := if st.token.Some? then Some(st.token.value.kind) else last;
      ColumnsIncrease(s, st.next, prev', last', mnemonics, ln);
      var rest := LexFrom(s, st.next, prev', last', mnemonics, ln);
      if st.token.Some? {
        assert LexFrom(s, i, prev, last, mnemonics, ln) == [st.token.value] + rest;
        ColumnsInCons(st.token.value, rest, st.next, |s|, ln);
      } else {
        assert LexFrom(s, i, prev, last, mnemonics, ln) == rest;
      }
    }
  }

  /** At most one token per character. */
  lemma {:induction false} AtMostOneTokenPerChar(s: string, i: nat, prev: Option<Kind>, last: Option<Kind>,
                                                 mnemonics: set<string>, ln: int)
    requires i <= |s|
    ensures |LexFrom(s, i, prev, last, mnemonics, ln)| <= |s| - i
    decreases |s| - i
  {
    if i < |s| {
      var st := ScanAt(s, i, prev, last, mnemonics, ln);
      var last' := if st.token.Some? then Some(st.token.value.kind) else last;
      AtMostOneTokenPerChar(s, st.next, PrevAfter(prev, st), last', mnemonics, ln);
    }
  }

  /** An identifier followed by `:` is a LABEL without the colon; one followed
      by `(` is a FUNCTION and the parenthesis is scanned next. Both tests
      come before the instruction and keyword tests. */
  lemma LabelAndFunctionFirst(s: string, i: nat, prev: Option<Kind>, last: Option<Kind>,
                              mnemonics: set<string>, ln: int)
    requires i < |s| && (IsLetter(s[i]) || s[i] == '_')
    ensures var j := Span(s, i, Word); var st := ScanAt(s, i, prev, last, mnemonics, ln);
      (j < |s| && s[j] == ':' ==> st == One(Label, s[i..j], ln, i, j + 1)) &&
      (j < |s| && s[j] == '(' ==> st == One(Function, s[i..j], ln, i, j))
  {
  }

  /** `AND`/`OR`/`XOR` (in any letter case) become operators right after a
      value-class token; otherwise an instruction name wins over keywords. */
  lemma KeywordRules(id: string, last: Option<Kind>, mnemonics: set<string>)
    ensures var up := Upper(id); var (k, v) := WordToken(id, last, mnemonics);
      (up in {"AND", "OR", "XOR"} && OperatorContext(last) ==> k in {And, Or, Xor} && v == up) &&
      (!(up in {"AND", "OR", "XOR"} && OperatorContext(last)) && up in mnemonics ==> k == Instruction && v == up) &&
      (up !in mnemonics && up !in {"NOT", "AND", "OR", "XOR", "DIV", "MOD"} ==> k == Identifier && v == id)
  {
  }

  /** `%` starts a binary literal exactly when a binary digit follows and the
      previous token type is not value-class; otherwise it is MODULO. */
  lemma PercentRule(s: string, i: nat, prev: Option<Kind>, last: Option<Kind>, mnemonics: set<string>, ln: int)
    requires i < |s| && s[i] == '%'
    ensures var st := ScanAt(s, i, prev, last, mnemonics, ln);
      st.token.Some? && st.token.value.kind in {BinNumber, Modulo} &&
      (st.token.value.kind == BinNumber <==> (i + 1 < |s| && s[i + 1] in "01.#" && !OperatorContext(prev)))
  {
  }

  /** `&` starts an octal literal under the symmetric rule; otherwise it is AND. */
  lemma AmpersandRule(s: string, i: nat, prev: Option<Kind>, last: Option<Kind>, mnemonics: set<string>, ln: int)
    requires i < |s| && s[i] == '&'
    ensures var st := ScanAt(s, i, prev, last, mnemonics, ln);
      st.token.Some? && st.token.value.kind in {OctNumber, And} &&
      (st.token.value.kind == OctNumber <==> (i + 1 < |s| && '0' <= s[i + 1] <= '7' && !OperatorContext(prev)))
  {
  }

  /** `+letter` is a macro call; otherwise `+`/`-` is an operator after a
      DEC/HEX/IDENTIFIER/RPAREN token or before a different character;
      otherwise its whole run is an anonymous IDENTIFIER, or a LABEL before `:`. */
  lemma PlusMinusRules(s: string, i: nat, prev: Option<Kind>, last: Option<Kind>, mnemonics: set<string>, ln: int)
    requires i < |s| && (s[i] == '+' || s[i] == '-')
    ensures var st := ScanAt(s, i, prev, last, mnemonics, ln); var c := s[i];
      var macro := c == '+' && i + 1 < |s| && IsLetter(s[i + 1]);
      var op := IsPlusMinusOperand(last) || (i + 1 < |s| && s[i + 1] != c);
      var j := Span(s, i, Same(c));
      st.token.Some? &&
      (macro ==> st.token.value.kind == MacroCall) &&
      (!macro && op ==> st.token.value.kind in {Plus, Minus} && st.next == i + 1 && st.keepsPrev) &&
      (!macro && !op ==> (st.token.value.kind in {Identifier, Label} && !st.keepsPrev &&
                          st.token.value.value == s[i..j] && (forall k :: i <= k < j ==> s[k] == c) &&
                          (st.token.value.kind == Label <==> (j < |s| && s[j] == ':'))))
  {
  }

  /** Two- and three-character operators are matched greedily. */
  lemma GreedyOperators(s: string, i: nat, prev: Option<Kind>, last: Option<Kind>, mnemonics: set<string>, ln: int)
    requires i + 1 < |s| && s[i] in "*=<>"
    ensures var st := ScanAt(s, i, prev, last, mnemonics, ln); var c := s[i]; var d := s[i + 1];
      var k := st.token.value.kind;
      (c == '*' && d == '*' ==> k == Power && st.next == i + 2) &&
      (c == '=' && d == '=' ==> k == EqualEqual && st.next == i + 2) &&
      (c == '<' && d == '<' ==> k == LeftShift && st.next == i + 2) &&
      (c == '<' && d == '=' ==> k == LessEqual && st.next == i + 2) &&
      (c == '<' && d == '>' ==> k == NotEqual && st.next == i + 2) &&
      (c == '>' && d == '>' && i + 2 < |s| && s[i + 2] == '>' ==> k == LogicalRightShift && st.next == i + 3) &&
      (c == '>' && d == '>' && !(i + 2 < |s| && s[i + 2] == '>') ==> k == RightShift && st.next == i + 2) &&
      (c == '>' && d == '=' ==> k == GreaterEqual && st.next == i + 2)
  {
  }

  /** `!` followed by a word character is an ACME directive, `!=` is NOT_EQUAL,
      and any other `!` is NOT. */
  lemma BangRule(s: string, i: nat, prev: Option<Kind>, last: Option<Kind>, mnemonics: set<string>, ln: int)
    requires i < |s| && s[i] == '!'
    ensures var st := ScanAt(s, i, prev, last, mnemonics, ln); var t := st.token.value;
      (i + 1 < |s| && s[i + 1] == '=' ==> t.kind == NotEqual && st.next == i + 2) &&
      (i + 1 < |s| && IsWordChar(s[i + 1]) ==> t.kind == AcmeDirective && t.value == s[i..Span(s, i + 1, Word)]) &&
      (!(i + 1 < |s| && (IsWordChar(s[i + 1]) || s[i + 1] == '=')) ==> t.kind == Not && st.next == i + 1)
  {
  }

  /** `.digit` is a decimal literal, `.name` a LABEL before `:`, a DIRECTIVE
      for the seven traditional directives, else an IDENTIFIER; anything
      else after `.` gives DOT. */
  lemma DotRules(s: string, i: nat, prev: Option<Kind>, last: Option<Kind>, mnemonics: set<string>, ln: int)
    requires i < |s| && s[i] == '.'
    ensures var st := ScanAt(s, i, prev, last, mnemonics, ln); var t := st.token.value;
      var j := Span(s, i + 1, Word); var named := i + 1 < |s| && (IsLetter(s[i + 1]) || s[i + 1] == '_');
      (i + 1 < |s| && IsDigit(s[i + 1]) ==> t.kind == DecNumber) &&
      (named && j < |s| && s[j] == ':' ==> t == Token(Label, s[i..j], ln, i)) &&
      (named && !(j < |s| && s[j] == ':') && Lower(s[i..j]) in DotDirectives ==> t == Token(Directive, s[i..j], ln, i)) &&
      (named && !(j < |s| && s[j] == ':') && Lower(s[i..j]) !in DotDirectives ==> t == Token(Identifier, s[i..j], ln, i)) &&
      (!(i + 1 < |s| && IsWordChar(s[i + 1])) ==> t.kind == Dot && st.next == i + 1)
  {
  }
}
