/** The macro system of pyasm6502/package/macros.py: `!macro` definitions,
    `+name args` calls, argument substitution and the renaming that makes
    `.local` and `@cheap` labels unique per expansion. The regular
    expressions of the substitution are written out as left-to-right scans
    over the characters of the line. */
module Macros {
  import opened Wrappers
  import opened Strings
  import opened Tokens
  import opened Numbers

  /** `max_macro_depth` (macros.py:29). */
  const MaxMacroDepth: nat := 32

  /** `Macro` (macros.py:14-21). */
  datatype Macro = Macro(name: string, parameters: seq<string>, bodyLines: seq<string>, startLine: int)

  /** What a `!macro` line asks for: a finished definition, or the start of
      a multi-line body that the assembler goes on to collect. */
  datatype MacroAction = Defined(m: Macro) | BeginCollection(name: string, parameters: seq<string>)

  // ---- the !macro line ----

  /** A parameter name with its `~` or `@` marker removed (macros.py:70-75). */
  function ParamName(v: string): string
  {
    if |v| > 0 && (v[0] == '~' || v[0] == '@') then v[1..] else v
  }

  /** The parameter list: identifiers up to the first `{`, each optionally
      followed by a comma (macros.py:64-85). */
  function Params(t: seq<Token>, k: nat): seq<string>
    decreases |t| - k
  {
    if k >= |t| || t[k].value == "{" then []
    else if t[k].kind == Identifier then
      [ParamName(t[k].value)] + Params(t, if k + 1 < |t| && t[k + 1].value == "," then k + 2 else k + 1)
    else Params(t, k + 1)
  }

  function Values(t: seq<Token>): (r: seq<string>)
    ensures |r| == |t| && forall k :: 0 <= k < |t| ==> r[k] == t[k].value
  {
    seq(|t|, k requires 0 <= k < |t| => t[k].value)
  }

  /** The line rebuilt from its tokens (macros.py:61). */
  function LineText(t: seq<Token>): string
  {
    Join(Values(t), " ")
  }

  /** `process_macro_directive` (macros.py:45-107). */
  function MacroDirective(t: seq<Token>, start: nat, line: int): (r: Result<MacroAction>)
    ensures r.Err? ==> r.error in {MacroRequiresName, InvalidMacroBraces}
    ensures r.Ok? ==> start < |t| && t[start].kind == Identifier
    ensures r.Ok? && r.value.Defined? ==>
      r.value.m.name == t[start].value && r.value.m.parameters == Params(t, start + 1) &&
      r.value.m.startLine == line && |r.value.m.bodyLines| <= 1
    ensures r.Ok? && r.value.BeginCollection? ==>
      r.value.name == t[start].value && r.value.parameters == Params(t, start + 1)
  {
    if start >= |t| || t[start].kind != Identifier then Err(MacroRequiresName)
    else
      var name := t[start].value;
      var params := Params(t, start + 1);
      var text := LineText(t);
      if '{' in text then
        var bs := IndexOf(text, '{');
        var be := RFind(text, '}');
        if be != -1 && be > bs then
          var content := Strip(text[bs + 1..be]);
          Ok(Defined(Macro(name, params, if content != "" then [content] else [], line)))
        else if be == -1 then Ok(BeginCollection(name, params))
        else Err(InvalidMacroBraces)
      else Ok(Defined(Macro(name, params, [], line)))
  }

  /** The three forms of a `!macro` line: braces on one line define a
      one-line body, an opening brace alone starts collection, and no brace
      defines an empty body. */
  lemma MacroDirectiveForms(t: seq<Token>, start: nat, line: int)
    requires start < |t| && t[start].kind == Identifier
    ensures var text := LineText(t);
      var r := MacroDirective(t, start, line);
      ('{' !in text ==> r == Ok(Defined(Macro(t[start].value, Params(t, start + 1), [], line)))) &&
      ('{' in text && '}' !in text ==> r == Ok(BeginCollection(t[start].value, Params(t, start + 1)))) &&
      ('{' in text && '}' in text && IndexOf(text, '{') < RFind(text, '}') ==>
         r.Ok? && r.value.Defined? &&
         r.value.m.bodyLines == (var c := Strip(text[IndexOf(text, '{') + 1..RFind(text, '}')]); if c != "" then [c] else []))
  {
  }

  // ---- argument binding and protection ----

  type Bindings = seq<(string, string)>

  function Keys(b: Bindings): (r: seq<string>)
    ensures |r| == |b| && forall k :: 0 <= k < |b| ==> r[k] == b[k].0
  {
    seq(|b|, k requires 0 <= k < |b| => b[k].0)
  }

  /** Python `d[name] = value` on an insertion-ordered dictionary. */
  function Bind(b: Bindings, name: string, value: string): (r: Bindings)
    ensures name in Keys(b) ==> |r| == |b|
    ensures name !in Keys(b) ==> r == b + [(name, value)]
  {
    if b == [] then [(name, value)]
    else if b[0].0 == name then [(name, value)] + b[1..]
    else [b[0]] + Bind(b[1..], name, value)
  }

  /** The parameter map of `expand_macro` (macros.py:130-132). */
  function ParamMap(params: seq<string>, args: seq<string>): Bindings
    requires |params| == |args|
  {
    if params == [] then []
    else Bind(ParamMap(params[..|params| - 1], args[..|args| - 1]), params[|params| - 1], args[|args| - 1])
  }

  /** The parameters paired with the arguments, position by position. */
  function Pairs(params: seq<string>, args: seq<string>): (r: Bindings)
    requires |params| == |args|
    ensures |r| == |params| && forall k :: 0 <= k < |r| ==> r[k] == (params[k], args[k])
  {
    seq(|params|, k requires 0 <= k < |params| => (params[k], args[k]))
  }

  /** With distinct parameter names, the `k`-th parameter is bound to the
      `k`-th argument, in order. */
  lemma {:induction false} ParamMapPairs(params: seq<string>, args: seq<string>)
    requires |params| == |args|
    requires forall i, j :: 0 <= i < j < |params| ==> params[i] != params[j]
    ensures ParamMap(params, args) == Pairs(params, args)
  {
    if params != [] {
      var n := |params|;
      var p, a := params[..n - 1], args[..n - 1];
      forall i, j | 0 <= i < j < |p|
        ensures p[i] != p[j]
      {
        assert p[i] == params[i] && p[j] == params[j];
      }
      ParamMapPairs(p, a);
      LastIsNewKey(params, args);
      assert Pairs(params, args) == Pairs(p, a) + [(params[n - 1], args[n - 1])];
    }
  }

  /** The last of distinct parameter names is not among the keys of the
      pairs before it. */
  lemma LastIsNewKey(params: seq<string>, args: seq<string>)
    requires |params| == |args| && params != []
    requires forall i, j :: 0 <= i < j < |params| ==> params[i] != params[j]
    ensures params[|params| - 1] !in Keys(Pairs(params[..|params| - 1], args[..|args| - 1]))
  {
    var n := |params|;
    var p, a := params[..n - 1], args[..n - 1];
    assert Keys(Pairs(p, a)) == p;
    forall i | 0 <= i < |p|
      ensures p[i] != params[n - 1]
    {
      assert p[i] == params[i];
    }
  }

  /** The characters `_protect_parameter_value` looks for (macros.py:215). */
  predicate IsOperatorChar(c: char)
  {
    c in "!<>=+-*/&|^%"
  }

  predicate HasOperator(s: string)
  {
    exists k | 0 <= k < |s| :: IsOperatorChar(s[k])
  }

  /** `_protect_parameter_value` (macros.py:206-222). */
  function Protect(v: string): string
  {
    if HasOperator(Strip(v)) then "(" + v + ")" else v
  }

  lemma OperatorIsNotSpace(c: char)
    requires IsOperatorChar(c)
    ensures !IsSpace(c)
  {
  }

  /** An argument is wrapped in parentheses exactly when it contains an
      operator character, and is otherwise used as it is. */
  lemma ProtectWrapsOperators(v: string)
    ensures HasOperator(v) ==> Protect(v) == "(" + v + ")"
    ensures !HasOperator(v) ==> Protect(v) == v
  {
    StripIsSlice(v);
    var i, j :| 0 <= i <= j <= |v| && Strip(v) == v[i..j] && AllSpace(v[..i]) && AllSpace(v[j..]);
    OperatorsInCore(v, i, j);
  }

  /** Stripping only removes whitespace, so the operator characters of a
      string are those of its core `v[i..j]`. */
  lemma OperatorsInCore(v: string, i: nat, j: nat)
    requires i <= j <= |v| && AllSpace(v[..i]) && AllSpace(v[j..])
    ensures HasOperator(v[i..j]) <==> HasOperator(v)
  {
    var t := v[i..j];
    forall m | 0 <= m < i
      ensures IsSpace(v[m])
    {
      assert v[..i][m] == v[m];
    }
    forall m | j <= m < |v|
      ensures IsSpace(v[m])
    {
      assert v[j..][m - j] == v[m];
    }
    if HasOperator(v) {
      var k :| 0 <= k < |v| && IsOperatorChar(v[k]);
      OperatorIsNotSpace(v[k]);
      assert t[k - i] == v[k];
    }
    if HasOperator(t) {
      var k :| 0 <= k < |t| && IsOperatorChar(t[k]);
      assert v[i + k] == t[k];
    }
  }

  // ---- regular-expression matching, written out ----

  predicate WordAt(s: string, q: int)
  {
    0 <= q < |s| && IsWordChar(s[q])
  }

  /** `\b`: a word character on exactly one side of position `p`. */
  predicate BoundaryAt(s: string, p: int)
  {
    WordAt(s, p - 1) != WordAt(s, p)
  }

  /** The three parameter patterns of `_substitute_parameters`:
      `@name\b`, `\.name(?=\W|$)` and `\bname\b` (macros.py:161, 170, 172). */
  datatype Rule = AtParam | DotParam | PlainParam

  predicate MatchesAt(s: string, pat: string, i: int, rule: Rule)
  {
    OccursAt(s, pat, i) &&
    match rule
    case AtParam => BoundaryAt(s, i + |pat|)
    case DotParam => !WordAt(s, i + |pat|)
    case PlainParam => BoundaryAt(s, i) && BoundaryAt(s, i + |pat|)
  }

  /** `re.sub` of a literal pattern with a boundary rule: matches are found
      left to right, each replaced, and scanning resumes after the match. */
  function SubFrom(s: string, pat: string, rule: Rule, repl: string, i: nat): string
    requires i <= |s|
    decreases |s| - i
  {
    if |pat| == 0 || i + |pat| > |s| then s[i..]
    else if MatchesAt(s, pat, i, rule) then repl + SubFrom(s, pat, rule, repl, i + |pat|)
    else [s[i]] + SubFrom(s, pat, rule, repl, i + 1)
  }

  function Sub(s: string, pat: string, rule: Rule, repl: string): string
  {
    SubFrom(s, pat, rule, repl, 0)
  }

  /** Replacing every match of a pattern by the pattern itself changes
      nothing, so a parameter bound to its own name leaves lines intact. */
  lemma {:induction false} SubSelf(s: string, pat: string, rule: Rule, i: nat)
    requires i <= |s|
    ensures SubFrom(s, pat, rule, pat, i) == s[i..]
    decreases |s| - i
  {
    if |pat| == 0 || i + |pat| > |s| {
    } else if MatchesAt(s, pat, i, rule) {
      SubSelf(s, pat, rule, i + |pat|);
      assert s[i..] == s[i..i + |pat|] + s[i + |pat|..];
    } else {
      SubSelf(s, pat, rule, i + 1);
      assert s[i..] == [s[i]] + s[i + 1..];
    }
  }

  /** A line with no match of a pattern is left as it is. */
  lemma {:induction false} SubWithoutMatch(s: string, pat: string, rule: Rule, repl: string, i: nat)
    requires i <= |s|
    requires forall k :: i <= k <= |s| ==> !MatchesAt(s, pat, k, rule)
    ensures SubFrom(s, pat, rule, repl, i) == s[i..]
    decreases |s| - i
  {
    if |pat| == 0 || i + |pat| > |s| {
    } else {
      assert !MatchesAt(s, pat, i, rule);
      SubWithoutMatch(s, pat, rule, repl, i + 1);
      assert s[i..] == [s[i]] + s[i + 1..];
    }
  }

  /** The parameter pass of `_substitute_parameters` (macros.py:159-173):
      for each binding in order, `@name` becomes the protected argument,
      then the bare name becomes the raw argument. */
  function SubstituteParams(line: string, b: Bindings): string
    decreases |b|
  {
    if b == [] then line
    else
      var name := b[0].0;
      var value := b[0].1;
      var r := Sub(line, "@" + name, AtParam, Protect(value));
      var r2 := if |name| > 0 && name[0] == '.' then Sub(r, name, DotParam, value) else Sub(r, name, PlainParam, value);
      SubstituteParams(r2, b[1..])
  }

  // ---- local-label renaming ----

  predicate LabelStart(c: char)
  {
    IsLetter(c) || c == '_'
  }

  /** The end of the run of word characters starting at `j` (`\w*`). */
  function WordEnd(s: string, j: nat): (r: nat)
    requires j <= |s|
    ensures j <= r <= |s|
    ensures forall k :: j <= k < r ==> IsWordChar(s[k])
    ensures r == |s| || !IsWordChar(s[r])
    decreases |s| - j
  {
    if j < |s| && IsWordChar(s[j]) then WordEnd(s, j + 1) else j
  }

  /** Does a `.label` (a dot, then a letter or `_`) start at `i`? */
  predicate DotLabelAt(s: string, i: int)
  {
    0 <= i && i + 1 < |s| && s[i] == '.' && LabelStart(s[i + 1])
  }

  /** `re.sub(r'\.([a-zA-Z_]\w*)', ...)` appending the suffix to each
      `.label` (macros.py:177-185). */
  function DotRenameFrom(s: string, suffix: string, i: nat): string
    requires i <= |s|
    decreases |s| - i
  {
    if i == |s| then ""
    else if DotLabelAt(s, i) then
      var j := WordEnd(s, i + 1);
      s[i..j] + suffix + DotRenameFrom(s, suffix, j)
    else [s[i]] + DotRenameFrom(s, suffix, i + 1)
  }

  /** The number of `.label` starts at or after `i`. */
  function DotLabelsFrom(s: string, i: nat): nat
    requires i <= |s|
    decreases |s| - i
  {
    if i == |s| then 0 else (if DotLabelAt(s, i) then 1 else 0) + DotLabelsFrom(s, i + 1)
  }

  lemma {:induction false} NoDotLabelsInWord(s: string, i: nat, j: nat)
    requires i <= j <= |s| && forall k :: i <= k < j ==> IsWordChar(s[k])
    ensures DotLabelsFrom(s, i) == DotLabelsFrom(s, j)
    decreases j - i
  {
    if i < j {
      assert !DotLabelAt(s, i);
      NoDotLabelsInWord(s, i + 1, j);
    }
  }

  /** Renaming inserts the suffix exactly once per `.label`; a dot followed
      by a digit, as in `3.14`, is not a label. */
  lemma {:induction false} DotRenameLength(s: string, suffix: string, i: nat)
    requires i <= |s|
    ensures |DotRenameFrom(s, suffix, i)| == |s| - i + |suffix| * DotLabelsFrom(s, i)
    decreases |s| - i
  {
    if i < |s| {
      if DotLabelAt(s, i) {
        var j := WordEnd(s, i + 1);
        DotRenameLength(s, suffix, j);
        NoDotLabelsInWord(s, i + 1, j);
        var n := DotLabelsFrom(s, j);
        assert DotLabelsFrom(s, i) == 1 + n;
        assert |DotRenameFrom(s, suffix, i)| == (j - i) + |suffix| + |DotRenameFrom(s, suffix, j)|;
        MulSucc(|suffix|, n);
      } else {
        DotRenameLength(s, suffix, i + 1);
        assert DotLabelsFrom(s, i) == DotLabelsFrom(s, i + 1);
      }
    }
  }

  lemma MulSucc(a: nat, n: nat)
    ensures a * (1 + n) == a + a * n
  {
  }

  /** With an empty suffix the renaming is the identity. */
  lemma {:induction false} DotRenameEmptySuffix(s: string, i: nat)
    requires i <= |s|
    ensures DotRenameFrom(s, "", i) == s[i..]
    decreases |s| - i
  {
    if i < |s| {
      if DotLabelAt(s, i) {
        var j := WordEnd(s, i + 1);
        DotRenameEmptySuffix(s, j);
        assert s[i..] == s[i..j] + s[j..];
      } else {
        DotRenameEmptySuffix(s, i + 1);
        assert s[i..] == [s[i]] + s[i + 1..];
      }
    }
  }

  /** `re.sub(r'@([a-zA-Z_]\w*)(:?)', ...)`: each `@name` or `@name:` that
      is not a parameter name gets the suffix before its colon
      (macros.py:189-202). */
  function CheapRenameFrom(s: string, suffix: string, params: seq<string>, i: nat): string
    requires i <= |s|
    decreases |s| - i
  {
    if i == |s| then ""
    else if s[i] == '@' && i + 1 < |s| && LabelStart(s[i + 1]) then
      var j := WordEnd(s, i + 1);
      var e := if j < |s| && s[j] == ':' then j + 1 else j;
      var name := s[i + 1..j];
      (if name in params then s[i..e] else "@" + name + suffix + s[j..e]) + CheapRenameFrom(s, suffix, params, e)
    else [s[i]] + CheapRenameFrom(s, suffix, params, i + 1)
  }

  /** With an empty suffix the cheap-label renaming is the identity. */
  lemma {:induction false} CheapRenameEmptySuffix(s: string, params: seq<string>, i: nat)
    requires i <= |s|
    ensures CheapRenameFrom(s, "", params, i) == s[i..]
    decreases |s| - i
  {
    if i < |s| {
      if s[i] == '@' && i + 1 < |s| && LabelStart(s[i + 1]) {
        var j := WordEnd(s, i + 1);
        var e := if j < |s| && s[j] == ':' then j + 1 else j;
        CheapHeadUnchanged(s, i, j, e);
        assert CheapRenameFrom(s, "", params, i) == s[i..e] + CheapRenameFrom(s, "", params, e);
        CheapRenameEmptySuffix(s, params, e);
      } else {
        CheapRenameEmptySuffix(s, params, i + 1);
        assert s[i..] == [s[i]] + s[i + 1..];
      }
    }
  }

  /** An `@name` piece with its suffix left empty is the text it came from. */
  lemma CheapHeadUnchanged(s: string, i: nat, j: nat, e: nat)
    requires i < j <= e <= |s| && s[i] == '@'
    ensures "@" + s[i + 1..j] + "" + s[j..e] == s[i..e]
    ensures s[i..] == s[i..e] + s[e..]
  {
    assert s[i..e] == [s[i]] + s[i + 1..j] + s[j..e];
  }

  /** A parameter used as `@name` (in a line where no earlier binding
      produced it) is never renamed: each `@param` starting at `i` is copied. */
  lemma CheapRenameKeepsParams(s: string, suffix: string, params: seq<string>, i: nat)
    requires i + 1 < |s| && s[i] == '@' && LabelStart(s[i + 1])
    requires s[i + 1..WordEnd(s, i + 1)] in params
    ensures var j := WordEnd(s, i + 1);
      var e := if j < |s| && s[j] == ':' then j + 1 else j;
      CheapRenameFrom(s, suffix, params, i) == s[i..e] + CheapRenameFrom(s, suffix, params, e)
  {
  }

  /** Is the line a comment once stripped (`strip().startswith(';')`)? */
  predicate IsComment(s: string)
  {
    var t := Strip(s);
    |t| > 0 && t[0] == ';'
  }

  /** `_substitute_parameters` (macros.py:151-204). */
  function SubstituteLine(line: string, b: Bindings, suffix: string): string
  {
    var r := SubstituteParams(line, b);
    var r2 := if '.' in r && !IsComment(r) then DotRenameFrom(r, suffix, 0) else r;
    if '@' in r2 && !IsComment(r2) then CheapRenameFrom(r2, suffix, Keys(b), 0) else r2
  }

  /** Comment lines get their parameters substituted but no label renamed. */
  lemma CommentsAreNotRenamed(line: string, b: Bindings, suffix: string)
    requires IsComment(SubstituteParams(line, b))
    ensures SubstituteLine(line, b, suffix) == SubstituteParams(line, b)
  {
  }

  // ---- expansion ----

  /** The label suffix of the `n`-th expansion (macros.py:135-136). */
  function Suffix(n: nat): string
  {
    "_" + ToDigits(n, 10)
  }

  /** Different expansions use different suffixes. */
  lemma SuffixInjective(a: nat, b: nat)
    ensures Suffix(a) == Suffix(b) ==> a == b
  {
    if Suffix(a) == Suffix(b) {
      assert Suffix(a)[1..] == ToDigits(a, 10);
      assert Suffix(b)[1..] == ToDigits(b, 10);
      ParseIntToDigits(a, 10);
      ParseIntToDigits(b, 10);
    }
  }

  /** `expand_macro` (macros.py:109-149) on the macro table, the call depth
      and the expansion counter before the call. */
  function Expansion(macros: map<string, Macro>, depth: nat, counter: nat, name: string, args: seq<string>): (r: Result<seq<string>>)
    ensures r.Err? <==> name !in macros || depth >= MaxMacroDepth || |args| != |macros[name].parameters|
    ensures name !in macros ==> r == Err(UndefinedMacro(name))
    ensures name in macros && depth >= MaxMacroDepth ==> r == Err(MacroDepthExceeded)
    ensures name in macros && depth < MaxMacroDepth && |args| != |macros[name].parameters| ==>
      r == Err(MacroArity(name, |macros[name].parameters|, |args|))
    ensures r.Ok? ==> |r.value| == |macros[name].bodyLines|
  {
    if name !in macros then Err(UndefinedMacro(name))
    else if depth >= MaxMacroDepth then Err(MacroDepthExceeded)
    else
      var m := macros[name];
      if |args| != |m.parameters| then Err(MacroArity(name, |m.parameters|, |args|))
      else
        var b := ParamMap(m.parameters, args);
        Ok(seq(|m.bodyLines|, k requires 0 <= k < |m.bodyLines| => SubstituteLine(m.bodyLines[k], b, Suffix(counter + 1))))
  }

  // ---- collecting a body ----

  /** What one line does to a macro body being collected: it closes the
      body, or the scan goes on with a new brace depth, "brace seen" flag
      and body. */
  datatype Turn = Closed(body: seq<string>) | Open(depth: int, found: bool, body: seq<string>)

  /** One turn of the loop of `collect_macro_body` (macros.py:234-261). */
  function CollectTurn(line: string, depth: int, found: bool, body: seq<string>): (t: Turn)
    ensures t.Closed? ==> found || '{' in Strip(line)
    ensures t.Closed? ==> '}' in Strip(line) && body <= t.body && |t.body| <= |body| + 1
    ensures t.Open? ==> body <= t.body && |t.body| <= |body| + 1 && (t.found <==> found || '{' in Strip(line))
    ensures t.Open? && !found && '{' !in Strip(line) ==> t == Open(depth, false, body)
  {
    var stripped := Strip(line);
    var opens := '{' in stripped;
    var found1 := found || opens;
    var depth1 := if opens then depth + Count(stripped, '{') else depth;
    if opens && depth1 == 1 then
      var rest := Strip(RemoveFirst(stripped, '{'));
      Open(depth1, found1, if rest != "" then body + [rest] else body)
    else if !found1 then Open(depth1, found1, body)
    else
      var closes := '}' in stripped;
      var depth2 := if closes then depth1 - Count(stripped, '}') else depth1;
      if closes && depth2 == 0 then
        var rest := Strip(RemoveFirst(stripped, '}'));
        Closed(if rest != "" then body + [rest] else body)
      else Open(depth2, found1, if depth2 > 0 then body + [line] else body)
  }

  /** `collect_macro_body` (macros.py:224-263) from line `i` on, with the
      brace depth, whether `{` was seen, and the body so far. */
  function CollectFrom(src: seq<string>, start: nat, i: nat, depth: int, found: bool, body: seq<string>): (r: Result<(seq<string>, nat)>)
    decreases |src| - i
    ensures r.Err? ==> r.error == UnclosedMacro(start + 1)
    ensures r.Ok? ==> i <= r.value.1 < |src| && '}' in Strip(src[r.value.1])
    ensures r.Ok? ==> body <= r.value.0 && |r.value.0| <= |body| + (r.value.1 - i + 1)
  {
    if i >= |src| then Err(UnclosedMacro(start + 1))
    else
      var t := CollectTurn(src[i], depth, found, body);
      if t.Closed? then Ok((t.body, i))
      else CollectFrom(src, start, i + 1, t.depth, t.found, t.body)
  }

  /** A body needs an opening brace: without one the collection fails. */
  lemma {:induction false} CollectNeedsOpeningBrace(src: seq<string>, start: nat, i: nat, depth: int, body: seq<string>)
    requires forall k :: i <= k < |src| ==> '{' !in Strip(src[k])
    ensures CollectFrom(src, start, i, depth, false, body) == Err(UnclosedMacro(start + 1))
    decreases |src| - i
  {
    if i < |src| {
      CollectNeedsOpeningBrace(src, start, i + 1, depth, body);
    }
  }

  // ---- macro calls ----

  /** The first index at or after `j` holding whitespace, or `|s|`. */
  function SpaceIndex(s: string, j: nat): (r: nat)
    requires j <= |s|
    ensures j <= r <= |s|
    ensures forall k :: j <= k < r ==> !IsSpace(s[k])
    ensures r < |s| ==> IsSpace(s[r])
    decreases |s| - j
  {
    if j < |s| && !IsSpace(s[j]) then SpaceIndex(s, j + 1) else j
  }

  function StripAll(parts: seq<string>): (r: seq<string>)
    ensures |r| == |parts| && forall k :: 0 <= k < |parts| ==> r[k] == Strip(parts[k])
  {
    seq(|parts|, k requires 0 <= k < |parts| => Strip(parts[k]))
  }

  /** `parse_macro_call` (macros.py:265-293): the name is the first word
      after `+`, the arguments the rest of the line split on every comma and
      stripped. */
  function ParseMacroCall(line: string): (r: Result<(string, seq<string>)>)
    ensures r.Err? <==> (var s := Strip(line); |s| == 0 || s[0] != '+' || LStrip(s[1..]) == "")
    ensures r.Ok? ==> |r.value.0| > 0 && forall k :: 0 <= k < |r.value.0| ==> !IsSpace(r.value.0[k])
  {
    var s := Strip(line);
    if |s| == 0 || s[0] != '+' then Err(MacroCallWithoutPlus)
    else
      var rest := LStrip(s[1..]);
      if rest == "" then Err(EmptyMacroCall)
      else
        LStripShape(s[1..]);
        var e := SpaceIndex(rest, 0);
        var name := rest[..e];
        var remainder := LStrip(rest[e..]);
        if remainder == "" then Ok((name, []))
        else Ok((name, StripAll(Split(Strip(remainder), ','))))
  }

  /** A call written as `+name a, b, c`. */
  function FormatCall(name: string, args: seq<string>): string
  {
    "+" + name + (if args == [] then "" else " " + Join(args, ", "))
  }

  /** An argument that survives the parse: non-empty, without a comma and
      without whitespace at either end. */
  predicate PlainArgument(a: string)
  {
    a != "" && ',' !in a && !IsSpace(a[0]) && !IsSpace(a[|a| - 1])
  }

  lemma StripTrimmed(s: string)
    requires s != [] && !IsSpace(s[0]) && !IsSpace(s[|s| - 1])
    ensures LStrip(s) == s && Strip(s) == s
  {
  }

  lemma {:induction false} SplitWithoutSeparator(a: string, c: char)
    requires c !in a
    ensures Split(a, c) == [a]
  {
    if a != [] {
      SplitWithoutSeparator(a[1..], c);
      assert [a[0]] + a[1..] == a;
    }
  }

  lemma {:induction false} SplitAfterSeparator(a: string, c: char, rest: string)
    requires c !in a
    ensures Split(a + [c] + rest, c) == [a] + Split(rest, c)
  {
    if a == [] {
      assert a + [c] + rest == [c] + rest;
      SplitAtSeparator(c, rest);
    } else {
      var t := a[1..] + [c] + rest;
      assert a + [c] + rest == [a[0]] + t;
      SplitCons(a[0], t, c);
      SplitAfterSeparator(a[1..], c, rest);
      assert [a[0]] + a[1..] == a;
    }
  }

  /** A leading separator splits off an empty part. */
  lemma SplitAtSeparator(c: char, rest: string)
    ensures Split([c] + rest, c) == [""] + Split(rest, c)
  {
    assert ([c] + rest)[1..] == rest;
  }

  /** A leading character other than the separator joins the first part. */
  lemma SplitCons(x: char, t: string, c: char)
    requires x != c
    ensures Split([x] + t, c) == [[x] + Split(t, c)[0]] + Split(t, c)[1..]
  {
    assert ([x] + t)[0] == x && ([x] + t)[1..] == t;
  }

  lemma SplitAfterSpace(x: string, c: char)
    requires c != ' '
    ensures var p := Split(x, c);
      Split([' '] + x, c) == [[' '] + p[0]] + p[1..]
  {
    assert ([' '] + x)[0] == ' ' && ([' '] + x)[1..] == x;
  }

  lemma StripAfterSpace(x: string)
    ensures Strip([' '] + x) == Strip(x)
  {
    assert LStrip([' '] + x) == LStrip(x);
  }

  lemma StripAllCons(a: string, rest: seq<string>)
    ensures StripAll([a] + rest) == [Strip(a)] + StripAll(rest)
  {
  }

  /** Splitting a `, `-joined list of plain arguments on commas and
      stripping each part gives the list back. */
  lemma {:induction false} SplitJoinedArguments(args: seq<string>)
    requires args != [] && forall k :: 0 <= k < |args| ==> PlainArgument(args[k])
    ensures StripAll(Split(Join(args, ", "), ',')) == args
    decreases |args|
  {
    assert PlainArgument(args[0]);
    StripTrimmed(args[0]);
    if |args| == 1 {
      SplitWithoutSeparator(args[0], ',');
    } else {
      var j1 := Join(args[1..], ", ");
      assert Join(args, ", ") == args[0] + [','] + ([' '] + j1);
      SplitAfterSeparator(args[0], ',', [' '] + j1);
      var p := Split(j1, ',');
      SplitAfterSpace(j1, ',');
      StripAfterSpace(p[0]);
      assert forall k :: 0 <= k < |args[1..]| ==> PlainArgument(args[1..][k]);
      SplitJoinedArguments(args[1..]);
      StripAllCons([' '] + p[0], p[1..]);
      StripAllCons(p[0], p[1..]);
      assert [p[0]] + p[1..] == p;
      StripAllCons(args[0], [[' '] + p[0]] + p[1..]);
    }
  }

  lemma JoinFirstLast(args: seq<string>)
    requires args != [] && forall k :: 0 <= k < |args| ==> PlainArgument(args[k])
    requires args[0] != [] && args[|args| - 1] != []
    ensures var j := Join(args, ", ");
      j != [] && j[0] == args[0][0] && j[|j| - 1] == args[|args| - 1][|args[|args| - 1]| - 1]
    decreases |args|
  {
    if |args| > 1 {
      assert PlainArgument(args[1..][0]);
      JoinFirstLast(args[1..]);
    }
  }

  lemma WordThenSpace(name: string, tail: string)
    requires name != [] && forall k :: 0 <= k < |name| ==> !IsSpace(name[k])
    requires tail == [] || IsSpace(tail[0])
    ensures SpaceIndex(name + tail, 0) == |name|
  {
    var rest := name + tail;
    forall k | 0 <= k < |name|
      ensures !IsSpace(rest[k])
    {
      assert rest[k] == name[k];
    }
    if tail != [] {
      assert IsSpace(rest[|name|]);
    }
  }

  /** The tail ` a, b, c` of a formatted call. */
  function ArgumentTail(args: seq<string>): string
  {
    if args == [] then "" else " " + Join(args, ", ")
  }

  lemma FormattedCallIsTrimmed(name: string, args: seq<string>)
    requires name != [] && forall k :: 0 <= k < |name| ==> !IsSpace(name[k])
    requires forall k :: 0 <= k < |args| ==> PlainArgument(args[k])
    ensures Strip(FormatCall(name, args)) == FormatCall(name, args)
  {
    LastOfFormattedCall(name, args);
    StripTrimmed(FormatCall(name, args));
  }

  lemma LStripNonSpace(s: string)
    requires s != [] && !IsSpace(s[0])
    ensures LStrip(s) == s
  {
  }

  lemma LastOfFormattedCall(name: string, args: seq<string>)
    requires name != [] && forall k :: 0 <= k < |name| ==> !IsSpace(name[k])
    requires forall k :: 0 <= k < |args| ==> PlainArgument(args[k])
    ensures var s := FormatCall(name, args); !IsSpace(s[|s| - 1])
  {
    var s := FormatCall(name, args);
    if args != [] {
      var j := Join(args, ", ");
      assert PlainArgument(args[0]) && PlainArgument(args[|args| - 1]);
      JoinFirstLast(args);
      assert s == ("+" + name + " ") + j;
      assert s[|s| - 1] == j[|j| - 1];
    } else {
      assert s == "+" + name;
      assert s[|s| - 1] == name[|name| - 1];
    }
  }

  lemma ArgumentTailParses(args: seq<string>)
    requires args != [] && forall k :: 0 <= k < |args| ==> PlainArgument(args[k])
    ensures var j := Join(args, ", ");
      LStrip(ArgumentTail(args)) == j && Strip(j) == j && StripAll(Split(j, ',')) == args
  {
    var j := Join(args, ", ");
    assert PlainArgument(args[0]) && PlainArgument(args[|args| - 1]);
    JoinFirstLast(args);
    assert LStrip(ArgumentTail(args)) == LStrip(j);
    StripTrimmed(j);
    SplitJoinedArguments(args);
  }

  /** Parsing a formatted call gives back its name and arguments. */
  lemma MacroCallRoundTrip(name: string, args: seq<string>)
    requires name != [] && forall k :: 0 <= k < |name| ==> !IsSpace(name[k])
    requires forall k :: 0 <= k < |args| ==> PlainArgument(args[k])
    ensures ParseMacroCall(FormatCall(name, args)) == Ok((name, args))
  {
    var tail := ArgumentTail(args);
    var s := FormatCall(name, args);
    FormattedCallIsTrimmed(name, args);
    var rest := name + tail;
    assert s == "+" + rest;
    assert s[1..] == rest;
    assert rest[0] == name[0];
    LStripNonSpace(rest);
    WordThenSpace(name, tail);
    assert rest[..|name|] == name && rest[|name|..] == tail;
    if args != [] {
      ArgumentTailParses(args);
    }
  }

  // ---- the macro table ----

  /** `MacroSystem` (macros.py:23-30). */
  class MacroSystem {
    var macros: map<string, Macro>
    var callDepth: nat
    var counter: nat

    constructor()
      ensures macros == map[] && callDepth == 0 && counter == 0
    {
      macros := map[];
      callDepth := 0;
      counter := 0;
    }

    /** `define_macro` (macros.py:32-39): always succeeds, replacing any
        macro of the same name. */
    method DefineMacro(name: string, parameters: seq<string>, body: seq<string>, line: int)
      modifies this
      ensures macros == old(macros)[name := Macro(name, parameters, body, line)]
      ensures callDepth == old(callDepth) && counter == old(counter)
    {
      macros := macros[name := Macro(name, parameters, body, line)];
    }

    /** `is_macro_defined` (macros.py:41-43). */
    predicate IsMacroDefined(name: string)
      reads this
    {
      name in macros
    }

    /** The parameter loop of `process_macro_directive` (macros.py:64-85). */
    static method ParseParameters(t: seq<Token>, k0: nat) returns (ps: seq<string>)
      ensures ps == Params(t, k0)
    {
      ps := [];
      var k := k0;
      while k < |t| && t[k].value != "{"
        invariant ps + Params(t, k) == Params(t, k0)
        decreases |t| - k
      {
        if t[k].kind == Identifier {
          ps := ps + [ParamName(t[k].value)];
          if k + 1 < |t| && t[k + 1].value == "," {
            k := k + 2;
          } else {
            k := k + 1;
          }
        } else {
          k := k + 1;
        }
      }
    }

    /** `process_macro_directive` (macros.py:45-107): a definition is
        stored, a brace-opened body is handed back to be collected. */
    method ProcessMacroDirective(t: seq<Token>, start: nat, line: int) returns (r: Result<MacroAction>)
      modifies this
      ensures r == MacroDirective(t, start, line)
      ensures r.Ok? && r.value.Defined? ==> macros == old(macros)[r.value.m.name := r.value.m]
      ensures !(r.Ok? && r.value.Defined?) ==> macros == old(macros)
      ensures callDepth == old(callDepth) && counter == old(counter)
    {
      if start >= |t| || t[start].kind != Identifier {
        return Err(MacroRequiresName);
      }
      var name := t[start].value;
      var params := ParseParameters(t, start + 1);
      var text := LineText(t);
      if '{' in text {
        var bs := IndexOf(text, '{');
        var be := RFind(text, '}');
        if be != -1 && be > bs {
          var content := Strip(text[bs + 1..be]);
          var body := if content != "" then [content] else [];
          DefineMacro(name, params, body, line);
          r := Ok(Defined(Macro(name, params, body, line)));
        } else if be == -1 {
          r := Ok(BeginCollection(name, params));
        } else {
          r := Err(InvalidMacroBraces);
        }
      } else {
        DefineMacro(name, params, [], line);
        r := Ok(Defined(Macro(name, params, [], line)));
      }
    }

    /** `expand_macro` (macros.py:109-149): a successful expansion bumps
        the counter by one and uses its new value as the label suffix; the
        call depth is raised only while the lines are substituted. */
    method ExpandMacro(name: string, args: seq<string>) returns (r: Result<seq<string>>)
      modifies this
      ensures r == Expansion(old(macros), old(callDepth), old(counter), name, args)
      ensures r.Ok? ==> counter == old(counter) + 1
      ensures r.Err? ==> counter == old(counter)
      ensures macros == old(macros) && callDepth == old(callDepth)
    {
      if name !in macros {
        return Err(UndefinedMacro(name));
      }
      if callDepth >= MaxMacroDepth {
        return Err(MacroDepthExceeded);
      }
      var m := macros[name];
      if |args| != |m.parameters| {
        return Err(MacroArity(name, |m.parameters|, |args|));
      }
      ghost var spec := Expansion(macros, callDepth, counter, name, args);
      var b := ParamMap(m.parameters, args);
      counter := counter + 1;
      var suffix := Suffix(counter);
      callDepth := callDepth + 1;
      var lines := SubstituteBody(m.bodyLines, b, suffix);
      callDepth := callDepth - 1;
      assert spec.Ok? && |spec.value| == |lines|;
      forall k | 0 <= k < |lines|
        ensures spec.value[k] == lines[k]
      {
      }
      assert spec.value == lines;
      r := Ok(lines);
      assert r == spec;
    }

    /** The substitution loop of `expand_macro` (macros.py:143-145). */
    static method SubstituteBody(body: seq<string>, b: Bindings, suffix: string) returns (lines: seq<string>)
      ensures |lines| == |body| && forall k :: 0 <= k < |body| ==> lines[k] == SubstituteLine(body[k], b, suffix)
    {
      lines := [];
      var i := 0;
      while i < |body|
        invariant 0 <= i <= |body| && |lines| == i
        invariant forall k :: 0 <= k < i ==> lines[k] == SubstituteLine(body[k], b, suffix)
      {
        lines := lines + [SubstituteLine(body[i], b, suffix)];
        i := i + 1;
      }
    }

    /** `collect_macro_body` (macros.py:224-263): the body lines and the
        index of the line holding the closing brace. */
    static method CollectMacroBody(src: seq<string>, start: nat) returns (r: Result<(seq<string>, nat)>)
      ensures r == CollectFrom(src, start, start, 0, false, [])
    {
      ghost var spec := CollectFrom(src, start, start, 0, false, []);
      var body: seq<string> := [];
      var depth := 0;
      var found := false;
      var i := start;
      while i < |src|
        invariant CollectFrom(src, start, i, depth, found, body) == spec
        decreases |src| - i
      {
        var t := CollectLine(src[i], depth, found, body);
        if t.Closed? {
          return Ok((t.body, i));
        }
        depth, found, body := t.depth, t.found, t.body;
        i := i + 1;
      }
      return Err(UnclosedMacro(start + 1));
    }

    /** The body of the loop of `collect_macro_body` (macros.py:234-261). */
    static method CollectLine(line: string, depth: int, found: bool, body: seq<string>) returns (t: Turn)
      ensures t == CollectTurn(line, depth, found, body)
    {
      var stripped := Strip(line);
      var found1 := found;
      var depth1 := depth;
      if '{' in stripped {
        found1 := true;
        depth1 := depth1 + Count(stripped, '{');
        if depth1 == 1 {
          var rest := Strip(RemoveFirst(stripped, '{'));
          return Open(depth1, found1, if rest != "" then body + [rest] else body);
        }
      }
      if !found1 {
        return Open(depth1, found1, body);
      }
      if '}' in stripped {
        depth1 := depth1 - Count(stripped, '}');
        if depth1 == 0 {
          var rest := Strip(RemoveFirst(stripped, '}'));
          return Closed(if rest != "" then body + [rest] else body);
        }
      }
      return Open(depth1, found1, if depth1 > 0 then body + [line] else body);
    }

    /** `reset` (macros.py:295-298): definitions and the counter persist
        across passes. */
    method Reset()
      modifies this
      ensures callDepth == 0 && macros == old(macros) && counter == old(counter)
    {
      callDepth := 0;
    }
  }
}
