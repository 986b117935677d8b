/** The symbol store of the assembler (pyasm6502/assembler.py:26-80,
    122-224): global symbols, one `.local` map per zone, the `@cheap` map,
    the `+`/`-` anonymous-label ledgers and the per-pass duplicate set, with
    the lookup and definition rules as pure functions over a snapshot. */
module Symbols {
  import opened Wrappers

  datatype Symbol = Symbol(name: string, value: int, isAddress: bool, isLocal: bool)

  datatype Zone = Zone(name: string, locals: map<string, Symbol>)

  /** A snapshot of the symbol-related fields of the assembler. */
  datatype Store = Store(
    globals: map<string, Symbol>,
    zones: seq<Zone>,
    current: nat,
    cheap: map<string, Symbol>,
    forward: map<string, seq<int>>,
    backward: map<string, seq<int>>,
    definedThisPass: set<string>,
    pass: int)
  {
    /** `zones[current_zone]` always exists. */
    predicate Valid()
    {
      current < |zones|
    }
  }

  /** The store of a freshly constructed assembler: one zone named "global". */
  function InitialStore(): (st: Store)
    ensures st.Valid() && |st.zones| == 1 && st.zones[0].locals == map[]
    ensures st.globals == map[] && st.cheap == map[] && st.definedThisPass == {}
  {
    Store(map[], [Zone("global", map[])], 0, map[], map[], map[], {}, 1)
  }

  /** Python `all(c == x for c in name)`, true for the empty name. */
  predicate AllChar(name: string, x: char)
  {
    forall k :: 0 <= k < |name| ==> name[k] == x
  }

  /** The scope a name belongs to, decided in the order the source tests. */
  datatype Scope = Forward | Backward | Cheap | Local | Global

  function ScopeOf(name: string): (sc: Scope)
    ensures sc == Forward <==> AllChar(name, '+')
    ensures sc == Backward <==> !AllChar(name, '+') && AllChar(name, '-')
    ensures sc == Cheap || sc == Local ==> |name| > 0
    ensures sc == Cheap <==> !AllChar(name, '+') && !AllChar(name, '-') && name[0] == '@'
    ensures sc == Local <==> !AllChar(name, '+') && !AllChar(name, '-') && name[0] == '.'
  {
    if AllChar(name, '+') then Forward
    else if AllChar(name, '-') then Backward
    else if name[0] == '@' then Cheap
    else if name[0] == '.' then Local
    else Global
  }

  /** A reference to a name that does not exist yet: value 0 on pass 1,
      an undefined-symbol error on every later pass. */
  function Unknown(st: Store, name: string, isLocal: bool, e: Error): Result<Symbol>
  {
    if st.pass == 1 then Ok(Symbol(name, 0, false, isLocal)) else Err(e)
  }

  /** `resolve_symbol` (pyasm6502/assembler.py:128-172). */
  function Resolve(st: Store, name: string): (r: Result<Symbol>)
    requires st.Valid()
  {
    match ScopeOf(name)
    case Forward =>
      if name in st.forward && |st.forward[name]| > 0 then Ok(Symbol(name, st.forward[name][0], false, false))
      else Unknown(st, name, false, UndefinedAnonForward(name))
    case Backward =>
      if name in st.backward && |st.backward[name]| > 0 then
        Ok(Symbol(name, st.backward[name][|st.backward[name]| - 1], false, false))
      else Err(UndefinedAnonBackward(name))
    case Cheap =>
      if name in st.cheap then Ok(st.cheap[name]) else Unknown(st, name, false, UndefinedCheapLocal(name))
    case Local =>
      var locals := st.zones[st.current].locals;
      if name in locals then Ok(locals[name]) else Unknown(st, name, true, UndefinedLocal(name))
    case Global =>
      if name in st.globals then Ok(st.globals[name]) else Unknown(st, name, false, UndefinedSymbol(name))
  }

  function Ledger(m: map<string, seq<int>>, name: string): seq<int>
  {
    if name in m then m[name] else []
  }

  /** `define_symbol` (pyasm6502/assembler.py:174-224). */
  function Define(st: Store, name: string, value: int, isAddress: bool): (r: Result<Store>)
    requires st.Valid()
    ensures r.Ok? ==> r.value.Valid() && |r.value.zones| == |st.zones| && r.value.current == st.current
    ensures r.Ok? ==> r.value.pass == st.pass
  {
    match ScopeOf(name)
    case Forward => Ok(st.(forward := st.forward[name := Ledger(st.forward, name) + [value]]))
    case Backward => Ok(st.(backward := st.backward[name := Ledger(st.backward, name) + [value]]))
    case Cheap => Ok(st.(cheap := st.cheap[name := Symbol(name, value, isAddress, false)]))
    case Local =>
      if name in st.definedThisPass then Err(SymbolAlreadyDefined(name))
      else
        var z := st.zones[st.current];
        var z' := z.(locals := z.locals[name := Symbol(name, value, isAddress, true)]);
        Ok(st.(zones := st.zones[st.current := z'], definedThisPass := st.definedThisPass + {name}))
    case Global =>
      if name in st.definedThisPass then Err(SymbolAlreadyDefined(name))
      else
        Ok(st.(globals := st.globals[name := Symbol(name, value, isAddress, false)],
               definedThisPass := st.definedThisPass + {name},
               cheap := map[]))
  }

  /** `create_zone` (pyasm6502/assembler.py:122-126): append an empty zone and
      make it current. */
  function CreateZone(st: Store, name: string): (r: Store)
    requires st.Valid()
    ensures r.Valid() && r.current == |st.zones| && r.zones == st.zones + [Zone(name, map[])]
    ensures r.globals == st.globals && r.cheap == st.cheap && r.forward == st.forward
    ensures r.backward == st.backward && r.definedThisPass == st.definedThisPass && r.pass == st.pass
  {
    st.(zones := st.zones + [Zone(name, map[])], current := |st.zones|)
  }

  /** The symbol part of the per-pass reset in `assemble`
      (pyasm6502/assembler.py:689-724): the pass number is set, the
      anonymous ledgers and the duplicate set are emptied, and the global,
      zone and cheap maps (and the current zone) carry over. */
  function BeginPass(st: Store, pass: int): (r: Store)
    requires st.Valid()
    ensures r.Valid() && r.pass == pass
    ensures r.forward == map[] && r.backward == map[] && r.definedThisPass == {}
    ensures r.globals == st.globals && r.zones == st.zones && r.current == st.current && r.cheap == st.cheap
  {
    st.(pass := pass, forward := map[], backward := map[], definedThisPass := {})
  }

  // ---- lookup policy ----

  /** A named symbol that is not there resolves to 0 on pass 1 and is an
      error on any other pass. */
  lemma UnknownNamePolicy(st: Store, name: string)
    requires st.Valid()
    requires ScopeOf(name) in {Cheap, Local, Global}
    requires ScopeOf(name) == Cheap ==> name !in st.cheap
    requires ScopeOf(name) == Local ==> name !in st.zones[st.current].locals
    requires ScopeOf(name) == Global ==> name !in st.globals
    ensures st.pass == 1 ==> Resolve(st, name).Ok? && Resolve(st, name).value.value == 0
    ensures st.pass != 1 ==> Resolve(st, name).Err?
  {
  }

  /** A `+` name resolves to the first address recorded for it in this pass;
      with none recorded it is 0 on pass 1 and an error afterwards. */
  lemma ForwardPolicy(st: Store, name: string)
    requires st.Valid() && AllChar(name, '+')
    ensures Ledger(st.forward, name) != [] ==> Resolve(st, name) == Ok(Symbol(name, st.forward[name][0], false, false))
    ensures Ledger(st.forward, name) == [] && st.pass == 1 ==> Resolve(st, name) == Ok(Symbol(name, 0, false, false))
    ensures Ledger(st.forward, name) == [] && st.pass != 1 ==> Resolve(st, name).Err?
  {
  }

  /** A `-` name resolves to the last address recorded for it, and is an
      error whenever none is recorded, on either pass. */
  lemma BackwardPolicy(st: Store, name: string)
    requires st.Valid() && AllChar(name, '-') && |name| > 0
    ensures Ledger(st.backward, name) != [] ==>
      Resolve(st, name).Ok? && Resolve(st, name).value.value == Ledger(st.backward, name)[|Ledger(st.backward, name)| - 1]
    ensures Ledger(st.backward, name) == [] ==> Resolve(st, name).Err?
  {
    assert name[0] == '-';
  }

  // ---- definition and lookup together ----

  /** After a successful definition of a named (non-anonymous) symbol, looking
      it up gives the value just defined. */
  lemma DefineThenResolve(st: Store, name: string, value: int, isAddress: bool)
    requires st.Valid() && ScopeOf(name) in {Cheap, Local, Global}
    requires Define(st, name, value, isAddress).Ok?
    ensures Resolve(Define(st, name, value, isAddress).value, name) == Ok(Symbol(name, value, isAddress, ScopeOf(name) == Local))
  {
  }

  /** Defining a `-` label makes it the one a backward reference finds. */
  lemma DefineBackwardThenResolve(st: Store, name: string, value: int)
    requires st.Valid() && AllChar(name, '-') && |name| > 0
    ensures Define(st, name, value, false).Ok?
    ensures Resolve(Define(st, name, value, false).value, name) == Ok(Symbol(name, value, false, false))
  {
    assert name[0] == '-';
  }

  /** Defining a `+` label appends to its ledger, so a forward reference keeps
      finding the first label recorded in the pass. */
  lemma DefineForwardKeepsFirst(st: Store, name: string, value: int)
    requires st.Valid() && AllChar(name, '+')
    ensures Define(st, name, value, false).Ok?
    ensures Define(st, name, value, false).value.forward[name] == Ledger(st.forward, name) + [value]
    ensures Resolve(Define(st, name, value, false).value, name).Ok?
    ensures Resolve(Define(st, name, value, false).value, name).value.value ==
            (if Ledger(st.forward, name) == [] then value else st.forward[name][0])
  {
  }

  /** Duplicate detection: a global or `.local` definition fails exactly when
      the name was already defined in this pass; `@cheap` and anonymous
      definitions never fail. */
  lemma DefineFailsOnlyOnDuplicate(st: Store, name: string, value: int, isAddress: bool)
    requires st.Valid()
    ensures Define(st, name, value, isAddress).Err? <==>
            ScopeOf(name) in {Local, Global} && name in st.definedThisPass
    ensures Define(st, name, value, isAddress).Err? ==>
            Define(st, name, value, isAddress) == Err(SymbolAlreadyDefined(name))
  {
  }

  /** Defining a name twice in one pass is rejected the second time. */
  lemma SecondDefinitionRejected(st: Store, name: string, v1: int, v2: int, a1: bool, a2: bool)
    requires st.Valid() && ScopeOf(name) in {Local, Global}
    requires Define(st, name, v1, a1).Ok?
    ensures Define(Define(st, name, v1, a1).value, name, v2, a2) == Err(SymbolAlreadyDefined(name))
  {
  }

  /** A symbol carried over from an earlier pass is overwritten by its first
      definition in the current pass. */
  lemma EarlierPassOverwritten(st: Store, name: string, value: int, isAddress: bool)
    requires st.Valid() && ScopeOf(name) == Global
    requires name in st.globals && name !in st.definedThisPass
    ensures Define(st, name, value, isAddress).Ok?
    ensures Define(st, name, value, isAddress).value.globals[name].value == value
  {
  }

  /** Every global definition empties the cheap-local map; a cheap-local
      definition overwrites without a duplicate check. */
  lemma GlobalClearsCheap(st: Store, name: string, value: int, isAddress: bool)
    requires st.Valid() && ScopeOf(name) == Global && name !in st.definedThisPass
    ensures Define(st, name, value, isAddress).Ok? && Define(st, name, value, isAddress).value.cheap == map[]
  {
  }

  /** A definition leaves every other global untouched (the only global
      entry that changes is the one defined). */
  lemma DefineOtherGlobalsUnchanged(st: Store, name: string, value: int, isAddress: bool, other: string)
    requires st.Valid() && Define(st, name, value, isAddress).Ok? && other != name
    ensures other in Define(st, name, value, isAddress).value.globals <==> other in st.globals
    ensures other in st.globals ==> Define(st, name, value, isAddress).value.globals[other] == st.globals[other]
  {
  }

  /** A freshly created zone has no locals: on pass 1 every `.name` resolves
      to 0 in it, and the locals of earlier zones are kept. */
  lemma NewZoneIsEmpty(st: Store, zname: string, name: string)
    requires st.Valid() && ScopeOf(name) == Local
    ensures CreateZone(st, zname).zones[..|st.zones|] == st.zones
    ensures st.pass == 1 ==> Resolve(CreateZone(st, zname), name) == Ok(Symbol(name, 0, false, true))
    ensures st.pass != 1 ==> Resolve(CreateZone(st, zname), name) == Err(UndefinedLocal(name))
  {
  }

  /** After the per-pass reset every named symbol of the previous pass can be
      defined again, once. */
  lemma BeginPassAllowsRedefinition(st: Store, pass: int, name: string, value: int, isAddress: bool)
    requires st.Valid()
    ensures Define(BeginPass(st, pass), name, value, isAddress).Ok?
  {
  }
}
