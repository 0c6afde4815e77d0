/** `ComponentRenameSymbol`: renaming one symbol of a flat component class,
    re-keying its dictionaries in place and renaming the parameters,
    aliases and constants that use it. */
module ComponentModifiers {
  import opened Wrappers
  import opened Expressions

  datatype Parameter = Parameter(name: string, dimension: Option<string>)
  datatype Alias = Alias(lhs: string, rhs: Expr)
  datatype Constant = Constant(name: string, value: int, units: string)

  /** How an element was affected: `note_lhs_changed`, `note_rhs_changed`,
      `note_port_changed`, or not at all. */
  datatype Change = NoChange | LhsChange | RhsChange | PortChange

  /** `namemap.get(x, x)` for the name map `{src: dst}`. */
  function MapName(x: string, src: string, dst: string): string
  {
    if x == src then dst else x
  }

  // ---------------------------------------------------------------------
  // `_update_dicts`

  /** `d[dst] = d.pop(src)` when `src` is a key. */
  function Rekeyed<V>(d: map<string, V>, src: string, dst: string): map<string, V>
  {
    if src in d then (d - {src})[dst := d[src]] else d
  }

  /** Afterwards `src` is gone and `dst` holds its value; a dictionary
      without `src` is unchanged, and no other key is touched. */
  lemma RekeyedMeaning<V>(d: map<string, V>, src: string, dst: string)
    ensures var r := Rekeyed(d, src, dst); src in d ==> dst in r && r[dst] == d[src]
    ensures src in d && src != dst ==> src !in Rekeyed(d, src, dst)
    ensures src !in d ==> Rekeyed(d, src, dst) == d
    ensures var r := Rekeyed(d, src, dst);
      forall k :: k != src && k != dst ==> (k in r <==> k in d) && (k in d ==> r[k] == d[k])
  {
  }

  /** Re-keying back undoes a re-keying onto a fresh key. */
  lemma RekeyedBack<V>(d: map<string, V>, src: string, dst: string)
    requires src in d && dst !in d
    ensures Rekeyed(Rekeyed(d, src, dst), dst, src) == d
  {
    var r := Rekeyed(d, src, dst);
    assert r == (d - {src})[dst := d[src]];
    var b := Rekeyed(r, dst, src);
    assert b == (r - {dst})[src := r[dst]];
    assert b.Keys == d.Keys;
  }

  /** The keys after re-keying. */
  lemma RekeyedKeys<V>(d: map<string, V>, src: string, dst: string)
    ensures Rekeyed(d, src, dst).Keys == if src in d then d.Keys - {src} + {dst} else d.Keys
  {
  }

  /** Every dictionary of a dictionary of dictionaries re-keyed, as
      `_update_dicts(*componentclass._indices.itervalues())` does. */
  function RekeyedAll<V>(ds: map<string, map<string, V>>, src: string, dst: string): map<string, map<string, V>>
  {
    map kind | kind in ds :: Rekeyed(ds[kind], src, dst)
  }

  /** Applies a per-element action to every value of a dictionary. */
  function MapValues<V>(m: map<string, V>, f: V -> V): map<string, V>
  {
    map k | k in m :: f(m[k])
  }

  // ---------------------------------------------------------------------
  // The per-element actions

  /** `action_parameter`: a parameter named `src` is renamed, as an LHS
      change. */
  function ParameterAction(p: Parameter, src: string, dst: string): (Parameter, Change)
  {
    if p.name == src then (Parameter(dst, p.dimension), LhsChange) else (p, NoChange)
  }

  /** `action_alias`: an alias defining `src` is an LHS change and an alias
      whose atoms (right-hand-side atoms and left-hand side) contain `src`
      an RHS change; both get the name map applied to both sides. */
  function AliasAction(a: Alias, src: string, dst: string): (Alias, Change)
  {
    if a.lhs == src then (Alias(MapName(a.lhs, src, dst), RenameSymbol(a.rhs, src, dst)), LhsChange)
    else if src in Atoms(a.rhs) + {a.lhs} then (Alias(MapName(a.lhs, src, dst), RenameSymbol(a.rhs, src, dst)), RhsChange)
    else (a, NoChange)
  }

  /** `action_constant`: a constant named `src` is renamed, as an LHS
      change. */
  function ConstantAction(c: Constant, src: string, dst: string): (Constant, Change)
  {
    if c.name == src then (Constant(dst, c.value, c.units), LhsChange) else (c, NoChange)
  }

  /** The actions as functions on elements, for applying them to every
      value of a dictionary. */
  function ParameterRenamer(src: string, dst: string): Parameter -> Parameter
  {
    (p: Parameter) => ParameterAction(p, src, dst).0
  }

  function AliasRenamer(src: string, dst: string): Alias -> Alias
  {
    (a: Alias) => AliasAction(a, src, dst).0
  }

  function ConstantRenamer(src: string, dst: string): Constant -> Constant
  {
    (c: Constant) => ConstantAction(c, src, dst).0
  }

  /** Only a parameter named `src` is renamed and noted, to `dst`. */
  lemma ParameterActionMeaning(p: Parameter, src: string, dst: string)
    ensures var r := ParameterAction(p, src, dst);
      (r.1 != NoChange <==> p.name == src) && r.0.name == MapName(p.name, src, dst) && r.0.dimension == p.dimension
    ensures var r := ParameterAction(p, src, dst); r.1 in {NoChange, LhsChange}
  {
  }

  /** An alias defining `src` becomes an alias defining `dst`; one that
      only uses `src` keeps its left-hand side; one whose atoms do not
      contain `src` is untouched.  Afterwards `src` is no longer a free
      symbol of the alias, and no other symbol is affected. */
  lemma AliasActionMeaning(a: Alias, src: string, dst: string)
    requires src != dst
    ensures var r := AliasAction(a, src, dst);
      (r.1 == LhsChange <==> a.lhs == src) &&
      (r.1 == RhsChange <==> a.lhs != src && src in Atoms(a.rhs)) &&
      (r.1 == NoChange <==> a.lhs != src && src !in Atoms(a.rhs))
    ensures var r := AliasAction(a, src, dst); r.1 == NoChange ==> r.0 == a
    ensures var r := AliasAction(a, src, dst);
      r.0.lhs == MapName(a.lhs, src, dst) && src !in FreeSymbols(r.0.rhs)
    ensures var r := AliasAction(a, src, dst);
      forall x :: x != src && x != dst ==> (x in FreeSymbols(r.0.rhs) <==> x in FreeSymbols(a.rhs))
  {
    RenameSymbolFree(a.rhs, src, dst);
    if src !in Atoms(a.rhs) {
      RenameAbsent(a.rhs, src, dst);
    }
  }

  /** Only a constant named `src` is renamed and noted, to `dst`. */
  lemma ConstantActionMeaning(c: Constant, src: string, dst: string)
    ensures var r := ConstantAction(c, src, dst);
      (r.1 != NoChange <==> c.name == src) && r.0.name == MapName(c.name, src, dst) &&
      r.0.value == c.value && r.0.units == c.units
  {
  }

  // ---------------------------------------------------------------------
  // The component class

  /** The dictionaries of a component class are keyed by their elements'
      names. */
  predicate ParametersKeyed(m: map<string, Parameter>) { forall k :: k in m ==> m[k].name == k }
  predicate AliasesKeyed(m: map<string, Alias>) { forall k :: k in m ==> m[k].lhs == k }
  predicate ConstantsKeyed(m: map<string, Constant>) { forall k :: k in m ==> m[k].name == k }

  /** The parameters after the rename: re-keyed, then renamed. */
  function RenamedParameters(m: map<string, Parameter>, src: string, dst: string): map<string, Parameter>
  {
    MapValues(Rekeyed(m, src, dst), ParameterRenamer(src, dst))
  }

  function RenamedAliases(m: map<string, Alias>, src: string, dst: string): map<string, Alias>
  {
    MapValues(Rekeyed(m, src, dst), AliasRenamer(src, dst))
  }

  function RenamedConstants(m: map<string, Constant>, src: string, dst: string): map<string, Constant>
  {
    MapValues(Rekeyed(m, src, dst), ConstantRenamer(src, dst))
  }

  /** Re-keying a dictionary keyed by name, then renaming its elements,
      keeps it keyed by name. */
  lemma RenamedKeyed<V>(d: map<string, V>, name: V -> string, f: V -> V, src: string, dst: string)
    requires forall k :: k in d ==> name(d[k]) == k
    requires forall v :: name(f(v)) == MapName(name(v), src, dst)
    ensures var r := MapValues(Rekeyed(d, src, dst), f); forall k :: k in r ==> name(r[k]) == k
  {
    var e := Rekeyed(d, src, dst);
    RekeyedMeaning(d, src, dst);
    var r := MapValues(e, f);
    forall k | k in r
      ensures name(r[k]) == k
    {
      assert r[k] == f(e[k]);
      if src in d && k == dst {
        assert e[k] == d[src];
      } else {
        assert k in d && e[k] == d[k] && k != src;
      }
    }
  }

  /** A rename keeps dictionaries keyed by name. */
  lemma RenameKeepsKeyed(ps: map<string, Parameter>, als: map<string, Alias>, cs: map<string, Constant>, src: string, dst: string)
    requires ParametersKeyed(ps) && AliasesKeyed(als) && ConstantsKeyed(cs)
    ensures ParametersKeyed(RenamedParameters(ps, src, dst))
    ensures AliasesKeyed(RenamedAliases(als, src, dst))
    ensures ConstantsKeyed(RenamedConstants(cs, src, dst))
  {
    RenamedKeyed(ps, (p: Parameter) => p.name, ParameterRenamer(src, dst), src, dst);
    RenamedKeyed(als, (a: Alias) => a.lhs, AliasRenamer(src, dst), src, dst);
    RenamedKeyed(cs, (c: Constant) => c.name, ConstantRenamer(src, dst), src, dst);
  }

  /** After renaming `src` to another name, `src` names no parameter, alias
      or constant, is no key of their dictionaries, and is no free symbol of
      any alias. */
  lemma RenameRemovesSymbol(ps: map<string, Parameter>, als: map<string, Alias>, cs: map<string, Constant>, src: string, dst: string)
    requires src != dst
    requires ParametersKeyed(ps) && AliasesKeyed(als) && ConstantsKeyed(cs)
    ensures src !in RenamedParameters(ps, src, dst) && src !in RenamedAliases(als, src, dst) && src !in RenamedConstants(cs, src, dst)
    ensures forall k :: k in RenamedParameters(ps, src, dst) ==> RenamedParameters(ps, src, dst)[k].name != src
    ensures forall k :: k in RenamedConstants(cs, src, dst) ==> RenamedConstants(cs, src, dst)[k].name != src
    ensures forall k :: k in RenamedAliases(als, src, dst) ==>
      RenamedAliases(als, src, dst)[k].lhs != src && src !in FreeSymbols(RenamedAliases(als, src, dst)[k].rhs)
  {
    ParametersLoseSymbol(ps, src, dst);
    ConstantsLoseSymbol(cs, src, dst);
    AliasesLoseSymbol(als, src, dst);
  }

  lemma ParametersLoseSymbol(ps: map<string, Parameter>, src: string, dst: string)
    requires src != dst && ParametersKeyed(ps)
    ensures var r := RenamedParameters(ps, src, dst); src !in r && forall k :: k in r ==> r[k].name != src
  {
    RekeyedMeaning(ps, src, dst);
  }

  lemma ConstantsLoseSymbol(cs: map<string, Constant>, src: string, dst: string)
    requires src != dst && ConstantsKeyed(cs)
    ensures var r := RenamedConstants(cs, src, dst); src !in r && forall k :: k in r ==> r[k].name != src
  {
    RekeyedMeaning(cs, src, dst);
  }

  lemma AliasesLoseSymbol(als: map<string, Alias>, src: string, dst: string)
    requires src != dst && AliasesKeyed(als)
    ensures var r := RenamedAliases(als, src, dst);
      src !in r && forall k :: k in r ==> r[k].lhs != src && src !in FreeSymbols(r[k].rhs)
  {
    RekeyedMeaning(als, src, dst);
    var e := Rekeyed(als, src, dst);
    var r := RenamedAliases(als, src, dst);
    forall k | k in r
      ensures r[k].lhs != src && src !in FreeSymbols(r[k].rhs)
    {
      AliasActionMeaning(e[k], src, dst);
    }
  }

  /** Where a change was noted. */
  datatype Where = InParameters(key: string) | InAliases(key: string) | InConstants(key: string)

  /** The LHS and RHS changes noted by a rename (`lhs_changes`,
      `rhs_changes`), as sets: the order follows the visitor's walk over
      the dictionaries. */
  datatype Changes = Changes(lhs: set<Where>, rhs: set<Where>)

  function NotedChanges(ps: map<string, Parameter>, als: map<string, Alias>, cs: map<string, Constant>, src: string, dst: string, c: Change): set<Where>
  {
    (set k | k in ps && ParameterAction(ps[k], src, dst).1 == c :: InParameters(k)) +
    (set k | k in als && AliasAction(als[k], src, dst).1 == c :: InAliases(k)) +
    (set k | k in cs && ConstantAction(cs[k], src, dst).1 == c :: InConstants(k))
  }

  /** The LHS changes noted are exactly the elements named `src`. */
  lemma NotedLhsChanges(ps: map<string, Parameter>, als: map<string, Alias>, cs: map<string, Constant>, src: string, dst: string, w: Where)
    requires src != dst
    ensures w in NotedChanges(ps, als, cs, src, dst, LhsChange) <==>
      match w
      case InParameters(k) => k in ps && ps[k].name == src
      case InAliases(k) => k in als && als[k].lhs == src
      case InConstants(k) => k in cs && cs[k].name == src
  {
    if w.InAliases? && w.key in als {
      AliasActionMeaning(als[w.key], src, dst);
    }
  }

  /** The RHS changes noted are exactly the aliases that use `src` without
      defining it. */
  lemma NotedRhsChanges(ps: map<string, Parameter>, als: map<string, Alias>, cs: map<string, Constant>, src: string, dst: string, w: Where)
    requires src != dst
    ensures w in NotedChanges(ps, als, cs, src, dst, RhsChange) <==>
      w.InAliases? && w.key in als && als[w.key].lhs != src && src in Atoms(als[w.key].rhs)
  {
    if w.InAliases? && w.key in als {
      AliasActionMeaning(als[w.key], src, dst);
    }
  }

  class ComponentClass {
    var flat: bool
    var parameters: map<string, Parameter>
    /** `_indices`: per element type, the index of each element by name. */
    var indices: map<string, map<string, nat>>
    var aliases: map<string, Alias>
    var constants: map<string, Constant>

    constructor (flat: bool, parameters: map<string, Parameter>, indices: map<string, map<string, nat>>,
                 aliases: map<string, Alias>, constants: map<string, Constant>)
      ensures this.flat == flat && this.parameters == parameters && this.indices == indices
      ensures this.aliases == aliases && this.constants == constants
    {
      this.flat := flat;
      this.parameters := parameters;
      this.indices := indices;
      this.aliases := aliases;
      this.constants := constants;
    }

    predicate Keyed()
      reads this
    {
      ParametersKeyed(parameters) && AliasesKeyed(aliases) && ConstantsKeyed(constants)
    }

    /** The loop of `_update_dicts` over the index dictionaries, in
        whatever order they are walked. */
    method UpdateIndexDicts(src: string, dst: string)
      modifies this
      ensures indices == RekeyedAll(old(indices), src, dst)
      ensures flat == old(flat) && parameters == old(parameters) && aliases == old(aliases) && constants == old(constants)
    {
      var before := indices;
      var result: map<string, map<string, nat>> := map[];
      var todo := before.Keys;
      while todo != {}
        invariant todo <= before.Keys && result.Keys == before.Keys - todo
        invariant forall kind :: kind in result ==> result[kind] == Rekeyed(before[kind], src, dst)
        decreases |todo|
      {
        var kind :| kind in todo;
        result := result[kind := Rekeyed(before[kind], src, dst)];
        todo := todo - {kind};
      }
      indices := result;
    }

    /** `action_componentclass` as written: the dictionaries chained are the
        parameters and the index dictionaries, followed by the KEYS of the
        alias and constant dictionaries (iterating a dictionary yields its
        keys), so the `isinstance(d, dict)` assertion fails on the first
        alias or constant name, after the parameters and indices have been
        re-keyed. */
    method UpdateDictsAsWritten(src: string, dst: string) returns (r: Result<()>)
      modifies this
      ensures r.Ok? <==> old(aliases) == map[] && old(constants) == map[]
      ensures r.Err? ==> r.error == AssertionFailed
      ensures parameters == Rekeyed(old(parameters), src, dst) && indices == RekeyedAll(old(indices), src, dst)
      ensures aliases == old(aliases) && constants == old(constants) && flat == old(flat)
    {
      parameters := Rekeyed(parameters, src, dst);
      UpdateIndexDicts(src, dst);
      if aliases != map[] || constants != map[] {
        return Err(AssertionFailed);
      }
      r := Ok(());
    }

    /** `action_componentclass` as evidently intended: the parameter,
        index, alias and constant dictionaries are all re-keyed. */
    method UpdateDicts(src: string, dst: string)
      modifies this
      ensures parameters == Rekeyed(old(parameters), src, dst) && indices == RekeyedAll(old(indices), src, dst)
      ensures aliases == Rekeyed(old(aliases), src, dst) && constants == Rekeyed(old(constants), src, dst)
      ensures flat == old(flat)
    {
      parameters := Rekeyed(parameters, src, dst);
      UpdateIndexDicts(src, dst);
      aliases := Rekeyed(aliases, src, dst);
      constants := Rekeyed(constants, src, dst);
    }
  }

  /** A component class with a single alias makes the as-written
      `action_componentclass` fail. */
  method AliasBreaksUpdateDictsAsWritten() returns (r: Result<()>)
    ensures r == Err(AssertionFailed)
  {
    var cc := new ComponentClass(true, map[], map[], map["v" := Alias("v", Sym("x"))], map[]);
    assert "v" in cc.aliases;
    r := cc.UpdateDictsAsWritten("x", "y");
  }

  /** The visit of the parameters, aliases and constants, after the
      dictionaries were re-keyed: each gets its action, and the changes are
      noted. */
  method VisitElements(cc: ComponentClass, src: string, dst: string) returns (changes: Changes)
    modifies cc
    ensures cc.parameters == MapValues(old(cc.parameters), ParameterRenamer(src, dst))
    ensures cc.aliases == MapValues(old(cc.aliases), AliasRenamer(src, dst))
    ensures cc.constants == MapValues(old(cc.constants), ConstantRenamer(src, dst))
    ensures cc.indices == old(cc.indices) && cc.flat == old(cc.flat)
    ensures changes == Changes(
      NotedChanges(old(cc.parameters), old(cc.aliases), old(cc.constants), src, dst, LhsChange),
      NotedChanges(old(cc.parameters), old(cc.aliases), old(cc.constants), src, dst, RhsChange))
  {
    var ps, als, cs := cc.parameters, cc.aliases, cc.constants;
    changes := Changes(NotedChanges(ps, als, cs, src, dst, LhsChange), NotedChanges(ps, als, cs, src, dst, RhsChange));
    cc.parameters := MapValues(ps, ParameterRenamer(src, dst));
    cc.aliases := MapValues(als, AliasRenamer(src, dst));
    cc.constants := MapValues(cs, ConstantRenamer(src, dst));
  }

  /** `ComponentRenameSymbol(componentclass, src, dst)`: a class that is not
      flat is refused before anything changes; otherwise the dictionaries
      are re-keyed (as intended) and every parameter, alias and constant is
      visited. */
  method ComponentRenameSymbol(cc: ComponentClass, src: string, dst: string) returns (r: Result<Changes>)
    modifies cc
    ensures !old(cc.flat) ==> r == Err(RuntimeError)
    ensures !old(cc.flat) ==>
      cc.parameters == old(cc.parameters) && cc.indices == old(cc.indices) &&
      cc.aliases == old(cc.aliases) && cc.constants == old(cc.constants)
    ensures old(cc.flat) ==> r.Ok?
    ensures old(cc.flat) ==> cc.parameters == RenamedParameters(old(cc.parameters), src, dst)
    ensures old(cc.flat) ==> cc.indices == RekeyedAll(old(cc.indices), src, dst)
    ensures old(cc.flat) ==> cc.aliases == RenamedAliases(old(cc.aliases), src, dst)
    ensures old(cc.flat) ==> cc.constants == RenamedConstants(old(cc.constants), src, dst)
    ensures r.Ok? ==> r.value == Changes(
      NotedChanges(Rekeyed(old(cc.parameters), src, dst), Rekeyed(old(cc.aliases), src, dst), Rekeyed(old(cc.constants), src, dst), src, dst, LhsChange),
      NotedChanges(Rekeyed(old(cc.parameters), src, dst), Rekeyed(old(cc.aliases), src, dst), Rekeyed(old(cc.constants), src, dst), src, dst, RhsChange))
    ensures cc.flat == old(cc.flat)
  {
    if !cc.flat {
      return Err(RuntimeError);
    }
    cc.UpdateDicts(src, dst);
    var changes := VisitElements(cc, src, dst);
    r := Ok(changes);
  }
}
