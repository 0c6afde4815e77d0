/** `DynamicPortModifier` and `DynamicsRenameSymbol`: closing, renaming and
    remapping the analog ports of a flat dynamics class, and renaming one
    symbol throughout its ports, state variables and regimes. */
module DynamicsModifiers {
  import opened Wrappers
  import opened Expressions
  import opened Ports
  import opened ComponentModifiers

  datatype StateVariable = StateVariable(name: string, dimension: string)

  /** `d(dependent)/d(independent) = rhs`; the dependent and independent
      variables are its left-hand-side atoms. */
  datatype TimeDerivative = TimeDerivative(dependent: string, independent: string, rhs: Expr)

  datatype StateAssignment = StateAssignment(lhs: string, rhs: Expr)
  datatype OutputEvent = OutputEvent(portName: string)

  /** What fires a transition: an event arriving on a receive port
      (`OnEvent`) or a trigger condition becoming true (`OnCondition`). */
  datatype Guard = OnEventFrom(srcPortName: string) | OnConditionOf(trigger: Expr)

  /** A transition with its state assignments keyed by left-hand side and
      its output events keyed by port name. */
  datatype Transition = Transition(guard: Guard, assignments: map<string, StateAssignment>,
                                   outputs: map<string, OutputEvent>, target: string)

  /** A regime: its time derivatives keyed by dependent variable, and its
      transitions. */
  datatype Regime = Regime(timeDerivatives: map<string, TimeDerivative>, transitions: seq<Transition>)

  // ---------------------------------------------------------------------
  // The per-element actions of `DynamicsRenameSymbol`

  /** `_action_port`: a port named `src` is renamed, as a port change. */
  function PortAction(p: Port, src: string, dst: string): (Port, Change)
  {
    if p.name == src then (p.(name := dst), PortChange) else (p, NoChange)
  }

  /** `action_statevariable`: a state variable named `src` is renamed, as
      an LHS change. */
  function StateVariableAction(sv: StateVariable, src: string, dst: string): (StateVariable, Change)
  {
    if sv.name == src then (sv.(name := dst), LhsChange) else (sv, NoChange)
  }

  /** `action_outputevent`: an output event on port `src` moves to `dst`,
      as an RHS change. */
  function OutputEventAction(oe: OutputEvent, src: string, dst: string): (OutputEvent, Change)
  {
    if oe.portName == src then (OutputEvent(dst), RhsChange) else (oe, NoChange)
  }

  /** `action_assignment`: when `src` is among the atoms of the assignment
      (its right-hand-side atoms and its left-hand side) the name map is
      applied to both sides, as an RHS change. */
  function AssignmentAction(a: StateAssignment, src: string, dst: string): (StateAssignment, Change)
  {
    if src in Atoms(a.rhs) + {a.lhs} then (StateAssignment(MapName(a.lhs, src, dst), RenameSymbol(a.rhs, src, dst)), RhsChange)
    else (a, NoChange)
  }

  /** `name_transform_inplace` on a time derivative: both variables and the
      right-hand side. */
  function RenamedDerivative(td: TimeDerivative, src: string, dst: string): TimeDerivative
  {
    TimeDerivative(MapName(td.dependent, src, dst), MapName(td.independent, src, dst), RenameSymbol(td.rhs, src, dst))
  }

  /** `action_timederivative`: the derivative of `src` is an LHS change;
      otherwise one whose atoms contain `src` is an RHS change. */
  function TimeDerivativeAction(td: TimeDerivative, src: string, dst: string): (TimeDerivative, Change)
  {
    if td.dependent == src then (RenamedDerivative(td, src, dst), LhsChange)
    else if src in Atoms(td.rhs) + {td.dependent, td.independent} then (RenamedDerivative(td, src, dst), RhsChange)
    else (td, NoChange)
  }

  /** `action_trigger`: a trigger whose atoms contain `src` is renamed, as
      an RHS change. */
  function TriggerAction(trigger: Expr, src: string, dst: string): (Expr, Change)
  {
    if src in Atoms(trigger) then (RenameSymbol(trigger, src, dst), RhsChange) else (trigger, NoChange)
  }

  /** `action_onevent` as written: an OnEvent listening on `src` is noted
      as an RHS change, but the new name is stored in `_port_name`, which an
      OnEvent does not read; its source port name stays `src`. */
  function OnEventActionAsWritten(srcPortName: string, src: string, dst: string): (string, Change)
  {
    if srcPortName == src then (srcPortName, RhsChange) else (srcPortName, NoChange)
  }

  /** `action_onevent` as intended: the source port name is renamed. */
  function OnEventAction(srcPortName: string, src: string, dst: string): (string, Change)
  {
    if srcPortName == src then (dst, RhsChange) else (srcPortName, NoChange)
  }

  /** The action on what fires a transition (`action_oncondition` itself
      does nothing; its trigger gets `action_trigger`). */
  function GuardAction(g: Guard, src: string, dst: string): (Guard, Change)
  {
    match g
    case OnEventFrom(p) => (OnEventFrom(OnEventAction(p, src, dst).0), OnEventAction(p, src, dst).1)
    case OnConditionOf(t) => (OnConditionOf(TriggerAction(t, src, dst).0), TriggerAction(t, src, dst).1)
  }

  /** A transition after its children were visited. Its assignment and
      output-event dictionaries keep their keys: nothing re-keys them. */
  function RenamedTransition(t: Transition, src: string, dst: string): Transition
  {
    Transition(GuardAction(t.guard, src, dst).0,
               map k | k in t.assignments :: AssignmentAction(t.assignments[k], src, dst).0,
               map k | k in t.outputs :: OutputEventAction(t.outputs[k], src, dst).0, t.target)
  }

  /** `action_regime` re-keys the time derivatives; then every time
      derivative and every transition is visited. */
  function RenamedRegime(r: Regime, src: string, dst: string): Regime
  {
    var tds := Rekeyed(r.timeDerivatives, src, dst);
    Regime(map k | k in tds :: TimeDerivativeAction(tds[k], src, dst).0,
           seq(|r.transitions|, i requires 0 <= i < |r.transitions| => RenamedTransition(r.transitions[i], src, dst)))
  }

  function RenamedRegimes(regs: map<string, Regime>, src: string, dst: string): map<string, Regime>
  {
    map rn | rn in regs :: RenamedRegime(regs[rn], src, dst)
  }

  /** A port dictionary re-keyed and its ports visited. */
  function RenamedPorts(m: map<string, Port>, src: string, dst: string): map<string, Port>
  {
    var e := Rekeyed(m, src, dst);
    map k | k in e :: PortAction(e[k], src, dst).0
  }

  function RenamedStateVariables(m: map<string, StateVariable>, src: string, dst: string): map<string, StateVariable>
  {
    var e := Rekeyed(m, src, dst);
    map k | k in e :: StateVariableAction(e[k], src, dst).0
  }

  // ---------------------------------------------------------------------
  // What the actions mean

  /** Only a port named `src` is renamed and noted; nothing else about it
      changes. */
  lemma PortActionMeaning(p: Port, src: string, dst: string)
    ensures var r := PortAction(p, src, dst);
      (r.1 == PortChange <==> p.name == src) && (r.1 == NoChange <==> p.name != src) &&
      r.0.name == MapName(p.name, src, dst) && r.0.(name := p.name) == p
  {
  }

  lemma StateVariableActionMeaning(sv: StateVariable, src: string, dst: string)
    ensures var r := StateVariableAction(sv, src, dst);
      (r.1 == LhsChange <==> sv.name == src) && (r.1 == NoChange <==> sv.name != src) &&
      r.0 == StateVariable(MapName(sv.name, src, dst), sv.dimension)
  {
  }

  /** An output event on `src` is moved to `dst` and noted as an RHS
      change; any other is untouched. */
  lemma OutputEventActionMeaning(oe: OutputEvent, src: string, dst: string)
    ensures var r := OutputEventAction(oe, src, dst);
      (r.1 == RhsChange <==> oe.portName == src) && (r.1 == NoChange <==> oe.portName != src) &&
      r.0.portName == MapName(oe.portName, src, dst)
  {
  }

  /** An assignment is noted (always as an RHS change, even when `src` is
      its left-hand side) exactly when `src` is one of its atoms; afterwards
      `src` is neither its left-hand side nor free on its right-hand side,
      and every other free symbol is kept. */
  lemma AssignmentActionMeaning(a: StateAssignment, src: string, dst: string)
    requires src != dst
    ensures var r := AssignmentAction(a, src, dst);
      (r.1 == RhsChange <==> src in Atoms(a.rhs) || a.lhs == src) && (r.1 == NoChange ==> r.0 == a) &&
      r.0.lhs == MapName(a.lhs, src, dst) && r.0.lhs != src && src !in FreeSymbols(r.0.rhs) &&
      forall x :: x != src && x != dst ==> (x in FreeSymbols(r.0.rhs) <==> x in FreeSymbols(a.rhs))
  {
    RenameSymbolFree(a.rhs, src, dst);
  }

  /** The derivative of `src` is an LHS change; another derivative
      mentioning `src` (on the right-hand side or as the independent
      variable) is an RHS change; afterwards `src` is gone from it. */
  lemma TimeDerivativeActionMeaning(td: TimeDerivative, src: string, dst: string)
    requires src != dst
    ensures var r := TimeDerivativeAction(td, src, dst);
      (r.1 == LhsChange <==> td.dependent == src) &&
      (r.1 == RhsChange <==> td.dependent != src && (src in Atoms(td.rhs) || td.independent == src)) &&
      (r.1 == NoChange ==> r.0 == td) &&
      r.0.dependent == MapName(td.dependent, src, dst) && r.0.independent == MapName(td.independent, src, dst) &&
      r.0.dependent != src && r.0.independent != src && src !in FreeSymbols(r.0.rhs)
  {
    RenameSymbolFree(td.rhs, src, dst);
  }

  /** A trigger mentioning `src` is renamed and noted as an RHS change. */
  lemma TriggerActionMeaning(t: Expr, src: string, dst: string)
    requires src != dst
    ensures var r := TriggerAction(t, src, dst);
      (r.1 == RhsChange <==> src in Atoms(t)) && (r.1 == NoChange ==> r.0 == t) && src !in FreeSymbols(r.0)
  {
    RenameSymbolFree(t, src, dst);
  }

  /** As intended, an OnEvent listening on `src` listens on `dst`. */
  lemma OnEventActionMeaning(p: string, src: string, dst: string)
    ensures var r := OnEventAction(p, src, dst);
      (r.1 == RhsChange <==> p == src) && (r.1 == NoChange <==> p != src) && r.0 == MapName(p, src, dst)
  {
  }

  /** As written, an OnEvent on port `spike` is reported changed by a
      rename of `spike` to `in`, yet still listens on `spike`, which the
      re-keyed receive-port dictionary no longer holds. */
  lemma OnEventAsWrittenKeepsOldPort()
    ensures OnEventActionAsWritten("spike", "spike", "in") == ("spike", RhsChange)
    ensures var ports := map["spike" := Port(EventReceive, "spike", "", "", false)];
      "spike" !in RenamedPorts(ports, "spike", "in")
  {
    var ports := map["spike" := Port(EventReceive, "spike", "", "", false)];
    RekeyedMeaning(ports, "spike", "in");
  }

  // ---------------------------------------------------------------------
  // What a rename leaves behind

  /** `name` occurs nowhere in a transition: not as the port of an output
      event or of the OnEvent, nor as an assigned variable, nor free in an
      assigned value or a trigger. */
  ghost predicate TransitionFree(t: Transition, name: string)
  {
    (t.guard.OnEventFrom? ==> t.guard.srcPortName != name) &&
    (t.guard.OnConditionOf? ==> name !in FreeSymbols(t.guard.trigger)) &&
    (forall k :: k in t.assignments ==> t.assignments[k].lhs != name && name !in FreeSymbols(t.assignments[k].rhs)) &&
    (forall k :: k in t.outputs ==> t.outputs[k].portName != name)
  }

  ghost predicate RegimeFree(r: Regime, name: string)
  {
    name !in r.timeDerivatives &&
    (forall k :: k in r.timeDerivatives ==>
      r.timeDerivatives[k].dependent != name && r.timeDerivatives[k].independent != name &&
      name !in FreeSymbols(r.timeDerivatives[k].rhs)) &&
    (forall i :: 0 <= i < |r.transitions| ==> TransitionFree(r.transitions[i], name))
  }

  lemma RenamedTransitionFree(t: Transition, src: string, dst: string)
    requires src != dst
    ensures TransitionFree(RenamedTransition(t, src, dst), src)
  {
    var u := RenamedTransition(t, src, dst);
    if t.guard.OnConditionOf? {
      TriggerActionMeaning(t.guard.trigger, src, dst);
    }
    RenamedAssignmentsFree(t.assignments, src, dst);
    RenamedOutputsFree(t.outputs, src, dst);
  }

  lemma RenamedAssignmentsFree(m: map<string, StateAssignment>, src: string, dst: string)
    requires src != dst
    ensures var u := map k | k in m :: AssignmentAction(m[k], src, dst).0;
      forall k :: k in u ==> u[k].lhs != src && src !in FreeSymbols(u[k].rhs)
  {
    var u := map k | k in m :: AssignmentAction(m[k], src, dst).0;
    forall k | k in u
      ensures u[k].lhs != src && src !in FreeSymbols(u[k].rhs)
    {
      assert u[k] == AssignmentAction(m[k], src, dst).0;
      AssignmentActionMeaning(m[k], src, dst);
    }
  }

  lemma RenamedOutputsFree(m: map<string, OutputEvent>, src: string, dst: string)
    requires src != dst
    ensures var u := map k | k in m :: OutputEventAction(m[k], src, dst).0; forall k :: k in u ==> u[k].portName != src
  {
    var u := map k | k in m :: OutputEventAction(m[k], src, dst).0;
    forall k | k in u
      ensures u[k].portName != src
    {
      assert u[k] == OutputEventAction(m[k], src, dst).0;
    }
  }

  lemma RenamedRegimeFree(r: Regime, src: string, dst: string)
    requires src != dst
    ensures RegimeFree(RenamedRegime(r, src, dst), src)
  {
    var u := RenamedRegime(r, src, dst);
    var e := Rekeyed(r.timeDerivatives, src, dst);
    RekeyedMeaning(r.timeDerivatives, src, dst);
    forall k | k in u.timeDerivatives
      ensures u.timeDerivatives[k].dependent != src && u.timeDerivatives[k].independent != src &&
        src !in FreeSymbols(u.timeDerivatives[k].rhs)
    {
      TimeDerivativeActionMeaning(e[k], src, dst);
    }
    forall i | 0 <= i < |u.transitions|
      ensures TransitionFree(u.transitions[i], src)
    {
      RenamedTransitionFree(r.transitions[i], src, dst);
    }
  }

  /** After renaming `src` to another name, no port, state variable or
      regime of the class mentions `src`, nor is it a key of any of their
      dictionaries. */
  lemma RenameRemovesDynamicsSymbol(ports: map<string, Port>, svs: map<string, StateVariable>,
                                    regs: map<string, Regime>, src: string, dst: string)
    requires src != dst
    ensures src !in RenamedPorts(ports, src, dst) && src !in RenamedStateVariables(svs, src, dst)
    ensures forall k :: k in RenamedPorts(ports, src, dst) ==> RenamedPorts(ports, src, dst)[k].name != src
    ensures forall k :: k in RenamedStateVariables(svs, src, dst) ==> RenamedStateVariables(svs, src, dst)[k].name != src
    ensures forall k :: k in RenamedRegimes(regs, src, dst) ==> RegimeFree(RenamedRegimes(regs, src, dst)[k], src)
  {
    RekeyedMeaning(ports, src, dst);
    RekeyedMeaning(svs, src, dst);
    forall k | k in RenamedRegimes(regs, src, dst)
      ensures RegimeFree(RenamedRegimes(regs, src, dst)[k], src)
    {
      RenamedRegimeFree(regs[k], src, dst);
    }
  }

  /** A rename keeps the port and state-variable dictionaries keyed by
      name. */
  lemma RenameKeepsPortsKeyed(ports: map<string, Port>, svs: map<string, StateVariable>, src: string, dst: string)
    requires KeyedByName(ports) && forall k :: k in svs ==> svs[k].name == k
    ensures KeyedByName(RenamedPorts(ports, src, dst))
    ensures var r := RenamedStateVariables(svs, src, dst); forall k :: k in r ==> r[k].name == k
  {
    RekeyedMeaning(ports, src, dst);
    RekeyedMeaning(svs, src, dst);
  }

  /** Every OnEvent listens on a port of `receive`. */
  ghost predicate OnEventsBound(regs: map<string, Regime>, receive: map<string, Port>)
  {
    forall rn, i :: rn in regs && 0 <= i < |regs[rn].transitions| && regs[rn].transitions[i].guard.OnEventFrom? ==>
      regs[rn].transitions[i].guard.srcPortName in receive
  }

  /** With the intended OnEvent action, OnEvents still listen on existing
      receive ports after a rename. */
  lemma RenameKeepsOnEventsBound(regs: map<string, Regime>, receive: map<string, Port>, src: string, dst: string)
    requires OnEventsBound(regs, receive)
    ensures OnEventsBound(RenamedRegimes(regs, src, dst), RenamedPorts(receive, src, dst))
  {
    RekeyedKeys(receive, src, dst);
    var u := RenamedRegimes(regs, src, dst);
    forall rn, i | rn in u && 0 <= i < |u[rn].transitions| && u[rn].transitions[i].guard.OnEventFrom?
      ensures u[rn].transitions[i].guard.srcPortName in RenamedPorts(receive, src, dst)
    {
      var g := regs[rn].transitions[i].guard;
      assert u[rn].transitions[i] == RenamedTransition(regs[rn].transitions[i], src, dst);
      assert g.srcPortName in receive;
    }
  }

  // ---------------------------------------------------------------------
  // The changes `DynamicsRenameSymbol` notes

  /** Where a change was noted, besides the component-class part. */
  datatype Loc =
    | StateVariableAt(key: string)
    | PortAt(kind: PortKind, key: string)
    | TimeDerivativeAt(regime: string, key: string)
    | AssignmentAt(regime: string, index: nat, key: string)
    | OutputEventAt(regime: string, index: nat, key: string)
    | GuardAt(regime: string, index: nat)

  /** The changes of the component-class part, and those of the dynamics
      part as `note_lhs_changed`, `note_rhs_changed` and
      `note_port_changed` record them. */
  datatype DynamicsChanges = DynamicsChanges(component: Changes, lhs: set<Loc>, rhs: set<Loc>, port: set<Loc>)

  /** The ports of `m` (already re-keyed) that `_action_port` notes. */
  function PortChanges(kind: PortKind, m: map<string, Port>, src: string, dst: string): set<Loc>
  {
    set k | k in m && PortAction(m[k], src, dst).1 == PortChange :: PortAt(kind, k)
  }

  function StateVariableChanges(m: map<string, StateVariable>, src: string, dst: string): set<Loc>
  {
    set k | k in m && StateVariableAction(m[k], src, dst).1 == LhsChange :: StateVariableAt(k)
  }

  /** The changes of kind `c` noted inside regime `rn`, whose time
      derivatives are visited after re-keying. */
  function RegimeChanges(rn: string, r: Regime, src: string, dst: string, c: Change): set<Loc>
  {
    var tds := Rekeyed(r.timeDerivatives, src, dst);
    var ts := r.transitions;
    (set k | k in tds && TimeDerivativeAction(tds[k], src, dst).1 == c :: TimeDerivativeAt(rn, k)) +
    (set i: nat, k | i < |ts| && k in ts[i].assignments && AssignmentAction(ts[i].assignments[k], src, dst).1 == c :: AssignmentAt(rn, i, k)) +
    (set i: nat, k | i < |ts| && k in ts[i].outputs && OutputEventAction(ts[i].outputs[k], src, dst).1 == c :: OutputEventAt(rn, i, k)) +
    (set i: nat | i < |ts| && GuardAction(ts[i].guard, src, dst).1 == c :: GuardAt(rn, i))
  }

  function RegimesChanges(regs: map<string, Regime>, src: string, dst: string, c: Change): set<Loc>
  {
    set rn, l | rn in regs && l in RegimeChanges(rn, regs[rn], src, dst, c) :: l
  }

  /** What fires a transition never changes as an LHS. */
  lemma GuardNeverLhs(g: Guard, src: string, dst: string)
    ensures GuardAction(g, src, dst).1 != LhsChange
  {
    match g
    case OnEventFrom(p) =>
    case OnConditionOf(t) =>
  }

  /** The only LHS changes inside a regime are the time derivatives of
      `src`. */
  lemma RegimeLhsChangesAt(rn: string, r: Regime, src: string, dst: string, l: Loc)
    ensures l in RegimeChanges(rn, r, src, dst, LhsChange) <==>
      l.TimeDerivativeAt? && l.regime == rn && l.key in Rekeyed(r.timeDerivatives, src, dst) &&
      Rekeyed(r.timeDerivatives, src, dst)[l.key].dependent == src
  {
    if l.GuardAt? && l.index < |r.transitions| {
      GuardNeverLhs(r.transitions[l.index].guard, src, dst);
    }
  }

  /** Across the regimes, the LHS changes are exactly the time derivatives
      of `src`. */
  lemma RegimeLhsChanges(regs: map<string, Regime>, src: string, dst: string, l: Loc)
    ensures l in RegimesChanges(regs, src, dst, LhsChange) <==>
      l.TimeDerivativeAt? && l.regime in regs && l.key in Rekeyed(regs[l.regime].timeDerivatives, src, dst) &&
      Rekeyed(regs[l.regime].timeDerivatives, src, dst)[l.key].dependent == src
  {
    if l in RegimesChanges(regs, src, dst, LhsChange) {
      var rn :| rn in regs && l in RegimeChanges(rn, regs[rn], src, dst, LhsChange);
      RegimeLhsChangesAt(rn, regs[rn], src, dst, l);
    } else if l.TimeDerivativeAt? && l.regime in regs {
      RegimeLhsChangesAt(l.regime, regs[l.regime], src, dst, l);
    }
  }

  /** An OnEvent is an RHS change exactly when it listened on `src`. */
  lemma RegimeOnEventChanges(regs: map<string, Regime>, src: string, dst: string, rn: string, i: nat)
    requires rn in regs && i < |regs[rn].transitions| && regs[rn].transitions[i].guard.OnEventFrom?
    ensures GuardAt(rn, i) in RegimesChanges(regs, src, dst, RhsChange) <==> regs[rn].transitions[i].guard.srcPortName == src
  {
    if regs[rn].transitions[i].guard.srcPortName == src {
      assert GuardAt(rn, i) in RegimeChanges(rn, regs[rn], src, dst, RhsChange);
    }
  }

  /** An output event is an RHS change exactly when it was sent on
      `src`. */
  lemma RegimeOutputChanges(regs: map<string, Regime>, src: string, dst: string, rn: string, i: nat, k: string)
    requires rn in regs && i < |regs[rn].transitions| && k in regs[rn].transitions[i].outputs
    ensures OutputEventAt(rn, i, k) in RegimesChanges(regs, src, dst, RhsChange) <==> regs[rn].transitions[i].outputs[k].portName == src
  {
    if regs[rn].transitions[i].outputs[k].portName == src {
      assert OutputEventAt(rn, i, k) in RegimeChanges(rn, regs[rn], src, dst, RhsChange);
    }
  }

  // ---------------------------------------------------------------------
  // `close_analog_port`: substituting a value for the port's symbol

  function SubstitutedTransition(t: Transition, name: string, value: Expr): Transition
  {
    Transition(
      if t.guard.OnConditionOf? then OnConditionOf(Substitute(t.guard.trigger, name, value)) else t.guard,
      map k | k in t.assignments :: t.assignments[k].(rhs := Substitute(t.assignments[k].rhs, name, value)),
      t.outputs, t.target)
  }

  function SubstitutedRegime(r: Regime, name: string, value: Expr): Regime
  {
    Regime(map k | k in r.timeDerivatives :: r.timeDerivatives[k].(rhs := Substitute(r.timeDerivatives[k].rhs, name, value)),
           seq(|r.transitions|, i requires 0 <= i < |r.transitions| => SubstitutedTransition(r.transitions[i], name, value)))
  }

  /** `ExpandPortDefinition(name, value)`: `value` replaces the symbol
      `name` in every right-hand side of every regime. */
  function SubstitutedRegimes(regs: map<string, Regime>, name: string, value: Expr): map<string, Regime>
  {
    map rn | rn in regs :: SubstitutedRegime(regs[rn], name, value)
  }

  /** ... and of every alias. */
  function SubstitutedAliases(als: map<string, Alias>, name: string, value: Expr): map<string, Alias>
  {
    map k | k in als :: Alias(als[k].lhs, Substitute(als[k].rhs, name, value))
  }

  /** `name` is free in no right-hand side: no alias, time derivative,
      assigned value or trigger. */
  ghost predicate Unmentioned(als: map<string, Alias>, regs: map<string, Regime>, name: string)
  {
    (forall k :: k in als ==> name !in FreeSymbols(als[k].rhs)) &&
    (forall rn, k :: rn in regs && k in regs[rn].timeDerivatives ==> name !in FreeSymbols(regs[rn].timeDerivatives[k].rhs)) &&
    (forall rn, i :: rn in regs && 0 <= i < |regs[rn].transitions| && regs[rn].transitions[i].guard.OnConditionOf? ==>
      name !in FreeSymbols(regs[rn].transitions[i].guard.trigger)) &&
    (forall rn, i, k :: rn in regs && 0 <= i < |regs[rn].transitions| && k in regs[rn].transitions[i].assignments ==>
      name !in FreeSymbols(regs[rn].transitions[i].assignments[k].rhs))
  }

  /** Substituting a value free of `m` for `name` leaves `m` unmentioned
      when it is `name` itself or was unmentioned before. */
  lemma SubstitutionUnmentions(als: map<string, Alias>, regs: map<string, Regime>, name: string, value: Expr, m: string)
    requires m !in FreeSymbols(value)
    requires m == name || Unmentioned(als, regs, m)
    ensures Unmentioned(SubstitutedAliases(als, name, value), SubstitutedRegimes(regs, name, value), m)
  {
    var als' := SubstitutedAliases(als, name, value);
    var regs' := SubstitutedRegimes(regs, name, value);
    forall k | k in als'
      ensures m !in FreeSymbols(als'[k].rhs)
    {
      SubstituteKeeps(als[k].rhs, name, value, m);
    }
    forall rn, k | rn in regs' && k in regs'[rn].timeDerivatives
      ensures m !in FreeSymbols(regs'[rn].timeDerivatives[k].rhs)
    {
      SubstituteKeeps(regs[rn].timeDerivatives[k].rhs, name, value, m);
    }
    forall rn, i | rn in regs' && 0 <= i < |regs'[rn].transitions| && regs'[rn].transitions[i].guard.OnConditionOf?
      ensures m !in FreeSymbols(regs'[rn].transitions[i].guard.trigger)
    {
      SubstituteKeeps(regs[rn].transitions[i].guard.trigger, name, value, m);
    }
    forall rn, i, k | rn in regs' && 0 <= i < |regs'[rn].transitions| && k in regs'[rn].transitions[i].assignments
      ensures m !in FreeSymbols(regs'[rn].transitions[i].assignments[k].rhs)
    {
      SubstituteKeeps(regs[rn].transitions[i].assignments[k].rhs, name, value, m);
    }
  }

  lemma SubstituteKeeps(e: Expr, name: string, value: Expr, m: string)
    requires m !in FreeSymbols(value) && (m == name || m !in FreeSymbols(e))
    ensures m !in FreeSymbols(Substitute(e, name, value))
  {
    if name in FreeSymbols(value) {
      SubstituteWith(e, name, value);
    } else {
      SubstituteFree(e, name, value);
    }
  }

  /** The free symbols of a substitution, whether or not `value` mentions
      `name`. */
  lemma {:induction false} SubstituteWith(e: Expr, name: string, value: Expr)
    ensures FreeSymbols(Substitute(e, name, value)) <= (FreeSymbols(e) - {name}) + FreeSymbols(value)
  {
    match e
    case Num(_) =>
    case Sym(_) =>
    case Not(a) => SubstituteWith(a, name, value);
    case Bin(_, l, r) => SubstituteWith(l, name, value); SubstituteWith(r, name, value);
    case Call(_, a) => SubstituteWith(a, name, value);
  }

  // ---------------------------------------------------------------------
  // The class and the modifiers

  /** How many of the analog port dictionaries hold a port named `name`:
      what `filter_expect_single` over `analog_ports` counts. */
  function AnalogCount(send: map<string, Port>, receive: map<string, Port>, reduce: map<string, Port>, name: string): nat
  {
    (if name in send then 1 else 0) + (if name in receive then 1 else 0) + (if name in reduce then 1 else 0)
  }

  /** A dynamics class: its component-class part (parameters, indices,
      aliases, constants, flatness), its five port dictionaries, its state
      variables and its regimes. */
  class DynamicsClass {
    const component: ComponentClass
    var analogSend: map<string, Port>
    var analogReceive: map<string, Port>
    var analogReduce: map<string, Port>
    var eventSend: map<string, Port>
    var eventReceive: map<string, Port>
    var stateVariables: map<string, StateVariable>
    var regimes: map<string, Regime>

    constructor (component: ComponentClass, analogSend: map<string, Port>, analogReceive: map<string, Port>,
                 analogReduce: map<string, Port>, eventSend: map<string, Port>, eventReceive: map<string, Port>,
                 stateVariables: map<string, StateVariable>, regimes: map<string, Regime>)
      ensures this.component == component
      ensures this.analogSend == analogSend && this.analogReceive == analogReceive && this.analogReduce == analogReduce
      ensures this.eventSend == eventSend && this.eventReceive == eventReceive
      ensures this.stateVariables == stateVariables && this.regimes == regimes
    {
      this.component := component;
      this.analogSend := analogSend;
      this.analogReceive := analogReceive;
      this.analogReduce := analogReduce;
      this.eventSend := eventSend;
      this.eventReceive := eventReceive;
      this.stateVariables := stateVariables;
      this.regimes := regimes;
    }

    /** What closing analog ports leaves alone: the event ports, the state
        variables, and the component-class part other than the aliases. */
    function Untouched(): (map<string, Port>, map<string, Port>, map<string, StateVariable>, bool,
                           map<string, Parameter>, map<string, map<string, nat>>, map<string, Constant>)
      reads this, component
    {
      (eventSend, eventReceive, stateVariables, component.flat, component.parameters, component.indices, component.constants)
    }

    /** The analog port dictionaries are keyed by the ports' names. */
    predicate AnalogKeyed()
      reads this
    {
      KeyedByName(analogSend) && KeyedByName(analogReceive) && KeyedByName(analogReduce)
    }
  }

  /** `close_analog_port(componentclass, port_name, value)`: refused on a
      class that is not flat; otherwise `value` is substituted for the
      port's symbol everywhere, and then the single analog port of that
      name is removed from the dictionary of its kind. */
  method CloseAnalogPort(dc: DynamicsClass, name: string, value: Expr) returns (r: Result<()>)
    requires dc.AnalogKeyed()
    modifies dc, dc.component
    ensures !old(dc.component.flat) ==>
      r == Err(RuntimeError) && dc.component.aliases == old(dc.component.aliases) &&
      dc.regimes == old(dc.regimes) && dc.analogSend == old(dc.analogSend) &&
      dc.analogReceive == old(dc.analogReceive) && dc.analogReduce == old(dc.analogReduce)
    ensures old(dc.component.flat) ==>
      dc.component.aliases == SubstitutedAliases(old(dc.component.aliases), name, value) &&
      dc.regimes == SubstitutedRegimes(old(dc.regimes), name, value)
    ensures old(dc.component.flat) ==>
      (r.Ok? <==> AnalogCount(old(dc.analogSend), old(dc.analogReceive), old(dc.analogReduce), name) == 1)
    ensures r.Ok? ==> dc.analogSend == if name in old(dc.analogSend) then old(dc.analogSend) - {name} else old(dc.analogSend)
    ensures r.Ok? ==> dc.analogReceive == if name in old(dc.analogReceive) then old(dc.analogReceive) - {name} else old(dc.analogReceive)
    ensures r.Ok? ==> dc.analogReduce == if name in old(dc.analogReduce) then old(dc.analogReduce) - {name} else old(dc.analogReduce)
    ensures r.Err? ==>
      r.error == RuntimeError && dc.analogSend == old(dc.analogSend) &&
      dc.analogReceive == old(dc.analogReceive) && dc.analogReduce == old(dc.analogReduce)
    ensures dc.AnalogKeyed()
    ensures dc.Untouched() == old(dc.Untouched())
  {
    if !dc.component.flat {
      return Err(RuntimeError);
    }
    dc.component.aliases := SubstitutedAliases(dc.component.aliases, name, value);
    dc.regimes := SubstitutedRegimes(dc.regimes, name, value);
    if AnalogCount(dc.analogSend, dc.analogReceive, dc.analogReduce, name) != 1 {
      return Err(RuntimeError);
    }
    if name in dc.analogSend {
      dc.analogSend := dc.analogSend - {name};
    } else if name in dc.analogReceive {
      dc.analogReceive := dc.analogReceive - {name};
    } else {
      dc.analogReduce := dc.analogReduce - {name};
    }
    r := Ok(());
  }

  /** Closing a port with a value that does not mention it leaves its
      symbol free in no right-hand side. */
  lemma ClosedPortUnmentioned(als: map<string, Alias>, regs: map<string, Regime>, name: string, value: Expr)
    requires name !in FreeSymbols(value)
    ensures Unmentioned(SubstitutedAliases(als, name, value), SubstitutedRegimes(regs, name, value), name)
  {
    SubstitutionUnmentions(als, regs, name, value, name);
  }

  /** None of `names` is free in any right-hand side. */
  ghost predicate AllUnmentioned(als: map<string, Alias>, regs: map<string, Regime>, names: set<string>)
  {
    forall k :: k in names ==> Unmentioned(als, regs, k)
  }

  /** Closing one more port with the value 0 keeps the ports closed
      earlier unmentioned and adds it to them. */
  lemma ClosingUnmentions(als: map<string, Alias>, regs: map<string, Regime>, closed: set<string>, n: string)
    requires AllUnmentioned(als, regs, closed)
    ensures AllUnmentioned(SubstitutedAliases(als, n, Num(0)), SubstitutedRegimes(regs, n, Num(0)), closed + {n})
  {
    forall k | k in closed + {n}
      ensures Unmentioned(SubstitutedAliases(als, n, Num(0)), SubstitutedRegimes(regs, n, Num(0)), k)
    {
      SubstitutionUnmentions(als, regs, n, Num(0), k);
    }
  }

  /** A dictionary without the keys `ks`. */
  function Without(m: map<string, Port>, ks: set<string>): map<string, Port>
  {
    map k | k in m && k !in ks :: m[k]
  }

  lemma WithoutOneMore(m: map<string, Port>, ks: set<string>, n: string)
    ensures Without(m, ks) - {n} == Without(m, ks + {n})
  {
  }

  /** The reduce ports `close_all_reduce_ports(componentclass, exclude)`
      keeps. */
  function KeptReducePorts(reduce: map<string, Port>, exclude: set<string>): map<string, Port>
  {
    map k | k in reduce && k in exclude :: reduce[k]
  }

  /** `close_all_reduce_ports(componentclass, exclude)`: every reduce port
      not in `exclude` is closed with the value 0, in whatever order the
      ports come. It fails when a reduce port's name is also the name of a
      send or receive port, as `filter_expect_single` then finds two. */
  method CloseAllReducePorts(dc: DynamicsClass, exclude: set<string>) returns (r: Result<()>)
    requires dc.AnalogKeyed()
    modifies dc, dc.component
    ensures !old(dc.component.flat) ==>
      r == Err(RuntimeError) && dc.analogReduce == old(dc.analogReduce) &&
      dc.component.aliases == old(dc.component.aliases) && dc.regimes == old(dc.regimes)
    ensures old(dc.component.flat) ==>
      (r.Ok? <==> forall k :: k in old(dc.analogReduce) && k !in exclude ==> k !in old(dc.analogSend) && k !in old(dc.analogReceive))
    ensures r.Err? ==> r.error == RuntimeError
    ensures r.Ok? ==> dc.analogReduce == KeptReducePorts(old(dc.analogReduce), exclude)
    ensures r.Ok? ==> AllUnmentioned(dc.component.aliases, dc.regimes, old(dc.analogReduce).Keys - exclude)
    ensures dc.AnalogKeyed()
    ensures dc.analogSend == old(dc.analogSend) && dc.analogReceive == old(dc.analogReceive)
    ensures dc.Untouched() == old(dc.Untouched())
  {
    if !dc.component.flat {
      return Err(RuntimeError);
    }
    var reduce := dc.analogReduce;
    var todo := reduce.Keys;
    var closed: set<string> := {};
    while todo != {}
      invariant todo <= reduce.Keys && closed <= reduce.Keys && closed !! todo && closed !! exclude
      invariant forall k :: k in reduce && k !in todo ==> k in closed || k in exclude
      invariant dc.AnalogKeyed() && dc.component.flat
      invariant dc.analogReduce == Without(reduce, closed)
      invariant dc.analogSend == old(dc.analogSend) && dc.analogReceive == old(dc.analogReceive)
      invariant forall k :: k in closed ==> k !in dc.analogSend && k !in dc.analogReceive
      invariant AllUnmentioned(dc.component.aliases, dc.regimes, closed)
      invariant dc.Untouched() == old(dc.Untouched())
      decreases |todo|
    {
      var n :| n in todo;
      todo := todo - {n};
      if n in exclude {
        continue;
      }
      ghost var als, regs := dc.component.aliases, dc.regimes;
      var c := CloseAnalogPort(dc, n, Num(0));
      if c.Err? {
        assert n in dc.analogSend || n in dc.analogReceive;
        return c;
      }
      ClosingUnmentions(als, regs, closed, n);
      WithoutOneMore(reduce, closed, n);
      closed := closed + {n};
    }
    assert KeptReducePorts(reduce, exclude) == Without(reduce, closed);
    assert closed == reduce.Keys - exclude;
    r := Ok(());
  }

  /** `rename_port` as written: the single analog port named `oldName` gets
      the name `newName`, but stays in its dictionary under `oldName`. */
  method RenamePortAsWritten(dc: DynamicsClass, oldName: string, newName: string) returns (r: Result<()>)
    requires dc.AnalogKeyed()
    modifies dc
    ensures !dc.component.flat ==> r == Err(RuntimeError)
    ensures dc.component.flat ==> (r.Ok? <==> AnalogCount(old(dc.analogSend), old(dc.analogReceive), old(dc.analogReduce), oldName) == 1)
    ensures r.Err? ==>
      r.error == RuntimeError && dc.analogSend == old(dc.analogSend) &&
      dc.analogReceive == old(dc.analogReceive) && dc.analogReduce == old(dc.analogReduce)
    ensures r.Ok? && oldName in old(dc.analogSend) ==> dc.analogSend == old(dc.analogSend)[oldName := old(dc.analogSend)[oldName].(name := newName)]
    ensures r.Ok? && oldName in old(dc.analogReceive) ==> dc.analogReceive == old(dc.analogReceive)[oldName := old(dc.analogReceive)[oldName].(name := newName)]
    ensures r.Ok? && oldName in old(dc.analogReduce) ==> dc.analogReduce == old(dc.analogReduce)[oldName := old(dc.analogReduce)[oldName].(name := newName)]
    ensures r.Ok? && oldName !in old(dc.analogSend) ==> dc.analogSend == old(dc.analogSend)
    ensures r.Ok? && oldName !in old(dc.analogReceive) ==> dc.analogReceive == old(dc.analogReceive)
    ensures r.Ok? && oldName !in old(dc.analogReduce) ==> dc.analogReduce == old(dc.analogReduce)
    ensures dc.eventSend == old(dc.eventSend) && dc.eventReceive == old(dc.eventReceive)
    ensures dc.stateVariables == old(dc.stateVariables) && dc.regimes == old(dc.regimes)
  {
    if !dc.component.flat {
      return Err(RuntimeError);
    }
    if AnalogCount(dc.analogSend, dc.analogReceive, dc.analogReduce, oldName) != 1 {
      return Err(RuntimeError);
    }
    if oldName in dc.analogSend {
      dc.analogSend := dc.analogSend[oldName := dc.analogSend[oldName].(name := newName)];
    } else if oldName in dc.analogReceive {
      dc.analogReceive := dc.analogReceive[oldName := dc.analogReceive[oldName].(name := newName)];
    } else {
      dc.analogReduce := dc.analogReduce[oldName := dc.analogReduce[oldName].(name := newName)];
    }
    r := Ok(());
  }

  /** A flat class with one analog receive port `I`: renaming it to `J` as
      written leaves the receive-port dictionary no longer keyed by name. */
  method RenamePortAsWrittenUnkeys() returns (keyed: bool)
    ensures !keyed
  {
    var cc := new ComponentClass(true, map[], map[], map[], map[]);
    var port := Port(AnalogReceive, "I", "current", "", false);
    var dc := new DynamicsClass(cc, map[], map["I" := port], map[], map[], map[], map[], map[]);
    var r := RenamePortAsWritten(dc, "I", "J");
    assert dc.analogReceive["I"].name == "J";
    keyed := KeyedByName(dc.analogReceive);
  }

  /** The port `oldName` of a dictionary moved to the key `newName`, under
      its new name. */
  function MovedPort(m: map<string, Port>, oldName: string, newName: string): map<string, Port>
    requires oldName in m
  {
    (m - {oldName})[newName := m[oldName].(name := newName)]
  }

  /** Moving a port keeps a dictionary keyed by name; the port is found
      under its new name and no longer under its old one. */
  lemma MovedPortKeyed(m: map<string, Port>, oldName: string, newName: string)
    requires oldName in m && KeyedByName(m)
    ensures var r := MovedPort(m, oldName, newName);
      KeyedByName(r) && newName in r && (oldName != newName ==> oldName !in r) &&
      r[newName] == m[oldName].(name := newName) &&
      forall k :: k in m && k != oldName && k != newName ==> k in r && r[k] == m[k]
  {
  }

  /** `rename_port` as intended: the single analog port named `oldName` is
      renamed and moved to the key `newName` of its dictionary. */
  method RenamePort(dc: DynamicsClass, oldName: string, newName: string) returns (r: Result<()>)
    requires dc.AnalogKeyed()
    modifies dc
    ensures !dc.component.flat ==> r == Err(RuntimeError)
    ensures dc.component.flat ==> (r.Ok? <==> AnalogCount(old(dc.analogSend), old(dc.analogReceive), old(dc.analogReduce), oldName) == 1)
    ensures r.Err? ==>
      r.error == RuntimeError && dc.analogSend == old(dc.analogSend) &&
      dc.analogReceive == old(dc.analogReceive) && dc.analogReduce == old(dc.analogReduce)
    ensures r.Ok? && oldName in old(dc.analogSend) ==> dc.analogSend == MovedPort(old(dc.analogSend), oldName, newName)
    ensures r.Ok? && oldName in old(dc.analogReceive) ==> dc.analogReceive == MovedPort(old(dc.analogReceive), oldName, newName)
    ensures r.Ok? && oldName in old(dc.analogReduce) ==> dc.analogReduce == MovedPort(old(dc.analogReduce), oldName, newName)
    ensures r.Ok? && oldName !in old(dc.analogSend) ==> dc.analogSend == old(dc.analogSend)
    ensures r.Ok? && oldName !in old(dc.analogReceive) ==> dc.analogReceive == old(dc.analogReceive)
    ensures r.Ok? && oldName !in old(dc.analogReduce) ==> dc.analogReduce == old(dc.analogReduce)
    ensures dc.AnalogKeyed()
    ensures dc.eventSend == old(dc.eventSend) && dc.eventReceive == old(dc.eventReceive)
    ensures dc.stateVariables == old(dc.stateVariables) && dc.regimes == old(dc.regimes)
  {
    if !dc.component.flat {
      return Err(RuntimeError);
    }
    if AnalogCount(dc.analogSend, dc.analogReceive, dc.analogReduce, oldName) != 1 {
      return Err(RuntimeError);
    }
    if oldName in dc.analogSend {
      MovedPortKeyed(dc.analogSend, oldName, newName);
      dc.analogSend := MovedPort(dc.analogSend, oldName, newName);
    } else if oldName in dc.analogReceive {
      MovedPortKeyed(dc.analogReceive, oldName, newName);
      dc.analogReceive := MovedPort(dc.analogReceive, oldName, newName);
    } else {
      MovedPortKeyed(dc.analogReduce, oldName, newName);
      dc.analogReduce := MovedPort(dc.analogReduce, oldName, newName);
    }
    r := Ok(());
  }

  /** `remap_port_to_parameter(componentclass, port_name)`: the single
      analog port of that name is removed and a parameter of the same name,
      with no dimension, is added. */
  method RemapPortToParameter(dc: DynamicsClass, name: string) returns (r: Result<()>)
    requires dc.AnalogKeyed()
    modifies dc, dc.component
    ensures !old(dc.component.flat) ==> r == Err(RuntimeError)
    ensures old(dc.component.flat) ==> (r.Ok? <==> AnalogCount(old(dc.analogSend), old(dc.analogReceive), old(dc.analogReduce), name) == 1)
    ensures r.Err? ==>
      r.error == RuntimeError && dc.component.parameters == old(dc.component.parameters) &&
      dc.analogSend == old(dc.analogSend) && dc.analogReceive == old(dc.analogReceive) && dc.analogReduce == old(dc.analogReduce)
    ensures r.Ok? ==> dc.analogSend == if name in old(dc.analogSend) then old(dc.analogSend) - {name} else old(dc.analogSend)
    ensures r.Ok? ==> dc.analogReceive == if name in old(dc.analogReceive) then old(dc.analogReceive) - {name} else old(dc.analogReceive)
    ensures r.Ok? ==> dc.analogReduce == if name in old(dc.analogReduce) then old(dc.analogReduce) - {name} else old(dc.analogReduce)
    ensures r.Ok? ==> dc.component.parameters == old(dc.component.parameters)[name := Parameter(name, None)]
    ensures dc.AnalogKeyed()
    ensures ParametersKeyed(old(dc.component.parameters)) ==> ParametersKeyed(dc.component.parameters)
    ensures dc.eventSend == old(dc.eventSend) && dc.eventReceive == old(dc.eventReceive)
    ensures dc.stateVariables == old(dc.stateVariables) && dc.regimes == old(dc.regimes)
    ensures dc.component.flat == old(dc.component.flat) && dc.component.aliases == old(dc.component.aliases) &&
      dc.component.indices == old(dc.component.indices) && dc.component.constants == old(dc.component.constants)
  {
    if !dc.component.flat {
      return Err(RuntimeError);
    }
    if AnalogCount(dc.analogSend, dc.analogReceive, dc.analogReduce, name) != 1 {
      return Err(RuntimeError);
    }
    if name in dc.analogSend {
      dc.analogSend := dc.analogSend - {name};
    } else if name in dc.analogReceive {
      dc.analogReceive := dc.analogReceive - {name};
    } else {
      dc.analogReduce := dc.analogReduce - {name};
    }
    dc.component.parameters := dc.component.parameters[name := Parameter(name, None)];
    r := Ok(());
  }

  // ---------------------------------------------------------------------
  // `DynamicsRenameSymbol`

  /** The dynamics part of the rename: `action_componentclass`,
      `action_dynamicsblock` and `action_regime` re-key the port,
      state-variable and time-derivative dictionaries; then every port,
      state variable, time derivative and transition is visited. */
  method RenameDynamicsPart(dc: DynamicsClass, src: string, dst: string)
    modifies dc
    ensures dc.analogSend == RenamedPorts(old(dc.analogSend), src, dst)
    ensures dc.analogReceive == RenamedPorts(old(dc.analogReceive), src, dst)
    ensures dc.analogReduce == RenamedPorts(old(dc.analogReduce), src, dst)
    ensures dc.eventSend == RenamedPorts(old(dc.eventSend), src, dst)
    ensures dc.eventReceive == RenamedPorts(old(dc.eventReceive), src, dst)
    ensures dc.stateVariables == RenamedStateVariables(old(dc.stateVariables), src, dst)
    ensures dc.regimes == RenamedRegimes(old(dc.regimes), src, dst)
  {
    dc.analogReceive := RenamedPorts(dc.analogReceive, src, dst);
    dc.analogReduce := RenamedPorts(dc.analogReduce, src, dst);
    dc.analogSend := RenamedPorts(dc.analogSend, src, dst);
    dc.eventSend := RenamedPorts(dc.eventSend, src, dst);
    dc.eventReceive := RenamedPorts(dc.eventReceive, src, dst);
    dc.stateVariables := RenamedStateVariables(dc.stateVariables, src, dst);
    dc.regimes := RenamedRegimes(dc.regimes, src, dst);
  }

  /** The port changes of a rename, over the re-keyed port dictionaries. */
  function AllPortChanges(send: map<string, Port>, receive: map<string, Port>, reduce: map<string, Port>,
                          eventSend: map<string, Port>, eventReceive: map<string, Port>, src: string, dst: string): set<Loc>
  {
    PortChanges(AnalogSend, Rekeyed(send, src, dst), src, dst) +
    PortChanges(AnalogReceive, Rekeyed(receive, src, dst), src, dst) +
    PortChanges(AnalogReduce, Rekeyed(reduce, src, dst), src, dst) +
    PortChanges(EventSend, Rekeyed(eventSend, src, dst), src, dst) +
    PortChanges(EventReceive, Rekeyed(eventReceive, src, dst), src, dst)
  }

  /** In a dictionary keyed by name, the one port noted is the one that
      was named `src`, under its new key. */
  lemma PortChangesMeaning(kind: PortKind, m: map<string, Port>, src: string, dst: string)
    requires KeyedByName(m)
    ensures PortChanges(kind, Rekeyed(m, src, dst), src, dst) == if src in m then {PortAt(kind, dst)} else {}
  {
    RekeyedMeaning(m, src, dst);
    var e := Rekeyed(m, src, dst);
    if src in m {
      assert PortAt(kind, dst) in PortChanges(kind, e, src, dst);
    }
  }

  /** Over dictionaries keyed by name, the port changes are one per
      dictionary that held a port named `src`. */
  lemma AllPortChangesMeaning(send: map<string, Port>, receive: map<string, Port>, reduce: map<string, Port>,
                              eventSend: map<string, Port>, eventReceive: map<string, Port>, src: string, dst: string)
    requires KeyedByName(send) && KeyedByName(receive) && KeyedByName(reduce) && KeyedByName(eventSend) && KeyedByName(eventReceive)
    ensures AllPortChanges(send, receive, reduce, eventSend, eventReceive, src, dst) ==
      (if src in send then {PortAt(AnalogSend, dst)} else {}) +
      (if src in receive then {PortAt(AnalogReceive, dst)} else {}) +
      (if src in reduce then {PortAt(AnalogReduce, dst)} else {}) +
      (if src in eventSend then {PortAt(EventSend, dst)} else {}) +
      (if src in eventReceive then {PortAt(EventReceive, dst)} else {})
  {
    PortChangesMeaning(AnalogSend, send, src, dst);
    PortChangesMeaning(AnalogReceive, receive, src, dst);
    PortChangesMeaning(AnalogReduce, reduce, src, dst);
    PortChangesMeaning(EventSend, eventSend, src, dst);
    PortChangesMeaning(EventReceive, eventReceive, src, dst);
  }

  /** `DynamicsRenameSymbol(componentclass, src, dst)`: refused on a class
      that is not flat; otherwise the component-class part is renamed as
      `ComponentRenameSymbol` does, and then the dynamics part. */
  method DynamicsRenameSymbol(dc: DynamicsClass, src: string, dst: string) returns (r: Result<DynamicsChanges>)
    modifies dc, dc.component
    ensures !old(dc.component.flat) ==>
      r == Err(RuntimeError) && dc.component.parameters == old(dc.component.parameters) &&
      dc.component.aliases == old(dc.component.aliases) && dc.component.constants == old(dc.component.constants) &&
      dc.component.indices == old(dc.component.indices)
    ensures !old(dc.component.flat) ==>
      dc.analogSend == old(dc.analogSend) && dc.analogReceive == old(dc.analogReceive) &&
      dc.analogReduce == old(dc.analogReduce) && dc.eventSend == old(dc.eventSend) && dc.eventReceive == old(dc.eventReceive) &&
      dc.stateVariables == old(dc.stateVariables) && dc.regimes == old(dc.regimes)
    ensures old(dc.component.flat) ==> r.Ok?
    ensures old(dc.component.flat) ==>
      dc.component.parameters == RenamedParameters(old(dc.component.parameters), src, dst) &&
      dc.component.aliases == RenamedAliases(old(dc.component.aliases), src, dst) &&
      dc.component.constants == RenamedConstants(old(dc.component.constants), src, dst) &&
      dc.component.indices == RekeyedAll(old(dc.component.indices), src, dst)
    ensures old(dc.component.flat) ==>
      dc.analogSend == RenamedPorts(old(dc.analogSend), src, dst) &&
      dc.analogReceive == RenamedPorts(old(dc.analogReceive), src, dst) &&
      dc.analogReduce == RenamedPorts(old(dc.analogReduce), src, dst) &&
      dc.eventSend == RenamedPorts(old(dc.eventSend), src, dst) &&
      dc.eventReceive == RenamedPorts(old(dc.eventReceive), src, dst)
    ensures old(dc.component.flat) ==>
      dc.stateVariables == RenamedStateVariables(old(dc.stateVariables), src, dst) &&
      dc.regimes == RenamedRegimes(old(dc.regimes), src, dst)
    ensures r.Ok? ==>
      r.value.lhs == StateVariableChanges(Rekeyed(old(dc.stateVariables), src, dst), src, dst) +
      RegimesChanges(old(dc.regimes), src, dst, LhsChange)
    ensures r.Ok? ==> r.value.rhs == RegimesChanges(old(dc.regimes), src, dst, RhsChange)
    ensures r.Ok? ==>
      r.value.port == AllPortChanges(old(dc.analogSend), old(dc.analogReceive), old(dc.analogReduce), old(dc.eventSend), old(dc.eventReceive), src, dst)
    ensures dc.component.flat == old(dc.component.flat)
  {
    var base := ComponentRenameSymbol(dc.component, src, dst);
    if base.Err? {
      return Err(base.error);
    }
    var lhs := StateVariableChanges(Rekeyed(dc.stateVariables, src, dst), src, dst) + RegimesChanges(dc.regimes, src, dst, LhsChange);
    var rhs := RegimesChanges(dc.regimes, src, dst, RhsChange);
    var port := AllPortChanges(dc.analogSend, dc.analogReceive, dc.analogReduce, dc.eventSend, dc.eventReceive, src, dst);
    RenameDynamicsPart(dc, src, dst);
    r := Ok(DynamicsChanges(base.value, lhs, rhs, port));
  }
}
