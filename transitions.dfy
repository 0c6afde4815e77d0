/** Transitions of a dynamics component class: state assignments, output
    events, OnEvent and OnCondition transitions with their target and source
    regimes and their port binding, and the trigger of an OnCondition. */
module Transitions {
  import opened Wrappers
  import opened Strings
  import opened Expressions
  import opened Ports

  // ---------------------------------------------------------------------
  // Port names given by the user

  /** The checked name of an event port: `name.strip()` followed by
      `ensure_valid_identifier`. */
  function CheckedPortName(raw: string): (r: Result<string>)
    ensures r.Ok? ==> r.value == Strip(raw) && ValidIdentifier(r.value) && Strip(r.value) == r.value
    ensures r.Err? ==> r.error == UsageError && !ValidIdentifier(Strip(raw))
  {
    var name := Strip(raw);
    if ValidIdentifier(name) then
      StripPadded([], name, []);
      assert [] + name + [] == name;
      Ok(name)
    else Err(UsageError)
  }

  /** A valid identifier padded with whitespace is accepted and unpadded. */
  lemma CheckedPortNamePadded(u: string, name: string, v: string)
    requires AllSpace(u) && AllSpace(v) && ValidIdentifier(name)
    ensures CheckedPortName(u + name + v) == Ok(name)
  {
    StripPadded(u, name, v);
  }

  /** The accepted cases exercised for `OnEvent`'s source port name. */
  lemma CheckedPortNameAccepts()
    ensures CheckedPortName(" MyEvent1 ") == Ok("MyEvent1")
    ensures CheckedPortName(" MyEvent2") == Ok("MyEvent2")
  {
    var n1, n2 := "MyEvent1", "MyEvent2";
    assert ValidIdentifier(n1) && ValidIdentifier(n2);
    assert AllSpace(" ") && AllSpace("");
    assert " " + n1 + " " == " MyEvent1 ";
    assert " " + n2 + "" == " MyEvent2";
    CheckedPortNamePadded(" ", n1, " ");
    CheckedPortNamePadded(" ", n2, "");
  }

  /** A name that is not a valid identifier is refused, however it is
      padded with whitespace. */
  lemma CheckedPortNameRefuses(u: string, name: string, v: string)
    requires AllSpace(u) && AllSpace(v) && name != []
    requires !IsSpace(name[0]) && !IsSpace(name[|name| - 1])
    requires !ValidIdentifier(name)
    ensures CheckedPortName(u + name + v).Err?
  {
    StripPadded(u, name, v);
  }

  /** A name starting with a digit is refused. */
  lemma CheckedPortNameRefusesDigitFirst()
    ensures CheckedPortName("1MyEvent1 ").Err?
  {
    var n := "1MyEvent1";
    assert !ValidIdentifier(n) by {
      assert n[0] == '1';
    }
    assert AllSpace(" ") && AllSpace("");
    assert "" + n + " " == "1MyEvent1 ";
    CheckedPortNameRefuses("", n, " ");
  }

  /** A name with inner whitespace is refused. */
  lemma CheckedPortNameRefusesInnerSpace()
    ensures CheckedPortName("MyEvent1 2").Err?
  {
    var n := "MyEvent1 2";
    assert !ValidIdentifier(n) by {
      assert n[8] == ' ';
    }
    assert AllSpace("");
    assert "" + n + "" == n;
    CheckedPortNameRefuses("", n, "");
  }

  /** A name with a character that is not alphanumeric is refused. */
  lemma CheckedPortNameRefusesSymbol()
    ensures CheckedPortName("MyEvent1* ").Err?
  {
    var n := "MyEvent1*";
    assert !ValidIdentifier(n) by {
      assert n[8] == '*';
    }
    assert AllSpace(" ") && AllSpace("");
    assert "" + n + " " == "MyEvent1* ";
    CheckedPortNameRefuses("", n, " ");
  }

  // ---------------------------------------------------------------------
  // State assignments

  /** A state assignment `lhs = rhs`; the right-hand side is kept as the
      text it was given as. */
  datatype StateAssignment = StateAssignment(lhs: string, rhs: string)

  /** `StateAssignment.from_str`: the text must contain exactly one `=`,
      otherwise the tuple unpacking raises `ValueError`. */
  function FromStr(text: string): (r: Result<StateAssignment>)
    ensures r.Ok? <==> multiset(text)['='] == 1
    ensures r.Ok? ==> r.value.lhs + "=" + r.value.rhs == text
    ensures r.Ok? ==> '=' !in r.value.lhs && '=' !in r.value.rhs
    ensures r.Err? ==> r.error == ValueError
  {
    var parts := SplitOn(text, '=');
    SplitOnCount(text, '=');
    if |parts| != 2 then Err(ValueError)
    else
      JoinSplitOn(text, '=');
      assert parts[1..] == [parts[1]];
      Ok(StateAssignment(parts[0], parts[1]))
  }

  /** Printing an assignment as `lhs=rhs` and reading it back gives the same
      assignment. */
  lemma FromStrRoundTrip(sa: StateAssignment)
    requires '=' !in sa.lhs && '=' !in sa.rhs
    ensures FromStr(sa.lhs + "=" + sa.rhs) == Ok(sa)
  {
    SplitOnFirst(sa.lhs, sa.rhs, '=');
    SplitOnAbsent(sa.rhs, '=');
    SplitOnCount(sa.lhs + "=" + sa.rhs, '=');
  }

  /** A state-assignment argument: a string to parse or an assignment. */
  datatype AssignmentArg = Text(text: string) | Assignment(sa: StateAssignment)

  function Assignments(args: seq<AssignmentArg>): (r: seq<StateAssignment>)
    ensures forall sa :: sa in r <==> Assignment(sa) in args
  {
    if |args| == 0 then []
    else (if args[0].Assignment? then [args[0].sa] else []) + Assignments(args[1..])
  }

  function Texts(args: seq<AssignmentArg>): (r: seq<string>)
    ensures forall t :: t in r <==> Text(t) in args
  {
    if |args| == 0 then []
    else (if args[0].Text? then [args[0].text] else []) + Texts(args[1..])
  }

  /** The text holds exactly one '='. */
  predicate OneEquals(text: string)
  {
    multiset(text)['='] == 1
  }

  /** `text` is `sa` written as `lhs=rhs`, with no other '='. */
  predicate WrittenAs(sa: StateAssignment, text: string)
  {
    sa.lhs + "=" + sa.rhs == text && '=' !in sa.lhs && '=' !in sa.rhs
  }

  /** `[StateAssignment.from_str(o) for o in texts]`. */
  function ParseAll(texts: seq<string>): (r: Result<seq<StateAssignment>>)
    ensures r.Ok? <==> forall i :: 0 <= i < |texts| ==> OneEquals(texts[i])
    ensures r.Ok? ==> |r.value| == |texts|
    ensures r.Ok? ==> forall i :: 0 <= i < |texts| ==> WrittenAs(r.value[i], texts[i])
    ensures r.Err? ==> r.error == ValueError
  {
    if |texts| == 0 then Ok([])
    else
      var first := FromStr(texts[0]);
      var rest := ParseAll(texts[1..]);
      TailIndex(texts);
      if first.Err? then Err(first.error)
      else if rest.Err? then Err(rest.error)
      else
        ConsIndex(first.value, rest.value);
        Ok([first.value] + rest.value)
  }

  lemma TailIndex<T>(s: seq<T>)
    requires s != []
    ensures forall i :: 1 <= i < |s| ==> s[1..][i - 1] == s[i]
  {
  }

  lemma ConsIndex<T>(x: T, s: seq<T>)
    ensures ([x] + s)[0] == x
    ensures forall i :: 1 <= i <= |s| ==> ([x] + s)[i] == s[i - 1]
  {
  }

  /** No later assignment in `sas` has the same left-hand side as `sas[i]`. */
  predicate LastFor(sas: seq<StateAssignment>, i: nat)
    requires i < |sas|
  {
    forall j :: i < j < |sas| ==> sas[j].lhs != sas[i].lhs
  }

  /** `dict((sa.lhs, sa) for sa in sas)`. */
  function KeyedByLhs(sas: seq<StateAssignment>): map<string, StateAssignment>
  {
    if |sas| == 0 then map[]
    else KeyedByLhs(sas[..|sas| - 1])[sas[|sas| - 1].lhs := sas[|sas| - 1]]
  }

  /** Every assignment is keyed by its left-hand side, every entry is one of
      the assignments, and of several with the same left-hand side the last
      is kept. */
  lemma KeyedByLhsFacts(sas: seq<StateAssignment>)
    ensures forall i :: 0 <= i < |sas| ==> sas[i].lhs in KeyedByLhs(sas)
    ensures forall k :: k in KeyedByLhs(sas) ==> KeyedByLhs(sas)[k].lhs == k && KeyedByLhs(sas)[k] in sas
    ensures forall i :: 0 <= i < |sas| && LastFor(sas, i) ==> KeyedByLhs(sas)[sas[i].lhs] == sas[i]
  {
    KeyedByLhsEntries(sas);
    KeyedByLhsLast(sas);
  }

  /** Every assignment has an entry, and every entry is one of the
      assignments, under its own left-hand side. */
  lemma {:induction false} KeyedByLhsEntries(sas: seq<StateAssignment>)
    ensures forall i :: 0 <= i < |sas| ==> sas[i].lhs in KeyedByLhs(sas)
    ensures forall k :: k in KeyedByLhs(sas) ==> KeyedByLhs(sas)[k].lhs == k && KeyedByLhs(sas)[k] in sas
  {
    if |sas| > 0 {
      var init := sas[..|sas| - 1];
      var last := sas[|sas| - 1];
      KeyedByLhsEntries(init);
      var m0 := KeyedByLhs(init);
      var m := KeyedByLhs(sas);
      assert m == m0[last.lhs := last];
      forall i | 0 <= i < |sas| ensures sas[i].lhs in m {
        if i < |sas| - 1 {
          assert sas[i] == init[i];
        }
      }
      forall k | k in m ensures m[k].lhs == k && m[k] in sas {
        if k != last.lhs {
          assert m[k] == m0[k];
          assert m0[k] in init;
        }
      }
    }
  }

  /** Of several assignments with the same left-hand side, the last is kept. */
  lemma {:induction false} KeyedByLhsLast(sas: seq<StateAssignment>)
    ensures forall i :: 0 <= i < |sas| && LastFor(sas, i) ==>
      sas[i].lhs in KeyedByLhs(sas) && KeyedByLhs(sas)[sas[i].lhs] == sas[i]
  {
    if |sas| > 0 {
      var init := sas[..|sas| - 1];
      var last := sas[|sas| - 1];
      KeyedByLhsEntries(sas);
      KeyedByLhsLast(init);
      var m0 := KeyedByLhs(init);
      var m := KeyedByLhs(sas);
      assert m == m0[last.lhs := last];
      forall i | 0 <= i < |sas| && LastFor(sas, i)
        ensures m[sas[i].lhs] == sas[i]
      {
        if i < |sas| - 1 {
          assert sas[i] == init[i];
          assert sas[i].lhs != last.lhs;
          assert LastFor(init, i);
        }
      }
    }
  }

  /** The state assignments of a new transition: the given assignment
      objects first, then the parsed strings, keyed by left-hand side. */
  function StateAssignmentMap(args: seq<AssignmentArg>): (r: Result<map<string, StateAssignment>>)
    ensures r.Ok? <==> forall t :: Text(t) in args ==> multiset(t)['='] == 1
    ensures r.Ok? ==> forall sa :: Assignment(sa) in args ==> sa.lhs in r.value
    ensures r.Ok? ==> forall k :: k in r.value ==> r.value[k].lhs == k
  {
    var parsed := ParseAll(Texts(args));
    if parsed.Err? then Err(parsed.error)
    else
      var all := Assignments(args) + parsed.value;
      KeyedByLhsFacts(all);
      assert forall sa :: Assignment(sa) in args ==> sa in all;
      assert forall sa :: sa in all ==> exists i :: 0 <= i < |all| && all[i] == sa;
      Ok(KeyedByLhs(all))
  }

  /** The last string assigning its left-hand side is kept after the
      objects. */
  lemma KeyedLastString(os: seq<StateAssignment>, ps: seq<StateAssignment>, i: nat)
    requires i < |ps| && LastFor(ps, i)
    ensures ps[i].lhs in KeyedByLhs(os + ps) && KeyedByLhs(os + ps)[ps[i].lhs] == ps[i]
  {
    var all := os + ps;
    assert all[|os| + i] == ps[i];
    forall j | |os| + i < j < |all| ensures all[j].lhs != all[|os| + i].lhs {
      assert all[j] == ps[j - |os|];
    }
    KeyedByLhsLast(all);
  }

  /** An object is kept when no later object and no string assigns its
      left-hand side. */
  lemma KeyedLastObject(os: seq<StateAssignment>, ps: seq<StateAssignment>, i: nat)
    requires i < |os| && LastFor(os, i)
    requires forall j :: 0 <= j < |ps| ==> ps[j].lhs != os[i].lhs
    ensures os[i].lhs in KeyedByLhs(os + ps) && KeyedByLhs(os + ps)[os[i].lhs] == os[i]
  {
    var all := os + ps;
    assert all[i] == os[i];
    forall j | i < j < |all| ensures all[j].lhs != all[i].lhs {
      if j < |os| {
        assert all[j] == os[j];
      } else {
        assert all[j] == ps[j - |os|];
      }
    }
    KeyedByLhsLast(all);
  }

  /** Keying objects followed by strings: every string's left-hand side is
      a key, every entry is one of the two, the later of two strings wins,
      and an object is kept when no later object and no string shares its
      left-hand side. */
  lemma KeyedByLhsAppend(os: seq<StateAssignment>, ps: seq<StateAssignment>)
    ensures forall sa :: sa in ps ==> sa.lhs in KeyedByLhs(os + ps)
    ensures forall k :: k in KeyedByLhs(os + ps) ==> KeyedByLhs(os + ps)[k] in os + ps
    ensures forall i :: 0 <= i < |ps| && LastFor(ps, i) ==>
              ps[i].lhs in KeyedByLhs(os + ps) && KeyedByLhs(os + ps)[ps[i].lhs] == ps[i]
    ensures forall i :: 0 <= i < |os| && LastFor(os, i) && (forall j :: 0 <= j < |ps| ==> ps[j].lhs != os[i].lhs) ==>
              os[i].lhs in KeyedByLhs(os + ps) && KeyedByLhs(os + ps)[os[i].lhs] == os[i]
  {
    var all := os + ps;
    KeyedByLhsEntries(all);
    forall sa | sa in ps ensures sa.lhs in KeyedByLhs(all) {
      var i :| 0 <= i < |ps| && ps[i] == sa;
      assert all[|os| + i] == sa;
    }
    forall i | 0 <= i < |ps| && LastFor(ps, i)
      ensures ps[i].lhs in KeyedByLhs(all) && KeyedByLhs(all)[ps[i].lhs] == ps[i]
    {
      KeyedLastString(os, ps, i);
    }
    forall i | 0 <= i < |os| && LastFor(os, i) && (forall j :: 0 <= j < |ps| ==> ps[j].lhs != os[i].lhs)
      ensures os[i].lhs in KeyedByLhs(all) && KeyedByLhs(all)[os[i].lhs] == os[i]
    {
      KeyedLastObject(os, ps, i);
    }
  }

  /** What the map holds: every parsed string's left-hand side is a key,
      every entry is one of the given or parsed assignments, of two strings
      with one left-hand side the later wins, and an object is kept only
      when no later object and no string has its left-hand side, so a
      string beats an object. */
  lemma StateAssignmentMapFacts(args: seq<AssignmentArg>)
    requires StateAssignmentMap(args).Ok?
    ensures ParseAll(Texts(args)).Ok?
    ensures var m := StateAssignmentMap(args).value; var os := Assignments(args); var ps := ParseAll(Texts(args)).value;
            m == KeyedByLhs(os + ps) &&
            (forall sa :: sa in ps ==> sa.lhs in m) &&
            (forall k :: k in m ==> m[k] in os + ps) &&
            (forall i :: 0 <= i < |ps| && LastFor(ps, i) ==> ps[i].lhs in m && m[ps[i].lhs] == ps[i]) &&
            (forall i :: 0 <= i < |os| && LastFor(os, i) && (forall j :: 0 <= j < |ps| ==> ps[j].lhs != os[i].lhs) ==>
               os[i].lhs in m && m[os[i].lhs] == os[i])
  {
    KeyedByLhsAppend(Assignments(args), ParseAll(Texts(args)).value);
  }

  // ---------------------------------------------------------------------
  // Regimes, triggers and the event ports of a component class

  /** A resolved regime; only its name matters to a transition. */
  datatype Regime = Regime(name: string)

  /** The `target_regime` argument: absent, a regime name to be resolved
      later, or a regime. */
  datatype TargetArg = NoTarget | TargetName(name: string) | TargetRegime(regime: Regime)

  /** The event ports of the component class a transition is bound to, by
      name (`event_send_port` and `event_receive_port`). */
  datatype EventPorts = EventPorts(send: map<string, Port>, receive: map<string, Port>)

  predicate WellKeyed(ports: EventPorts)
  {
    KeyedByName(ports.send) && KeyedByName(ports.receive)
  }

  /** The condition of an OnCondition. */
  datatype Trigger = Trigger(rhs: Expr)

  /** `Trigger(rhs=t.rhs)` when given a Trigger: the condition is unwrapped
      and re-wrapped, so a new Trigger with the same condition results. */
  function MakeTrigger(arg: Expr): (t: Trigger)
    ensures t.rhs == arg
  {
    Trigger(arg)
  }

  /** The truth of a condition when every atom that is not a logical
      connective has the truth value `atom` gives it. */
  predicate Holds(e: Expr, atom: Expr -> bool)
  {
    match e
    case Not(a) => !Holds(a, atom)
    case Bin(op, l, r) =>
      if op == "&" then Holds(l, atom) && Holds(r, atom)
      else if op == "|" then Holds(l, atom) || Holds(r, atom)
      else atom(e)
    case _ => atom(e)
  }

  /** `reactivate_condition`: a negated copy of the trigger. */
  function ReactivateCondition(t: Trigger): (r: Trigger)
    ensures forall atom: Expr -> bool :: Holds(r.rhs, atom) == !Holds(t.rhs, atom)
    ensures FreeSymbols(r.rhs) == FreeSymbols(t.rhs)
  {
    Trigger(Not(t.rhs))
  }

  /** What triggers a transition. */
  datatype Kind = OnEventKind(srcPortName: string) | OnConditionKind(trigger: Trigger)

  // ---------------------------------------------------------------------
  // Output events

  /** An output event: the name of its send port until it is bound, and the
      port itself afterwards. */
  class OutputEvent {
    var portNameField: Option<string>
    var port: Option<Port>

    predicate Valid()
      reads this
    {
      port.Some? || portNameField.Some?
    }

    /** `OutputEvent(port_name)` with an already checked name. */
    constructor (name: string)
      ensures portNameField == Some(name) && port == None
      ensures Valid()
    {
      portNameField := Some(name);
      port := None;
    }

    /** `port_name`: the bound port's name, or the given name. */
    function PortName(): string
      reads this
      requires Valid()
    {
      if port.Some? then port.value.name else portNameField.value
    }

    /** `port`, which raises until the event is bound. */
    function Port(): (r: Result<Port>)
      reads this
      ensures r.Ok? <==> port.Some?
      ensures r.Err? ==> r.error == RuntimeError
      ensures r.Ok? ==> r.value == port.value
    {
      if port.None? then Err(RuntimeError) else Ok(port.value)
    }

    /** `bind`: looks the send port up by the current port name. */
    method Bind(ports: EventPorts) returns (r: Result<()>)
      requires Valid() && WellKeyed(ports)
      modifies this
      ensures Valid()
      ensures r.Ok? <==> old(PortName()) in ports.send
      ensures r.Ok? ==> port == Some(ports.send[old(PortName())]) && portNameField == None
      ensures r.Ok? ==> PortName() == old(PortName())
      ensures r.Err? ==> r.error == NameError && unchanged(this)
    {
      var name := PortName();
      if name in ports.send {
        port := Some(ports.send[name]);
        portNameField := None;
        r := Ok(());
      } else {
        r := Err(NameError);
      }
    }
  }

  /** `OutputEvent(port_name)`: strips and checks the name. */
  method NewOutputEvent(raw: string) returns (r: Result<OutputEvent>)
    ensures r.Ok? <==> CheckedPortName(raw).Ok?
    ensures r.Ok? ==> fresh(r.value) && r.value.Valid() && r.value.port == None
    ensures r.Ok? ==> r.value.PortName() == CheckedPortName(raw).value
    ensures r.Err? ==> r.error == UsageError
  {
    var name := CheckedPortName(raw);
    if name.Err? {
      return Err(name.error);
    }
    var oe := new OutputEvent(name.value);
    r := Ok(oe);
  }

  /** An element given to `add` or `remove`. */
  datatype Element = AssignmentElement(sa: StateAssignment) | EventElement(oe: OutputEvent) | OtherElement

  // ---------------------------------------------------------------------
  // Transitions

  class Transition {
    var kind: Kind
    var stateAssignments: map<string, StateAssignment>
    var outputEvents: map<string, OutputEvent>
    var targetRegime: Option<Regime>
    var targetRegimeNameField: Option<string>
    var sourceRegime: Option<Regime>
    /** The receive port an OnEvent is bound to. */
    var receivePort: Option<Port>

    /** The maps are keyed by left-hand side and by port name. */
    predicate Valid()
      reads this, outputEvents.Values
    {
      (forall k :: k in stateAssignments ==> stateAssignments[k].lhs == k) &&
      EventsKeyed(outputEvents)
    }

    constructor (kind: Kind, sas: map<string, StateAssignment>, oes: map<string, OutputEvent>, target: TargetArg)
      ensures this.kind == kind && stateAssignments == sas && outputEvents == oes
      ensures target.TargetName? ==> targetRegime == None && targetRegimeNameField == Some(target.name)
      ensures target.TargetRegime? ==> targetRegime == Some(target.regime) && targetRegimeNameField == None
      ensures target.NoTarget? ==> targetRegime == None && targetRegimeNameField == None
      ensures sourceRegime == None && receivePort == None
    {
      this.kind := kind;
      stateAssignments := sas;
      outputEvents := oes;
      match target {
        case TargetName(n) =>
          targetRegime := None;
          targetRegimeNameField := Some(n);
        case TargetRegime(reg) =>
          targetRegime := Some(reg);
          targetRegimeNameField := None;
        case NoTarget =>
          targetRegime := None;
          targetRegimeNameField := None;
      }
      sourceRegime := None;
      receivePort := None;
    }

    /** `target_regime`, which raises until the target is resolved. */
    function TargetRegime(): (r: Result<Regime>)
      reads this
      ensures r.Ok? <==> targetRegime.Some?
      ensures r.Err? ==> r.error == RuntimeError
      ensures r.Ok? ==> r.value == targetRegime.value
    {
      if targetRegime.None? then Err(RuntimeError) else Ok(targetRegime.value)
    }

    /** `target_regime_name`: the resolved regime's name, or the name the
        transition was given. */
    function TargetRegimeName(): (r: Option<string>)
      reads this
      ensures targetRegime.Some? ==> r == Some(targetRegime.value.name)
      ensures targetRegime.None? ==> r == targetRegimeNameField
    {
      if targetRegime.None? then targetRegimeNameField else Some(targetRegime.value.name)
    }

    /** `source_regime`, which raises until it is set. */
    function SourceRegime(): (r: Result<Regime>)
      reads this
      ensures r.Ok? <==> sourceRegime.Some?
      ensures r.Err? ==> r.error == RuntimeError
      ensures r.Ok? ==> r.value == sourceRegime.value
    {
      if sourceRegime.None? then Err(RuntimeError) else Ok(sourceRegime.value)
    }

    /** `port` of an OnEvent, which raises until it is bound. */
    function ReceivePort(): (r: Result<Port>)
      reads this
      ensures r.Ok? <==> receivePort.Some?
      ensures r.Err? ==> r.error == RuntimeError
    {
      if receivePort.None? then Err(RuntimeError) else Ok(receivePort.value)
    }

    /** `set_target_regime`: the target becomes known, and the name is taken
        from it from now on. */
    method SetTargetRegime(regime: Regime)
      modifies this
      ensures TargetRegime() == Ok(regime)
      ensures TargetRegimeName() == Some(regime.name)
      ensures targetRegimeNameField == None
      ensures kind == old(kind) && stateAssignments == old(stateAssignments) && outputEvents == old(outputEvents)
      ensures sourceRegime == old(sourceRegime) && receivePort == old(receivePort)
    {
      targetRegime := Some(regime);
      targetRegimeNameField := None;
    }

    /** `set_source_regime`. */
    method SetSourceRegime(regime: Regime)
      modifies this
      ensures SourceRegime() == Ok(regime)
      ensures kind == old(kind) && stateAssignments == old(stateAssignments) && outputEvents == old(outputEvents)
      ensures targetRegime == old(targetRegime) && targetRegimeNameField == old(targetRegimeNameField)
      ensures receivePort == old(receivePort)
    {
      sourceRegime := Some(regime);
    }

    function NumStateAssignments(): (n: nat)
      reads this
      ensures n == |stateAssignments.Keys|
    {
      |stateAssignments|
    }

    function NumOutputEvents(): (n: nat)
      reads this
      ensures n == |outputEvents.Keys|
    {
      |outputEvents|
    }

    /** `add`: an assignment goes to the assignments under its left-hand
        side, an output event to the output events under its port name, and
        anything else raises. */
    method Add(e: Element) returns (r: Result<()>)
      requires Valid()
      requires e.EventElement? ==> e.oe.Valid()
      modifies this
      ensures Valid()
      ensures r.Ok? <==> !e.OtherElement?
      ensures r.Err? ==> r.error == InvalidElementType && unchanged(this)
      ensures e.AssignmentElement? ==>
        stateAssignments == old(stateAssignments)[e.sa.lhs := e.sa] && outputEvents == old(outputEvents)
      ensures e.EventElement? ==>
        outputEvents == old(outputEvents)[e.oe.PortName() := e.oe] && stateAssignments == old(stateAssignments)
      ensures e.AssignmentElement? && e.sa.lhs !in old(stateAssignments) ==>
        NumStateAssignments() == old(NumStateAssignments()) + 1
      ensures kind == old(kind) && targetRegime == old(targetRegime) && sourceRegime == old(sourceRegime)
      ensures targetRegimeNameField == old(targetRegimeNameField) && receivePort == old(receivePort)
    {
      match e
      case AssignmentElement(sa) =>
        stateAssignments := stateAssignments[sa.lhs := sa];
        r := Ok(());
      case EventElement(oe) =>
        outputEvents := outputEvents[oe.PortName() := oe];
        r := Ok(());
      case OtherElement =>
        r := Err(InvalidElementType);
    }

    /** `remove`: pops the entry with the element's name, which raises
        `KeyError` when there is none; anything else raises. */
    method Remove(e: Element) returns (r: Result<()>)
      requires Valid()
      requires e.EventElement? ==> e.oe.Valid()
      modifies this
      ensures Valid()
      ensures e.OtherElement? ==> r == Err(InvalidElementType)
      ensures e.AssignmentElement? ==> (r.Ok? <==> e.sa.lhs in old(stateAssignments))
      ensures e.EventElement? ==> (r.Ok? <==> e.oe.PortName() in old(outputEvents))
      ensures r.Err? ==> unchanged(this)
      ensures r.Err? && !e.OtherElement? ==> r.error == KeyError
      ensures r.Ok? && e.AssignmentElement? ==>
        stateAssignments == old(stateAssignments) - {e.sa.lhs} && outputEvents == old(outputEvents)
      ensures r.Ok? && e.EventElement? ==>
        outputEvents == old(outputEvents) - {e.oe.PortName()} && stateAssignments == old(stateAssignments)
      ensures kind == old(kind) && targetRegime == old(targetRegime) && sourceRegime == old(sourceRegime)
      ensures targetRegimeNameField == old(targetRegimeNameField) && receivePort == old(receivePort)
    {
      match e
      case AssignmentElement(sa) =>
        if sa.lhs in stateAssignments {
          stateAssignments := stateAssignments - {sa.lhs};
          r := Ok(());
        } else {
          r := Err(KeyError);
        }
      case EventElement(oe) =>
        var name := oe.PortName();
        if name in outputEvents {
          outputEvents := outputEvents - {name};
          r := Ok(());
        } else {
          r := Err(KeyError);
        }
      case OtherElement =>
        r := Err(InvalidElementType);
    }

    /** `bind`: binds every output event to its send port and, for an
        OnEvent, the transition to its receive port; a missing port raises
        `NineMLNameError`. */
    method Bind(ports: EventPorts) returns (r: Result<()>)
      requires Valid() && WellKeyed(ports)
      modifies this, outputEvents.Values
      ensures outputEvents == old(outputEvents) && stateAssignments == old(stateAssignments)
      ensures kind == old(kind) && targetRegime == old(targetRegime) && sourceRegime == old(sourceRegime)
      ensures targetRegimeNameField == old(targetRegimeNameField)
      ensures Valid()
      ensures r.Ok? <==> outputEvents.Keys <= ports.send.Keys &&
                         (kind.OnEventKind? ==> kind.srcPortName in ports.receive)
      ensures r.Ok? ==> forall k :: k in outputEvents ==> outputEvents[k].port == Some(ports.send[k])
      ensures r.Ok? && kind.OnEventKind? ==> receivePort == Some(ports.receive[kind.srcPortName])
      ensures r.Err? ==> r.error == NameError
      ensures forall k :: k in outputEvents ==>
        outputEvents[k].port == old(outputEvents[k].port) ||
        (k in ports.send && outputEvents[k].port == Some(ports.send[k]))
    {
      r := BindOutputEvents(outputEvents, ports);
      if r.Err? {
        return;
      }
      match kind
      case OnEventKind(src) =>
        if src in ports.receive {
          receivePort := Some(ports.receive[src]);
        } else {
          r := Err(NameError);
        }
      case OnConditionKind(_) =>
    }
  }

  /** Every output event of the map is keyed by its port name. */
  predicate EventsKeyed(events: map<string, OutputEvent>)
    reads events.Values
  {
    forall k :: k in events ==> events[k].Valid() && events[k].PortName() == k
  }

  /** The loop of `Transition.bind`: binds each output event in turn, in no
      particular order; the first missing port stops it, leaving every
      output event either as it was or bound to its port. */
  method BindOutputEvents(events: map<string, OutputEvent>, ports: EventPorts) returns (r: Result<()>)
    requires EventsKeyed(events) && WellKeyed(ports)
    modifies events.Values
    ensures EventsKeyed(events)
    ensures r.Ok? <==> events.Keys <= ports.send.Keys
    ensures r.Ok? ==> forall k :: k in events ==> events[k].port == Some(ports.send[k])
    ensures r.Err? ==> r.error == NameError
    ensures forall k :: k in events ==>
      events[k].port == old(events[k].port) || (k in ports.send && events[k].port == Some(ports.send[k]))
  {
    var todo := events.Keys;
    while todo != {}
      invariant todo <= events.Keys
      invariant EventsKeyed(events)
      invariant forall k :: k in events.Keys - todo ==> k in ports.send && events[k].port == Some(ports.send[k])
      invariant forall k :: k in todo ==> events[k].port == old(events[k].port)
      decreases |todo|
    {
      var k :| k in todo;
      var oe := events[k];
      assert forall j :: j in events && j != k ==> events[j] != oe;
      var res := oe.Bind(ports);
      if res.Err? {
        return Err(res.error);
      }
      todo := todo - {k};
    }
    r := Ok(());
  }

  /** The port names of a list of output events. */
  function PortNames(oes: seq<OutputEvent>): (ns: seq<string>)
    reads set j | 0 <= j < |oes| :: oes[j]
    requires forall j :: 0 <= j < |oes| ==> oes[j].Valid()
    ensures |ns| == |oes| && forall j :: 0 <= j < |oes| ==> ns[j] == oes[j].PortName()
  {
    if oes == [] then [] else PortNames(oes[..|oes| - 1]) + [oes[|oes| - 1].PortName()]
  }

  /** No later name of `ns` is the `i`-th. */
  predicate LastOfName(ns: seq<string>, i: nat)
    requires i < |ns|
  {
    forall j :: i < j < |ns| ==> ns[j] != ns[i]
  }

  /** The output-event map of a new transition, keyed by port name; of two
      events with one port name, the later is kept. */
  method KeyOutputEvents(oes: seq<OutputEvent>) returns (m: map<string, OutputEvent>)
    requires forall i :: 0 <= i < |oes| ==> oes[i].Valid()
    ensures forall i :: 0 <= i < |oes| ==> oes[i].PortName() in m
    ensures forall k :: k in m ==> m[k] in oes && m[k].PortName() == k
    ensures forall i :: 0 <= i < |oes| && LastOfName(PortNames(oes), i) ==> m[oes[i].PortName()] == oes[i]
  {
    m := map[];
    var names := PortNames(oes);
    for i := 0 to |oes|
      invariant forall j :: 0 <= j < i ==> names[j] in m
      invariant forall k :: k in m ==> exists j :: 0 <= j < i && names[j] == k && m[k] == oes[j]
      invariant forall j :: 0 <= j < i && (forall l :: j < l < i ==> names[l] != names[j]) ==> m[names[j]] == oes[j]
    {
      m := m[names[i] := oes[i]];
    }
  }

  /** `OnEvent(src_port_name, state_assignments, output_events,
      target_regime)`: the assignment strings are parsed first, then the
      source port name is stripped and checked. */
  method NewOnEvent(srcPortName: string, sas: seq<AssignmentArg>, oes: seq<OutputEvent>, target: TargetArg)
    returns (r: Result<Transition>)
    requires forall i :: 0 <= i < |oes| ==> oes[i].Valid()
    ensures r.Ok? <==> StateAssignmentMap(sas).Ok? && CheckedPortName(srcPortName).Ok?
    ensures StateAssignmentMap(sas).Err? ==> r == Err(ValueError)
    ensures StateAssignmentMap(sas).Ok? && CheckedPortName(srcPortName).Err? ==> r == Err(UsageError)
    ensures r.Ok? ==> fresh(r.value) && r.value.Valid()
    ensures r.Ok? ==> r.value.kind == OnEventKind(CheckedPortName(srcPortName).value)
    ensures r.Ok? ==> r.value.stateAssignments == StateAssignmentMap(sas).value
    ensures r.Ok? ==> forall i :: 0 <= i < |oes| ==> oes[i].PortName() in r.value.outputEvents
    ensures r.Ok? ==> forall i :: 0 <= i < |oes| && LastOfName(PortNames(oes), i) ==> r.value.outputEvents[oes[i].PortName()] == oes[i]
    ensures r.Ok? ==> r.value.SourceRegime().Err? && r.value.ReceivePort().Err?
    ensures r.Ok? && target.TargetName? ==> r.value.TargetRegime().Err? && r.value.TargetRegimeName() == Some(target.name)
    ensures r.Ok? && target.NoTarget? ==> r.value.TargetRegime().Err? && r.value.TargetRegimeName() == None
    ensures r.Ok? && target.TargetRegime? ==> r.value.TargetRegime() == Ok(target.regime)
  {
    var m := StateAssignmentMap(sas);
    if m.Err? {
      return Err(m.error);
    }
    var events := KeyOutputEvents(oes);
    var src := CheckedPortName(srcPortName);
    if src.Err? {
      return Err(src.error);
    }
    var t := new Transition(OnEventKind(src.value), m.value, events, target);
    r := Ok(t);
  }

  /** `OnCondition(trigger, state_assignments, output_events,
      target_regime)`. */
  method NewOnCondition(trigger: Expr, sas: seq<AssignmentArg>, oes: seq<OutputEvent>, target: TargetArg)
    returns (r: Result<Transition>)
    requires forall i :: 0 <= i < |oes| ==> oes[i].Valid()
    ensures r.Ok? <==> StateAssignmentMap(sas).Ok?
    ensures r.Err? ==> r.error == ValueError
    ensures r.Ok? ==> fresh(r.value) && r.value.Valid()
    ensures r.Ok? ==> r.value.kind == OnConditionKind(Trigger(trigger))
    ensures r.Ok? ==> r.value.stateAssignments == StateAssignmentMap(sas).value
    ensures r.Ok? ==> forall i :: 0 <= i < |oes| ==> oes[i].PortName() in r.value.outputEvents
    ensures r.Ok? ==> forall i :: 0 <= i < |oes| && LastOfName(PortNames(oes), i) ==> r.value.outputEvents[oes[i].PortName()] == oes[i]
    ensures r.Ok? ==> r.value.SourceRegime().Err?
    ensures r.Ok? && target.TargetName? ==> r.value.TargetRegime().Err? && r.value.TargetRegimeName() == Some(target.name)
    ensures r.Ok? && target.NoTarget? ==> r.value.TargetRegime().Err? && r.value.TargetRegimeName() == None
    ensures r.Ok? && target.TargetRegime? ==> r.value.TargetRegime() == Ok(target.regime)
  {
    var trig := MakeTrigger(trigger);
    var m := StateAssignmentMap(sas);
    if m.Err? {
      return Err(m.error);
    }
    var events := KeyOutputEvents(oes);
    var t := new Transition(OnConditionKind(trig), m.value, events, target);
    r := Ok(t);
  }
}
