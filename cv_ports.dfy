/** The port validators of a flat component class: every output event and
    every OnEvent names an event port of the right mode, every event port is
    used, and every outgoing analog port names a state variable or alias of
    its namespace.  The visitor that walks the component is given here as the
    sequence of elements it reaches, each with its namespace. */
module CvPorts {
  import opened Wrappers

  /** The mode of a port of this component layer: 'send', 'recv' or
      'reduce'. */
  datatype Mode = Send | Recv | Reduce

  /** An element as the per-namespace visitor reaches it.  `name` is the
      port's name, an output event's port name, an OnEvent's source port
      name, a state variable's name or an alias's left-hand side. */
  datatype Item =
    | EventPortItem(ns: string, name: string, mode: Mode)
    | OutputEventItem(ns: string, name: string)
    | OnEventItem(ns: string, name: string)
    | AnalogPortItem(ns: string, name: string, mode: Mode)
    | StateVariableItem(ns: string, name: string)
    | AliasItem(ns: string, name: string)

  /** A name within its namespace.  The source's per-namespace dictionaries
      of lists are flattened to keys of this kind. */
  type Key = (string, string)

  function KeyOf(it: Item): Key
  {
    (it.ns, it.name)
  }

  predicate IsEventPort(it: Item) { it.EventPortItem? }
  predicate IsOutputEvent(it: Item) { it.OutputEventItem? }
  predicate IsOnEvent(it: Item) { it.OnEventItem? }
  predicate IsSymbol(it: Item) { it.StateVariableItem? || it.AliasItem? }
  /** `not port.is_incoming()`: an analog port of mode 'send'. */
  predicate IsOutgoingAnalog(it: Item) { it.AnalogPortItem? && it.mode == Send }

  // ---------------------------------------------------------------------
  // What the visitor collects

  /** The keys of the elements `keep` selects, in visiting order. */
  function Filtered(items: seq<Item>, keep: Item -> bool): seq<Key>
  {
    if items == [] then []
    else
      var prev := Filtered(items[..|items| - 1], keep);
      var it := items[|items| - 1];
      if keep(it) then prev + [KeyOf(it)] else prev
  }

  /** They are exactly the keys of the selected elements. */
  lemma {:induction false} FilteredMembers(items: seq<Item>, keep: Item -> bool, k: Key)
    ensures k in Filtered(items, keep) <==> exists j :: 0 <= j < |items| && keep(items[j]) && KeyOf(items[j]) == k
  {
    if items != [] {
      var init := items[..|items| - 1];
      FilteredMembers(init, keep, k);
      if exists j :: 0 <= j < |items| && keep(items[j]) && KeyOf(items[j]) == k {
        var j :| 0 <= j < |items| && keep(items[j]) && KeyOf(items[j]) == k;
        if j < |init| {
          assert init[j] == items[j];
        }
      }
      if exists j :: 0 <= j < |init| && keep(init[j]) && KeyOf(init[j]) == k {
        var j :| 0 <= j < |init| && keep(init[j]) && KeyOf(init[j]) == k;
        assert items[j] == init[j];
      }
    }
  }

  /** Visiting one more element appends at most its key. */
  lemma FilteredStep(items: seq<Item>, keep: Item -> bool, n: nat)
    requires n < |items|
    ensures Filtered(items[..n + 1], keep) ==
      Filtered(items[..n], keep) + (if keep(items[n]) then [KeyOf(items[n])] else [])
  {
    assert items[..n + 1][..n] == items[..n];
  }

  /** The event ports declared, by key: `events_ports[ns][port.name] = port`. */
  function DeclaredPorts(items: seq<Item>): map<Key, Mode>
  {
    if items == [] then map[]
    else
      var prev := DeclaredPorts(items[..|items| - 1]);
      var it := items[|items| - 1];
      if it.EventPortItem? then prev[KeyOf(it) := it.mode] else prev
  }

  lemma DeclaredStep(items: seq<Item>, n: nat)
    requires n < |items|
    ensures DeclaredPorts(items[..n + 1]) ==
      (if items[n].EventPortItem? then DeclaredPorts(items[..n])[KeyOf(items[n]) := items[n].mode] else DeclaredPorts(items[..n]))
  {
    assert items[..n + 1][..n] == items[..n];
  }

  /** The elements `keep` selects have pairwise different keys. */
  predicate DistinctWhere(items: seq<Item>, keep: Item -> bool)
  {
    forall i, j :: 0 <= i < j < |items| && keep(items[i]) && keep(items[j]) ==> KeyOf(items[i]) != KeyOf(items[j])
  }

  /** An element whose key is new keeps the prefix distinct. */
  lemma DistinctStep(items: seq<Item>, keep: Item -> bool, n: nat)
    requires n < |items| && DistinctWhere(items[..n], keep)
    requires keep(items[n]) ==> KeyOf(items[n]) !in Filtered(items[..n], keep)
    ensures DistinctWhere(items[..n + 1], keep)
  {
    var p := items[..n + 1];
    forall i, j | 0 <= i < j < |p| && keep(p[i]) && keep(p[j])
      ensures KeyOf(p[i]) != KeyOf(p[j])
    {
      assert p[i] == items[..n][i];
      if j < n {
        assert p[j] == items[..n][j];
      } else {
        FilteredMembers(items[..n], keep, KeyOf(p[i]));
      }
    }
  }

  /** An element whose key was seen before breaks distinctness for good. */
  lemma DistinctBreak(items: seq<Item>, keep: Item -> bool, n: nat)
    requires n < |items| && keep(items[n]) && KeyOf(items[n]) in Filtered(items[..n], keep)
    ensures !DistinctWhere(items, keep)
  {
    FilteredMembers(items[..n], keep, KeyOf(items[n]));
    var j :| 0 <= j < n && keep(items[..n][j]) && KeyOf(items[..n][j]) == KeyOf(items[n]);
    assert items[j] == items[..n][j];
  }

  /** The declared ports are keyed by the event ports visited. */
  lemma {:induction false} DeclaredKeys(items: seq<Item>)
    ensures DeclaredPorts(items).Keys == set k | k in Filtered(items, IsEventPort)
  {
    if items != [] {
      DeclaredKeys(items[..|items| - 1]);
    }
  }

  /** An element of `items` of the given kind, name and mode. */
  predicate Declares(items: seq<Item>, k: Key, m: Mode)
  {
    exists j :: 0 <= j < |items| && items[j] == EventPortItem(k.0, k.1, m)
  }

  /** With distinct event ports, a declared port has the mode of its one
      declaration. */
  lemma {:induction false} DeclaredModes(items: seq<Item>, k: Key, m: Mode)
    requires DistinctWhere(items, IsEventPort)
    ensures k in DeclaredPorts(items) && DeclaredPorts(items)[k] == m <==> Declares(items, k, m)
  {
    if items != [] {
      var n := |items| - 1;
      var init := items[..n];
      assert DistinctWhere(init, IsEventPort) by {
        forall i, j | 0 <= i < j < |init| && IsEventPort(init[i]) && IsEventPort(init[j])
          ensures KeyOf(init[i]) != KeyOf(init[j])
        {
          assert init[i] == items[i] && init[j] == items[j];
        }
      }
      DeclaredModes(init, k, m);
      var last := items[n];
      if last.EventPortItem? && KeyOf(last) == k {
        // no earlier declaration of `k`
        forall j | 0 <= j < |init|
          ensures init[j] != EventPortItem(k.0, k.1, m)
        {
          assert init[j] == items[j];
        }
        assert Declares(items, k, m) <==> last.mode == m;
      } else {
        assert Declares(items, k, m) ==> Declares(init, k, m) by {
          if Declares(items, k, m) {
            var j :| 0 <= j < |items| && items[j] == EventPortItem(k.0, k.1, m);
            assert j < n && init[j] == items[j];
          }
        }
        assert Declares(init, k, m) ==> Declares(items, k, m) by {
          if Declares(init, k, m) {
            var j :| 0 <= j < |init| && init[j] == EventPortItem(k.0, k.1, m);
            assert items[j] == init[j];
          }
        }
      }
    }
  }

  // ---------------------------------------------------------------------
  // ComponentValidatorEventPorts

  /** Every output event names a 'send' port of its namespace, every OnEvent
      a 'recv' or 'reduce' port, every event port is used by one of them,
      and no namespace declares an event port twice. */
  predicate EventPortsValid(items: seq<Item>)
  {
    DistinctWhere(items, IsEventPort) &&
    (forall i :: 0 <= i < |items| && items[i].OutputEventItem? ==> Declares(items, KeyOf(items[i]), Send)) &&
    (forall i :: 0 <= i < |items| && items[i].OnEventItem? ==>
      Declares(items, KeyOf(items[i]), Recv) || Declares(items, KeyOf(items[i]), Reduce)) &&
    (forall i :: 0 <= i < |items| && items[i].EventPortItem? ==> Used(items, KeyOf(items[i])))
  }

  /** Some output event or OnEvent of `items` names the port `k`. */
  predicate Used(items: seq<Item>, k: Key)
  {
    exists j :: 0 <= j < |items| && (items[j].OutputEventItem? || items[j].OnEventItem?) && KeyOf(items[j]) == k
  }

  /** `len([ev for ev in events if ev == name])`. */
  function CountOf(events: seq<Key>, k: Key): nat
  {
    if events == [] then 0
    else (if events[0] == k then 1 else 0) + CountOf(events[1..], k)
  }

  /** No event on a port exactly when the port's name is not among them. */
  lemma {:induction false} CountOfZero(events: seq<Key>, k: Key)
    ensures CountOf(events, k) == 0 <==> k !in events
  {
    if events != [] {
      CountOfZero(events[1..], k);
      assert events == [events[0]] + events[1..];
    }
  }

  class EventPortsValidator {
    /** `events_ports`, `output_events` and `input_events`. */
    var eventsPorts: map<Key, Mode>
    var outputEvents: seq<Key>
    var inputEvents: seq<Key>

    constructor ()
      ensures eventsPorts == map[] && outputEvents == [] && inputEvents == []
    {
      eventsPorts := map[];
      outputEvents := [];
      inputEvents := [];
    }

    /** `action_eventport`: a port already declared in its namespace fails
        the assertion; otherwise it is recorded. */
    method ActionEventPort(k: Key, mode: Mode) returns (r: Result<()>)
      modifies this
      ensures k in old(eventsPorts) ==> r == Err(AssertionFailed) && eventsPorts == old(eventsPorts)
      ensures k !in old(eventsPorts) ==> r == Ok(()) && eventsPorts == old(eventsPorts)[k := mode]
      ensures outputEvents == old(outputEvents) && inputEvents == old(inputEvents)
    {
      if k in eventsPorts {
        return Err(AssertionFailed);
      }
      eventsPorts := eventsPorts[k := mode];
      r := Ok(());
    }

    /** `action_outputevent`. */
    method ActionOutputEvent(k: Key)
      modifies this
      ensures outputEvents == old(outputEvents) + [k]
      ensures eventsPorts == old(eventsPorts) && inputEvents == old(inputEvents)
    {
      outputEvents := outputEvents + [k];
    }

    /** `action_onevent`. */
    method ActionOnEvent(k: Key)
      modifies this
      ensures inputEvents == old(inputEvents) + [k]
      ensures eventsPorts == old(eventsPorts) && outputEvents == old(outputEvents)
    {
      inputEvents := inputEvents + [k];
    }

    /** `self.visit(component)` from a fresh validator: the visit fails
        exactly on a repeated event port; otherwise the validator holds the
        declared ports and the events in visiting order. */
    method Visit(items: seq<Item>) returns (r: Result<()>)
      requires eventsPorts == map[] && outputEvents == [] && inputEvents == []
      modifies this
      ensures r.Ok? <==> DistinctWhere(items, IsEventPort)
      ensures r.Err? ==> r.error == AssertionFailed
      ensures r.Ok? ==> eventsPorts == DeclaredPorts(items)
      ensures r.Ok? ==> outputEvents == Filtered(items, IsOutputEvent) && inputEvents == Filtered(items, IsOnEvent)
    {
      var n := 0;
      while n < |items|
        invariant 0 <= n <= |items|
        invariant DistinctWhere(items[..n], IsEventPort)
        invariant eventsPorts == DeclaredPorts(items[..n])
        invariant outputEvents == Filtered(items[..n], IsOutputEvent)
        invariant inputEvents == Filtered(items[..n], IsOnEvent)
      {
        var it := items[n];
        DeclaredStep(items, n);
        FilteredStep(items, IsOutputEvent, n);
        FilteredStep(items, IsOnEvent, n);
        DeclaredKeys(items[..n]);
        match it {
          case EventPortItem(ns, name, mode) =>
            r := ActionEventPort((ns, name), mode);
            if r.Err? {
              DistinctBreak(items, IsEventPort, n);
              return;
            }
          case OutputEventItem(ns, name) =>
            ActionOutputEvent((ns, name));
          case OnEventItem(ns, name) =>
            ActionOnEvent((ns, name));
          case _ =>
        }
        DistinctStep(items, IsEventPort, n);
        n := n + 1;
      }
      assert items[..n] == items;
      r := Ok(());
    }

    /** The first check: every output event has a 'send' port. */
    method CheckOutputEvents() returns (r: Result<()>)
      ensures r.Ok? <==> forall k :: k in outputEvents ==> k in eventsPorts && eventsPorts[k] == Send
      ensures r.Err? ==> r.error == AssertionFailed
    {
      var n := 0;
      while n < |outputEvents|
        invariant 0 <= n <= |outputEvents|
        invariant forall i :: 0 <= i < n ==> outputEvents[i] in eventsPorts && eventsPorts[outputEvents[i]] == Send
      {
        var k := outputEvents[n];
        if k !in eventsPorts || eventsPorts[k] != Send {
          return Err(AssertionFailed);
        }
        n := n + 1;
      }
      r := Ok(());
    }

    /** The second check: every OnEvent has a 'recv' or 'reduce' port. */
    method CheckInputEvents() returns (r: Result<()>)
      ensures r.Ok? <==> forall k :: k in inputEvents ==> k in eventsPorts && eventsPorts[k] in {Recv, Reduce}
      ensures r.Err? ==> r.error == AssertionFailed
    {
      var n := 0;
      while n < |inputEvents|
        invariant 0 <= n <= |inputEvents|
        invariant forall i :: 0 <= i < n ==> inputEvents[i] in eventsPorts && eventsPorts[inputEvents[i]] in {Recv, Reduce}
      {
        var k := inputEvents[n];
        if k !in eventsPorts || eventsPorts[k] !in {Recv, Reduce} {
          return Err(AssertionFailed);
        }
        n := n + 1;
      }
      r := Ok(());
    }

    /** The third check, over the declared ports in whatever order the
        dictionaries are walked: each port has at least one event. */
    method CheckPortsUsed() returns (r: Result<()>)
      ensures r.Ok? <==> forall k :: k in eventsPorts ==> k in outputEvents || k in inputEvents
      ensures r.Err? ==> r.error == AssertionFailed
    {
      var todo := eventsPorts.Keys;
      while todo != {}
        invariant todo <= eventsPorts.Keys
        invariant forall k :: k in eventsPorts && k !in todo ==> k in outputEvents || k in inputEvents
        decreases |todo|
      {
        var k :| k in todo;
        CountOfZero(outputEvents, k);
        CountOfZero(inputEvents, k);
        if CountOf(outputEvents, k) + CountOf(inputEvents, k) == 0 {
          return Err(AssertionFailed);
        }
        todo := todo - {k};
      }
      r := Ok(());
    }
  }

  /** The assertions on the collected ports and events say what
      `EventPortsValid` says about the elements. */
  lemma EventChecksMeanValid(items: seq<Item>)
    requires DistinctWhere(items, IsEventPort)
    ensures EventPortsValid(items) <==>
      (forall k :: k in Filtered(items, IsOutputEvent) ==> k in DeclaredPorts(items) && DeclaredPorts(items)[k] == Send) &&
      (forall k :: k in Filtered(items, IsOnEvent) ==> k in DeclaredPorts(items) && DeclaredPorts(items)[k] in {Recv, Reduce}) &&
      (forall k :: k in DeclaredPorts(items) ==> k in Filtered(items, IsOutputEvent) || k in Filtered(items, IsOnEvent))
  {
    var d := DeclaredPorts(items);
    var outs, ins := Filtered(items, IsOutputEvent), Filtered(items, IsOnEvent);
    OutputsChecked(items, d, outs);
    InputsChecked(items, d, ins);
    PortsUsedChecked(items, d, outs, ins);
  }

  lemma OutputsChecked(items: seq<Item>, d: map<Key, Mode>, outs: seq<Key>)
    requires DistinctWhere(items, IsEventPort) && d == DeclaredPorts(items) && outs == Filtered(items, IsOutputEvent)
    ensures (forall i :: 0 <= i < |items| && items[i].OutputEventItem? ==> Declares(items, KeyOf(items[i]), Send)) <==>
      (forall k :: k in outs ==> k in d && d[k] == Send)
  {
    forall k
      ensures k in outs <==> exists j :: 0 <= j < |items| && IsOutputEvent(items[j]) && KeyOf(items[j]) == k
      ensures k in d && d[k] == Send <==> Declares(items, k, Send)
    {
      FilteredMembers(items, IsOutputEvent, k);
      DeclaredModes(items, k, Send);
    }
  }

  lemma InputsChecked(items: seq<Item>, d: map<Key, Mode>, ins: seq<Key>)
    requires DistinctWhere(items, IsEventPort) && d == DeclaredPorts(items) && ins == Filtered(items, IsOnEvent)
    ensures (forall i :: 0 <= i < |items| && items[i].OnEventItem? ==>
        Declares(items, KeyOf(items[i]), Recv) || Declares(items, KeyOf(items[i]), Reduce)) <==>
      (forall k :: k in ins ==> k in d && d[k] in {Recv, Reduce})
  {
    forall k
      ensures k in ins <==> exists j :: 0 <= j < |items| && IsOnEvent(items[j]) && KeyOf(items[j]) == k
      ensures k in d && d[k] == Recv <==> Declares(items, k, Recv)
      ensures k in d && d[k] == Reduce <==> Declares(items, k, Reduce)
    {
      FilteredMembers(items, IsOnEvent, k);
      DeclaredModes(items, k, Recv);
      DeclaredModes(items, k, Reduce);
    }
  }

  lemma PortsUsedChecked(items: seq<Item>, d: map<Key, Mode>, outs: seq<Key>, ins: seq<Key>)
    requires d == DeclaredPorts(items) && outs == Filtered(items, IsOutputEvent) && ins == Filtered(items, IsOnEvent)
    ensures (forall i :: 0 <= i < |items| && items[i].EventPortItem? ==> Used(items, KeyOf(items[i]))) <==>
      (forall k :: k in d ==> k in outs || k in ins)
  {
    DeclaredKeys(items);
    if forall i :: 0 <= i < |items| && items[i].EventPortItem? ==> Used(items, KeyOf(items[i])) {
      forall k | k in d
        ensures k in outs || k in ins
      {
        FilteredMembers(items, IsEventPort, k);
        var i :| 0 <= i < |items| && IsEventPort(items[i]) && KeyOf(items[i]) == k;
        var j :| 0 <= j < |items| && (items[j].OutputEventItem? || items[j].OnEventItem?) && KeyOf(items[j]) == k;
        FilteredMembers(items, IsOutputEvent, k);
        FilteredMembers(items, IsOnEvent, k);
      }
    }
    if forall k :: k in d ==> k in outs || k in ins {
      forall i | 0 <= i < |items| && items[i].EventPortItem?
        ensures Used(items, KeyOf(items[i]))
      {
        var k := KeyOf(items[i]);
        FilteredMembers(items, IsEventPort, k);
        assert k in d;
        FilteredMembers(items, IsOutputEvent, k);
        FilteredMembers(items, IsOnEvent, k);
        if k in outs {
          var j :| 0 <= j < |items| && IsOutputEvent(items[j]) && KeyOf(items[j]) == k;
        } else {
          var j :| 0 <= j < |items| && IsOnEvent(items[j]) && KeyOf(items[j]) == k;
        }
      }
    }
  }

  /** `ComponentValidatorEventPorts(component)`: it passes exactly when the
      component's event ports and events are consistent, and otherwise
      fails an assertion. */
  method ValidateEventPorts(items: seq<Item>) returns (r: Result<()>)
    ensures r.Ok? <==> EventPortsValid(items)
    ensures r.Err? ==> r.error == AssertionFailed
  {
    var v := new EventPortsValidator();
    r := v.Visit(items);
    if r.Err? {
      return;
    }
    EventChecksMeanValid(items);
    r := v.CheckOutputEvents();
    if r.Err? {
      return;
    }
    r := v.CheckInputEvents();
    if r.Err? {
      return;
    }
    r := v.CheckPortsUsed();
  }

  // ---------------------------------------------------------------------
  // ComponentValidatorOutputAnalogPorts

  /** State variables and aliases have pairwise different names within
      their namespace, and every outgoing analog port names one of them. */
  predicate AnalogPortsValid(items: seq<Item>)
  {
    DistinctWhere(items, IsSymbol) &&
    forall i :: 0 <= i < |items| && IsOutgoingAnalog(items[i]) ==>
      exists j :: 0 <= j < |items| && IsSymbol(items[j]) && KeyOf(items[j]) == KeyOf(items[i])
  }

  class AnalogPortsValidator {
    /** `output_analogports` and `available_symbols`. */
    var outputAnalogPorts: seq<Key>
    var availableSymbols: seq<Key>

    constructor ()
      ensures outputAnalogPorts == [] && availableSymbols == []
    {
      outputAnalogPorts := [];
      availableSymbols := [];
    }

    /** `add_symbol`: a name already available in its namespace fails the
        assertion; otherwise it is appended. */
    method AddSymbol(k: Key) returns (r: Result<()>)
      modifies this
      ensures k in old(availableSymbols) ==> r == Err(AssertionFailed) && availableSymbols == old(availableSymbols)
      ensures k !in old(availableSymbols) ==> r == Ok(()) && availableSymbols == old(availableSymbols) + [k]
      ensures outputAnalogPorts == old(outputAnalogPorts)
    {
      if k in availableSymbols {
        return Err(AssertionFailed);
      }
      availableSymbols := availableSymbols + [k];
      r := Ok(());
    }

    /** `action_analogport`: only ports that are not incoming are kept. */
    method ActionAnalogPort(k: Key, mode: Mode)
      modifies this
      ensures outputAnalogPorts == old(outputAnalogPorts) + (if mode == Send then [k] else [])
      ensures availableSymbols == old(availableSymbols)
    {
      if mode == Send {
        outputAnalogPorts := outputAnalogPorts + [k];
      }
    }

    /** `self.visit(component)` from a fresh validator: the visit fails
        exactly on a repeated symbol. */
    method Visit(items: seq<Item>) returns (r: Result<()>)
      requires outputAnalogPorts == [] && availableSymbols == []
      modifies this
      ensures r.Ok? <==> DistinctWhere(items, IsSymbol)
      ensures r.Err? ==> r.error == AssertionFailed
      ensures r.Ok? ==> outputAnalogPorts == Filtered(items, IsOutgoingAnalog) && availableSymbols == Filtered(items, IsSymbol)
    {
      var n := 0;
      while n < |items|
        invariant 0 <= n <= |items|
        invariant DistinctWhere(items[..n], IsSymbol)
        invariant outputAnalogPorts == Filtered(items[..n], IsOutgoingAnalog)
        invariant availableSymbols == Filtered(items[..n], IsSymbol)
      {
        var it := items[n];
        FilteredStep(items, IsOutgoingAnalog, n);
        FilteredStep(items, IsSymbol, n);
        match it {
          case AnalogPortItem(ns, name, mode) =>
            ActionAnalogPort((ns, name), mode);
          case StateVariableItem(ns, name) =>
            r := AddSymbol((ns, name));
            if r.Err? {
              DistinctBreak(items, IsSymbol, n);
              return;
            }
          case AliasItem(ns, name) =>
            r := AddSymbol((ns, name));
            if r.Err? {
              DistinctBreak(items, IsSymbol, n);
              return;
            }
          case _ =>
        }
        DistinctStep(items, IsSymbol, n);
        n := n + 1;
      }
      assert items[..n] == items;
      r := Ok(());
    }

    /** The assertion: every outgoing analog port names an available symbol. */
    method CheckOutputPorts() returns (r: Result<()>)
      ensures r.Ok? <==> forall k :: k in outputAnalogPorts ==> k in availableSymbols
      ensures r.Err? ==> r.error == AssertionFailed
    {
      var n := 0;
      while n < |outputAnalogPorts|
        invariant 0 <= n <= |outputAnalogPorts|
        invariant forall i :: 0 <= i < n ==> outputAnalogPorts[i] in availableSymbols
      {
        if outputAnalogPorts[n] !in availableSymbols {
          return Err(AssertionFailed);
        }
        n := n + 1;
      }
      r := Ok(());
    }
  }

  /** The assertion on the collected names says what `AnalogPortsValid` says
      about the elements. */
  lemma AnalogChecksMeanValid(items: seq<Item>)
    requires DistinctWhere(items, IsSymbol)
    ensures AnalogPortsValid(items) <==>
      forall k :: k in Filtered(items, IsOutgoingAnalog) ==> k in Filtered(items, IsSymbol)
  {
    var outs, syms := Filtered(items, IsOutgoingAnalog), Filtered(items, IsSymbol);
    if AnalogPortsValid(items) {
      forall k | k in outs
        ensures k in syms
      {
        FilteredMembers(items, IsOutgoingAnalog, k);
        FilteredMembers(items, IsSymbol, k);
        var i :| 0 <= i < |items| && IsOutgoingAnalog(items[i]) && KeyOf(items[i]) == k;
        var j :| 0 <= j < |items| && IsSymbol(items[j]) && KeyOf(items[j]) == KeyOf(items[i]);
      }
    } else {
      var i :| 0 <= i < |items| && IsOutgoingAnalog(items[i]) &&
        !exists j :: 0 <= j < |items| && IsSymbol(items[j]) && KeyOf(items[j]) == KeyOf(items[i]);
      var k := KeyOf(items[i]);
      FilteredMembers(items, IsOutgoingAnalog, k);
      FilteredMembers(items, IsSymbol, k);
      assert k in outs && k !in syms;
    }
  }

  /** `ComponentValidatorOutputAnalogPorts(component)`: it passes exactly
      when symbols are unique and every outgoing analog port is backed by
      a state variable or alias of its namespace. */
  method ValidateOutputAnalogPorts(items: seq<Item>) returns (r: Result<()>)
    ensures r.Ok? <==> AnalogPortsValid(items)
    ensures r.Err? ==> r.error == AssertionFailed
  {
    var v := new AnalogPortsValidator();
    r := v.Visit(items);
    if r.Err? {
      return;
    }
    AnalogChecksMeanValid(items);
    r := v.CheckOutputPorts();
  }
}
