/** `ComponentFlattener`: several hybrid state machines flattened into one.
    Every combination of the sub-components' regimes becomes one compound
    regime; every transition of a constituent regime becomes a transition
    of the compound regime that moves that constituent's slot of the regime
    tuple, and the events it emits are passed along the event port
    connections, each receiving regime responding once, until none are left.
    Receive ports connected to a sender are renamed to it, and every reduce
    port becomes the join of its own name with its senders' names. */
module Flattening {
  import opened Wrappers
  import opened Strings
  import opened Expressions
  import opened Ports
  import opened Products

  // ---------------------------------------------------------------------
  // Sub-components
  // ---------------------------------------------------------------------

  datatype Assignment = Assignment(lhs: string, rhs: Expr)
  datatype TimeDerivative = TimeDerivative(variable: string, rhs: Expr)

  /** What makes a transition fire: a condition, or an event arriving on a
      receive port. */
  datatype Kind = OnConditionKind(trigger: Expr) | OnEventKind(srcPort: string)

  /** A transition of a sub-component: its state assignments, the send
      ports of the events it emits, and the regime it goes to (none: it
      stays in its regime). */
  datatype Transition = Transition(kind: Kind, assignments: seq<Assignment>, outputs: seq<string>, target: Option<string>)

  datatype Regime = Regime(name: string, timeDerivatives: seq<TimeDerivative>,
                           onConditions: seq<Transition>, onEvents: seq<Transition>)

  /** A sub-component that has regimes. */
  datatype Component = Component(regimes: seq<Regime>)

  /** The regimes of each sub-component, in order. */
  function RegimeLists(comps: seq<Component>): (lists: seq<seq<Regime>>)
    ensures |lists| == |comps|
    ensures forall i :: 0 <= i < |comps| ==> lists[i] == comps[i].regimes
  {
    seq(|comps|, i requires 0 <= i < |comps| => comps[i].regimes)
  }

  /** `component.query.regime(name=...)`: the first regime of that name. */
  function FindRegime(comp: Component, name: string): (r: Result<Regime>)
    ensures r.Ok? <==> exists i :: 0 <= i < |comp.regimes| && comp.regimes[i].name == name
    ensures r.Ok? ==> r.value in comp.regimes && r.value.name == name
    ensures r.Err? ==> r.error == NameError
    decreases |comp.regimes|
  {
    if comp.regimes == [] then Err(NameError)
    else if comp.regimes[0].name == name then Ok(comp.regimes[0])
    else
      var r := FindRegime(Component(comp.regimes[1..]), name);
      assert forall i :: 1 <= i < |comp.regimes| ==> comp.regimes[1..][i - 1] == comp.regimes[i];
      r
  }

  /** The regime a transition out of `current` goes to. */
  function Destination(comp: Component, current: Regime, target: Option<string>): (r: Result<Regime>)
    ensures target.None? ==> r == Ok(current)
    ensures target.Some? ==> r == FindRegime(comp, target.value)
  {
    if target.None? then Ok(current) else FindRegime(comp, target.value)
  }

  /** A destination is a regime of the component or the regime it leaves. */
  lemma DestinationIn(comp: Component, current: Regime, target: Option<string>)
    requires current in comp.regimes
    ensures Destination(comp, current, target).Ok? ==> Destination(comp, current, target).value in comp.regimes
  {
  }

  // ---------------------------------------------------------------------
  // The regime space
  // ---------------------------------------------------------------------

  /** A transition of the flattened component: it goes to the compound
      regime of a regime tuple. */
  datatype NewTransition = NewTransition(kind: Kind, assignments: seq<Assignment>, outputs: seq<string>, target: seq<Regime>)

  datatype CompoundRegime = CompoundRegime(timeDerivatives: seq<TimeDerivative>,
                                           onConditions: seq<NewTransition>, onEvents: seq<NewTransition>)

  /** `create_compound_regime`: the constituents' time derivatives, in the
      order of the tuple, and no transitions yet. */
  function NewCompound(tuple: seq<Regime>): (r: CompoundRegime)
    ensures r.onConditions == [] && r.onEvents == []
    ensures forall td :: td in r.timeDerivatives <==>
      exists i :: 0 <= i < |tuple| && td in tuple[i].timeDerivatives
  {
    var lists := seq(|tuple|, i requires 0 <= i < |tuple| => tuple[i].timeDerivatives);
    ChainMembers(lists);
    assert forall i :: 0 <= i < |tuple| ==> lists[i] == tuple[i].timeDerivatives;
    CompoundRegime(Chain(lists), [], [])
  }

  /** The regime space: one compound regime per regime tuple. */
  type Space = map<seq<Regime>, CompoundRegime>

  /** The first loop of `build_new_regime_space`: a compound regime for each
      element of the product of the sub-components' regimes, keyed by the
      tuple; when no sub-component repeats a regime there are as many as the
      product of the regime counts. */
  method BuildRegimeSpace(comps: seq<Component>) returns (space: Space)
    ensures forall t :: t in space <==> IsCombination(t, RegimeLists(comps))
    ensures forall t :: t in space ==> space[t] == NewCompound(t)
    ensures (forall i :: 0 <= i < |comps| ==> Distinct(comps[i].regimes)) ==>
      |space| == SizeProduct(RegimeLists(comps))
  {
    var lists := RegimeLists(comps);
    var tuples := Product(lists);
    ProductFacts(lists);
    space := map[];
    var i := 0;
    while i < |tuples|
      invariant 0 <= i <= |tuples|
      invariant forall t :: t in space <==> t in tuples[..i]
      invariant forall t :: t in space ==> space[t] == NewCompound(t)
    {
      assert tuples[..i + 1] == tuples[..i] + [tuples[i]];
      space := space[tuples[i] := NewCompound(tuples[i])];
      i := i + 1;
    }
    assert tuples[..i] == tuples;
    if forall i :: 0 <= i < |comps| ==> Distinct(comps[i].regimes) {
      ProductDistinct(lists);
      DistinctCount(tuples);
      assert space.Keys == set t | t in tuples;
    }
  }

  /** A sequence without repeats has as many distinct elements as entries. */
  lemma {:induction false} DistinctCount<T>(s: seq<T>)
    requires Distinct(s)
    ensures |set x | x in s| == |s|
  {
    if s != [] {
      var init := s[..|s| - 1];
      assert Distinct(init);
      DistinctCount(init);
      assert (set x | x in s) == (set x | x in init) + {s[|s| - 1]};
      assert s[|s| - 1] !in init;
    }
  }

  // ---------------------------------------------------------------------
  // Passing events along the event port connections
  // ---------------------------------------------------------------------

  /** The event port connections, as (send port, receive port) names. */
  type PortMap = seq<(string, string)>

  /** `distribute_event` as written: `set()` has no `append`, so the first
      connection from the port raises `AttributeError`; a port with no
      connection gives the empty set. */
  function DistributeAsWritten(pm: PortMap, name: string): (r: Result<set<string>>)
    ensures r.Err? <==> exists j :: 0 <= j < |pm| && pm[j].0 == name
    ensures r.Err? ==> r.error == AttributeError
    ensures r.Ok? ==> r.value == {}
  {
    if exists j :: 0 <= j < |pm| && pm[j].0 == name then Err(AttributeError) else Ok({})
  }

  /** A connected event is never passed on as written. */
  lemma DistributeAsWrittenFails()
    ensures DistributeAsWritten([("a", "b")], "a") == Err(AttributeError)
  {
    assert [("a", "b")][0].0 == "a";
  }

  /** `distribute_event` as evidently intended, on the event's port name:
      for each connection from the port in turn, the receive port and then
      everything the receive port passes the event on to.  The recursion
      is limited to `depth` levels, beyond which Python raises
      `RuntimeError` (maximum recursion depth exceeded). */
  function Distribute(pm: PortMap, name: string, depth: nat): Result<seq<string>>
  {
    DistributeFrom(pm, name, 0, depth)
  }

  /** The connections from `j` on. */
  function DistributeFrom(pm: PortMap, name: string, j: nat, depth: nat): Result<seq<string>>
    decreases depth, |pm| - j
  {
    if j >= |pm| then Ok([])
    else if pm[j].0 != name then DistributeFrom(pm, name, j + 1, depth)
    else if depth == 0 then Err(RuntimeError)
    else
      var sub :- DistributeFrom(pm, pm[j].1, 0, depth - 1);
      var rest :- DistributeFrom(pm, name, j + 1, depth);
      Ok([pm[j].1] + sub + rest)
  }

  /** Everything in `v` is a receive port of some connection; every receive
      port connected to `name` from connection `j` on is in `v`; and `v` is
      closed under the connections. */
  predicate Reaches(pm: PortMap, name: string, j: nat, v: seq<string>)
  {
    (forall x :: x in v ==> exists k :: 0 <= k < |pm| && pm[k].1 == x) &&
    (forall k :: j <= k < |pm| && pm[k].0 == name ==> pm[k].1 in v) &&
    (forall x, k :: x in v && 0 <= k < |pm| && pm[k].0 == x ==> pm[k].1 in v)
  }

  /** What the event reaches: only receive ports, every one connected to
      its port, and everything they pass it on to. */
  lemma {:induction false} DistributeFromFacts(pm: PortMap, name: string, j: nat, depth: nat)
    ensures var r := DistributeFrom(pm, name, j, depth);
      r.Ok? ==> Reaches(pm, name, j, r.value)
    ensures DistributeFrom(pm, name, j, depth).Err? ==> DistributeFrom(pm, name, j, depth).error == RuntimeError
    decreases depth, |pm| - j
  {
    if j < |pm| {
      if pm[j].0 != name {
        DistributeFromFacts(pm, name, j + 1, depth);
        DistributeSkip(pm, name, j, depth);
      } else if depth > 0 {
        DistributeFromFacts(pm, pm[j].1, 0, depth - 1);
        DistributeFromFacts(pm, name, j + 1, depth);
        DistributeStep(pm, name, j, depth);
      }
    }
  }

  /** A connection from another port is skipped. */
  lemma DistributeSkip(pm: PortMap, name: string, j: nat, depth: nat)
    requires j < |pm| && pm[j].0 != name
    requires var rest := DistributeFrom(pm, name, j + 1, depth);
      rest.Ok? ==> Reaches(pm, name, j + 1, rest.value)
    ensures var r := DistributeFrom(pm, name, j, depth);
      r.Ok? ==> Reaches(pm, name, j, r.value)
  {
    assert DistributeFrom(pm, name, j, depth) == DistributeFrom(pm, name, j + 1, depth);
  }

  /** A connection from the port: its receive port, what that reaches, and
      the rest. */
  lemma DistributeStep(pm: PortMap, name: string, j: nat, depth: nat)
    requires j < |pm| && pm[j].0 == name && depth > 0
    requires var sub := DistributeFrom(pm, pm[j].1, 0, depth - 1);
      sub.Ok? ==> Reaches(pm, pm[j].1, 0, sub.value)
    requires var rest := DistributeFrom(pm, name, j + 1, depth);
      rest.Ok? ==> Reaches(pm, name, j + 1, rest.value)
    ensures var r := DistributeFrom(pm, name, j, depth);
      r.Ok? ==> Reaches(pm, name, j, r.value)
  {
    var r := DistributeFrom(pm, name, j, depth);
    if r.Ok? {
      var sub := DistributeFrom(pm, pm[j].1, 0, depth - 1).value;
      var rest := DistributeFrom(pm, name, j + 1, depth).value;
      assert r.value == [pm[j].1] + sub + rest;
      forall x, k | x in r.value && 0 <= k < |pm| && pm[k].0 == x
        ensures pm[k].1 in r.value
      {
        if x == pm[j].1 {
          assert pm[k].1 in sub;
        } else if x in sub {
          assert pm[k].1 in sub;
        } else {
          assert x in rest;
        }
      }
    }
  }

  /** An event whose port is connected to itself is passed on forever, so
      distributing it always runs out of recursion depth. */
  lemma {:induction false} DistributeCycle(name: string, depth: nat)
    ensures Distribute([(name, name)], name, depth) == Err(RuntimeError)
    decreases depth
  {
    if depth > 0 {
      DistributeCycle(name, depth - 1);
    }
  }

  /** `flatten_first_level([distribute_event(e) for e in events])`. */
  function DistributeAll(pm: PortMap, events: seq<string>, depth: nat): (r: Result<seq<string>>)
    ensures r.Err? ==> r.error == RuntimeError
    decreases |events|
  {
    if events == [] then Ok([])
    else
      DistributeFromFacts(pm, events[0], 0, depth);
      var first :- Distribute(pm, events[0], depth);
      var rest :- DistributeAll(pm, events[1..], depth);
      Ok(first + rest)
  }

  /** Every receive port connected to one of the events is reached. */
  lemma {:induction false} DistributeAllReaches(pm: PortMap, events: seq<string>, depth: nat)
    ensures DistributeAll(pm, events, depth).Ok? ==>
      forall e, k :: e in events && 0 <= k < |pm| && pm[k].0 == e ==> pm[k].1 in DistributeAll(pm, events, depth).value
    decreases |events|
  {
    if events != [] {
      DistributeFromFacts(pm, events[0], 0, depth);
      DistributeAllReaches(pm, events[1..], depth);
      var r := DistributeAll(pm, events, depth);
      if r.Ok? {
        var first := Distribute(pm, events[0], depth).value;
        var rest := DistributeAll(pm, events[1..], depth).value;
        assert r.value == first + rest;
        forall e, k | e in events && 0 <= k < |pm| && pm[k].0 == e
          ensures pm[k].1 in r.value
        {
          if e != events[0] {
            assert e in events[1..];
          }
        }
      }
    }
  }

  // ---------------------------------------------------------------------
  // Moving through the regime space
  // ---------------------------------------------------------------------

  /** `getNewRegimeTupleFromTransition`: the slot of the component whose
      transition it is moves to the transition's target; the others stay. */
  function NewTupleFromTransition(comps: seq<Component>, tuple: seq<Regime>, index: nat, t: Transition): (r: Result<seq<Regime>>)
    requires |tuple| == |comps| && index < |tuple|
    ensures r.Ok? <==> Destination(comps[index], tuple[index], t.target).Ok?
    ensures r.Ok? ==> |r.value| == |tuple| && r.value[index] == Destination(comps[index], tuple[index], t.target).value
    ensures r.Ok? ==> forall i :: 0 <= i < |tuple| && i != index ==> r.value[i] == tuple[i]
  {
    var dst :- Destination(comps[index], tuple[index], t.target);
    Ok(tuple[index := dst])
  }

  /** Taking a transition keeps the tuple in the regime space. */
  lemma NewTupleInSpace(comps: seq<Component>, tuple: seq<Regime>, index: nat, t: Transition)
    requires IsCombination(tuple, RegimeLists(comps)) && index < |tuple|
    ensures NewTupleFromTransition(comps, tuple, index, t).Ok? ==>
      IsCombination(NewTupleFromTransition(comps, tuple, index, t).value, RegimeLists(comps))
  {
    DestinationIn(comps[index], tuple[index], t.target);
  }

  /** The OnEvents of a regime that respond to an event. */
  function Matching(r: Regime, ev: string): seq<Transition>
  {
    MatchingIn(r.onEvents, ev)
  }

  function MatchingIn(ts: seq<Transition>, ev: string): seq<Transition>
  {
    if ts == [] then []
    else (if ts[0].kind == OnEventKind(ev) then [ts[0]] else []) + MatchingIn(ts[1..], ev)
  }

  /** They are exactly the OnEvents whose source port is the event's. */
  lemma {:induction false} MatchingInMembers(ts: seq<Transition>, ev: string)
    ensures forall t :: t in MatchingIn(ts, ev) <==> t in ts && t.kind == OnEventKind(ev)
  {
    if ts != [] {
      MatchingInMembers(ts[1..], ev);
      assert forall t :: t in ts <==> t == ts[0] || t in ts[1..];
    }
  }

  lemma MatchingMembers(r: Regime, ev: string)
    ensures forall t :: t in Matching(r, ev) <==> t in r.onEvents && t.kind == OnEventKind(ev)
  {
    MatchingInMembers(r.onEvents, ev);
  }

  /** The assignments and events of a response, and the tuple it leaves. */
  datatype Response = Response(assignments: seq<Assignment>, outputs: seq<string>, tuple: seq<Regime>)

  /** `getRegimeTupleResponseToEvent` over the first `n` slots: each regime
      of the tuple has at most one OnEvent for the event (asserted); its
      assignments and events are appended and its slot moves to its target.
      As written the loop body reads the undefined names `one_event`,
      `oldtransition` and `regimeIndex`; the evident `on_event`, its
      target, and the slot's own component are used here. */
  function RespondUpTo(comps: seq<Component>, tuple: seq<Regime>, ev: string, n: nat): (r: Result<Response>)
    requires |tuple| == |comps| && n <= |tuple|
    ensures r.Ok? ==> |r.value.tuple| == |tuple|
  {
    if n == 0 then Ok(Response([], [], tuple))
    else
      var prev :- RespondUpTo(comps, tuple, ev, n - 1);
      RespondSlot(comps, tuple, ev, n - 1, prev)
  }

  /** Slot `i` of the response: its regime's OnEvent for the event, if any. */
  function RespondSlot(comps: seq<Component>, tuple: seq<Regime>, ev: string, i: nat, prev: Response): (r: Result<Response>)
    requires |tuple| == |comps| == |prev.tuple| && i < |tuple|
    ensures r.Ok? ==> |r.value.tuple| == |tuple|
  {
    var m := Matching(tuple[i], ev);
    if |m| > 1 then Err(AssertionFailed)
    else if |m| == 0 then Ok(prev)
    else
      var dst :- Destination(comps[i], tuple[i], m[0].target);
      Ok(Response(prev.assignments + m[0].assignments, prev.outputs + m[0].outputs, prev.tuple[i := dst]))
  }

  function Respond(comps: seq<Component>, tuple: seq<Regime>, ev: string): Result<Response>
    requires |tuple| == |comps|
  {
    RespondUpTo(comps, tuple, ev, |tuple|)
  }

  /** The loop of `getRegimeTupleResponseToEvent`. */
  method RespondToEvent(comps: seq<Component>, tuple: seq<Regime>, ev: string) returns (r: Result<Response>)
    requires |tuple| == |comps|
    ensures r == Respond(comps, tuple, ev)
  {
    var assignments: seq<Assignment> := [];
    var outputs: seq<string> := [];
    var newTuple := tuple;
    var index := 0;
    while index < |tuple|
      invariant 0 <= index <= |tuple|
      invariant RespondUpTo(comps, tuple, ev, index) == Ok(Response(assignments, outputs, newTuple))
    {
      ghost var next := RespondSlot(comps, tuple, ev, index, Response(assignments, outputs, newTuple));
      assert RespondUpTo(comps, tuple, ev, index + 1) == next;
      var onEvents := Matching(tuple[index], ev);
      if |onEvents| > 1 {
        RespondErrorSticks(comps, tuple, ev, index + 1, |tuple|);
        return Err(AssertionFailed);
      }
      if |onEvents| == 1 {
        var onEvent := onEvents[0];
        var dst := Destination(comps[index], tuple[index], onEvent.target);
        if dst.Err? {
          RespondErrorSticks(comps, tuple, ev, index + 1, |tuple|);
          return Err(dst.error);
        }
        assignments := assignments + onEvent.assignments;
        outputs := outputs + onEvent.outputs;
        newTuple := newTuple[index := dst.value];
      }
      index := index + 1;
    }
    r := Ok(Response(assignments, outputs, newTuple));
  }

  /** Once a slot fails, the whole response fails with that error. */
  lemma {:induction false} RespondErrorSticks(comps: seq<Component>, tuple: seq<Regime>, ev: string, k: nat, n: nat)
    requires |tuple| == |comps| && k <= n <= |tuple|
    requires RespondUpTo(comps, tuple, ev, k).Err?
    ensures RespondUpTo(comps, tuple, ev, n) == RespondUpTo(comps, tuple, ev, k)
    decreases n - k
  {
    if k < n {
      RespondErrorSticks(comps, tuple, ev, k, n - 1);
    }
  }

  /** Slot `i` of a response moves only slot `i`, and only when its regime
      responds. */
  lemma RespondSlotMoves(comps: seq<Component>, tuple: seq<Regime>, ev: string, i: nat, prev: Response)
    requires |tuple| == |comps| == |prev.tuple| && i < |tuple|
    ensures var r := RespondSlot(comps, tuple, ev, i, prev);
      r.Ok? ==> forall j :: 0 <= j < |tuple| && j != i ==> r.value.tuple[j] == prev.tuple[j]
    ensures var r := RespondSlot(comps, tuple, ev, i, prev);
      r.Ok? && Matching(tuple[i], ev) == [] ==> r.value == prev
  {
  }

  /** Slot `i` of a response keeps the tuple in the regime space. */
  lemma RespondSlotInSpace(comps: seq<Component>, tuple: seq<Regime>, ev: string, i: nat, prev: Response)
    requires |tuple| == |comps| == |prev.tuple| && i < |tuple|
    requires IsCombination(tuple, RegimeLists(comps)) && IsCombination(prev.tuple, RegimeLists(comps))
    ensures var r := RespondSlot(comps, tuple, ev, i, prev);
      r.Ok? ==> IsCombination(r.value.tuple, RegimeLists(comps))
  {
    var m := Matching(tuple[i], ev);
    if |m| == 1 {
      DestinationIn(comps[i], tuple[i], m[0].target);
    }
  }

  /** A response moves only the slots whose regime responds to the event:
      slot `i` is untouched by the first `n` slots when `i` is not among
      them or its regime does not respond. */
  lemma {:induction false} RespondKeepsSlot(comps: seq<Component>, tuple: seq<Regime>, ev: string, n: nat, i: nat)
    requires |tuple| == |comps| && n <= |tuple| && i < |tuple|
    requires n <= i || Matching(tuple[i], ev) == []
    ensures var r := RespondUpTo(comps, tuple, ev, n);
      r.Ok? ==> r.value.tuple[i] == tuple[i]
  {
    if n > 0 {
      RespondKeepsSlot(comps, tuple, ev, n - 1, i);
      var p := RespondUpTo(comps, tuple, ev, n - 1);
      if p.Ok? {
        RespondSlotMoves(comps, tuple, ev, n - 1, p.value);
        assert RespondUpTo(comps, tuple, ev, n) == RespondSlot(comps, tuple, ev, n - 1, p.value);
      }
    }
  }

  /** The same for all slots of a whole response. */
  lemma RespondKeepsSlots(comps: seq<Component>, tuple: seq<Regime>, ev: string)
    requires |tuple| == |comps|
    ensures var r := Respond(comps, tuple, ev);
      r.Ok? ==> forall i :: 0 <= i < |tuple| && Matching(tuple[i], ev) == [] ==> r.value.tuple[i] == tuple[i]
  {
    forall i | 0 <= i < |tuple| && Matching(tuple[i], ev) == []
      ensures var r := Respond(comps, tuple, ev); r.Ok? ==> r.value.tuple[i] == tuple[i]
    {
      RespondKeepsSlot(comps, tuple, ev, |tuple|, i);
    }
  }

  /** A response keeps the tuple in the regime space. */
  lemma {:induction false} RespondInSpace(comps: seq<Component>, tuple: seq<Regime>, ev: string, n: nat)
    requires |tuple| == |comps| && n <= |tuple|
    requires IsCombination(tuple, RegimeLists(comps))
    ensures var r := RespondUpTo(comps, tuple, ev, n);
      r.Ok? ==> IsCombination(r.value.tuple, RegimeLists(comps))
  {
    if n > 0 {
      RespondInSpace(comps, tuple, ev, n - 1);
      var p := RespondUpTo(comps, tuple, ev, n - 1);
      if p.Ok? {
        RespondSlotInSpace(comps, tuple, ev, n - 1, p.value);
        assert RespondUpTo(comps, tuple, ev, n) == RespondSlot(comps, tuple, ev, n - 1, p.value);
      }
    }
  }

  /** A response fails on a regime with more than one OnEvent for the
      event (`AssertionError`) among its first `n` slots. */
  lemma {:induction false} RespondAmbiguousAt(comps: seq<Component>, tuple: seq<Regime>, ev: string, n: nat, i: nat)
    requires |tuple| == |comps| && i < n <= |tuple|
    requires |Matching(tuple[i], ev)| > 1
    ensures RespondUpTo(comps, tuple, ev, n).Err?
  {
    var p := RespondUpTo(comps, tuple, ev, n - 1);
    if i < n - 1 {
      RespondAmbiguousAt(comps, tuple, ev, n - 1, i);
      RespondErrorSticks(comps, tuple, ev, n - 1, n);
    } else if p.Ok? {
      assert RespondSlot(comps, tuple, ev, n - 1, p.value).Err?;
    }
  }

  /** So a whole response fails whenever one regime of the tuple is
      ambiguous for the event. */
  lemma RespondAmbiguous(comps: seq<Component>, tuple: seq<Regime>, ev: string)
    requires |tuple| == |comps|
    ensures (exists i :: 0 <= i < |tuple| && |Matching(tuple[i], ev)| > 1) ==> Respond(comps, tuple, ev).Err?
  {
    if i :| 0 <= i < |tuple| && |Matching(tuple[i], ev)| > 1 {
      RespondAmbiguousAt(comps, tuple, ev, |tuple|, i);
    }
  }

  /** Otherwise a response fails only on a missing target (`NameError`). */
  lemma {:induction false} RespondErrors(comps: seq<Component>, tuple: seq<Regime>, ev: string, n: nat)
    requires |tuple| == |comps| && n <= |tuple|
    ensures RespondUpTo(comps, tuple, ev, n).Err? ==>
      RespondUpTo(comps, tuple, ev, n).error == AssertionFailed || RespondUpTo(comps, tuple, ev, n).error == NameError
  {
    if n > 0 {
      RespondErrors(comps, tuple, ev, n - 1);
    }
  }

  /** An event no regime of the tuple responds to changes nothing. */
  lemma {:induction false} RespondNone(comps: seq<Component>, tuple: seq<Regime>, ev: string, n: nat)
    requires |tuple| == |comps| && n <= |tuple|
    requires forall i :: 0 <= i < n ==> Matching(tuple[i], ev) == []
    ensures RespondUpTo(comps, tuple, ev, n) == Ok(Response([], [], tuple))
  {
    if n > 0 {
      RespondNone(comps, tuple, ev, n - 1);
    }
  }

  /** `getRegimeTupleResponseToEvent` over the first `n` slots as written:
      a slot with two or more OnEvents for the event fails the assertion,
      and a slot with one reads the undefined name `one_event` and raises
      Python's `NameError`.  So a response succeeds only when no slot
      responds, and then it changes nothing. */
  function RespondAsWrittenUpTo(tuple: seq<Regime>, ev: string, n: nat): (r: Result<Response>)
    requires n <= |tuple|
    ensures r.Ok? <==> forall i :: 0 <= i < n ==> Matching(tuple[i], ev) == []
    ensures r.Ok? ==> r.value == Response([], [], tuple)
    ensures r.Err? ==> r.error in {AssertionFailed, UndefinedName}
  {
    if n == 0 then Ok(Response([], [], tuple))
    else
      var prev :- RespondAsWrittenUpTo(tuple, ev, n - 1);
      var m := Matching(tuple[n - 1], ev);
      if |m| > 1 then Err(AssertionFailed)
      else if |m| == 1 then Err(UndefinedName)
      else Ok(prev)
  }

  /** A regime with one OnEvent for `spike` and no target: the written
      response raises, the intended one leaves the regime where it is. */
  lemma RespondAsWrittenFails()
    ensures var a := Regime("A", [], [], [Transition(OnEventKind("spike"), [], [], None)]);
            RespondAsWrittenUpTo([a], "spike", 1) == Err(UndefinedName) &&
            Respond([Component([a])], [a], "spike") == Ok(Response([], [], [a]))
  {
    var a := Regime("A", [], [], [Transition(OnEventKind("spike"), [], [], None)]);
    assert Matching(a, "spike") == [a.onEvents[0]];
    var start := Response([], [], [a]);
    assert RespondUpTo([Component([a])], [a], "spike", 1) == RespondSlot([Component([a])], [a], "spike", 0, start);
    assert start.assignments + a.onEvents[0].assignments == [];
    assert start.outputs + a.onEvents[0].outputs == [];
    assert start.tuple[0 := a] == [a];
  }

  // ---------------------------------------------------------------------
  // The event cascade of one transition
  // ---------------------------------------------------------------------

  /** The variables of the `while unhandled_events` loop. */
  datatype Cascade = Cascade(assignments: seq<Assignment>, outputs: seq<string>, tuple: seq<Regime>,
                             unhandled: seq<string>, handled: seq<string>)

  /** The events of a response that would trigger again: one already
      handled, or the event being handled. */
  predicate Retriggers(outputs: seq<string>, handled: seq<string>, ev: string)
  {
    exists e :: e in outputs && (e in handled || e == ev)
  }

  /** One pass of the loop: the last unhandled event is popped, the tuple
      responds to it, the re-trigger guard is asserted, the response's
      assignments and events are appended, its events are distributed onto
      the unhandled list, and the popped event is marked handled.  The guard
      is taken on port names; as written it compares `OutputEvent` objects
      with port-name strings. */
  function CascadeStep(comps: seq<Component>, pm: PortMap, depth: nat, c: Cascade): (r: Result<Cascade>)
    requires |c.tuple| == |comps| && c.unhandled != []
    ensures r.Ok? ==> |r.value.tuple| == |comps|
  {
    var ev := c.unhandled[|c.unhandled| - 1];
    var resp :- Respond(comps, c.tuple, ev);
    if Retriggers(resp.outputs, c.handled, ev) then Err(AssertionFailed)
    else
      var more :- DistributeAll(pm, resp.outputs, depth);
      Ok(Cascade(c.assignments + resp.assignments, c.outputs + resp.outputs, resp.tuple,
                 c.unhandled[..|c.unhandled| - 1] + more, c.handled + [ev]))
  }

  /** Python values the written guard compares: port-name strings, and the
      `OutputEvent` objects a response emits (`OutputEvent` is not part of
      this model; an object is taken never to equal a string). */
  datatype PyValue = PyStr(s: string) | PyOutputEvent(port: string)

  function Strs(ss: seq<string>): (vs: seq<PyValue>)
    ensures |vs| == |ss| && forall i :: 0 <= i < |ss| ==> vs[i] == PyStr(ss[i])
  {
    seq(|ss|, i requires 0 <= i < |ss| => PyStr(ss[i]))
  }

  /** The re-trigger guard as written: each emitted `OutputEvent` is looked
      for among the handled port names and compared with the popped port
      name. */
  predicate RetriggersAsWritten(outputs: seq<string>, handled: seq<string>, ev: string)
  {
    exists e :: e in outputs && (PyOutputEvent(e) in Strs(handled) || PyOutputEvent(e) == PyStr(ev))
  }

  /** So the written guard never fires, whatever the response emits. */
  lemma GuardAsWrittenNeverFires(outputs: seq<string>, handled: seq<string>, ev: string)
    ensures !RetriggersAsWritten(outputs, handled, ev)
  {
    forall e | e in outputs ensures PyOutputEvent(e) !in Strs(handled) {
      assert forall v :: v in Strs(handled) ==> v.PyStr?;
    }
  }

  /** A response to `spike` that emits `spike` again: the intended guard
      catches it, the written one does not. */
  lemma GuardAsWrittenMissesLoop()
    ensures Retriggers(["spike"], [], "spike") && !RetriggersAsWritten(["spike"], [], "spike")
  {
    assert "spike" in ["spike"];
    GuardAsWrittenNeverFires(["spike"], [], "spike");
  }

  /** One pass of the loop as written: the response is taken as written,
      the guard never fires, and the list of new events is handed whole to
      `distribute_event`, whose first act reads `.port_name` of a list and
      raises `AttributeError`.  A pass never succeeds.  (As written the loop
      is never entered: distributing the transition's own events gives an
      empty list or raises.) */
  function CascadeStepAsWritten(c: Cascade): (r: Result<Cascade>)
    requires c.unhandled != []
    ensures r.Err?
    ensures r == Err(AttributeError) <==>
              forall i :: 0 <= i < |c.tuple| ==> Matching(c.tuple[i], c.unhandled[|c.unhandled| - 1]) == []
    ensures r.Err? ==> r.error in {AssertionFailed, UndefinedName, AttributeError}
  {
    var ev := c.unhandled[|c.unhandled| - 1];
    var resp :- RespondAsWrittenUpTo(c.tuple, ev, |c.tuple|);
    Err(AttributeError)
  }

  /** An event no regime responds to: the intended pass marks it handled,
      the written one raises `AttributeError` in `distribute_event`. */
  lemma CascadeStepAsWrittenFails()
    ensures var a := Regime("A", [], [], []);
            var c := Cascade([], [], [a], ["spike"], []);
            CascadeStepAsWritten(c) == Err(AttributeError) &&
            CascadeStep([Component([a])], [], 0, c) == Ok(Cascade([], [], [a], [], ["spike"]))
  {
    var a := Regime("A", [], [], []);
    var c := Cascade([], [], [a], ["spike"], []);
    assert Matching(a, "spike") == [];
    assert c.tuple[0] == a && c.unhandled[|c.unhandled| - 1] == "spike";
    assert RespondAsWrittenUpTo(c.tuple, "spike", 1).Ok?;
    CascadeIgnores([Component([a])], [], 0, c);
    assert c.unhandled[..0] == [] && c.handled + ["spike"] == ["spike"];
  }

  /** A pass of the loop, as a function of the loop's variables. */
  type Stepper = Cascade -> Result<Cascade>

  /** The pass of `create_new_transition`; popping from an empty list, or a
      tuple of the wrong length, is Python's `IndexError`. */
  function Pass(comps: seq<Component>, pm: PortMap, depth: nat): Stepper
  {
    (c: Cascade) => if |c.tuple| == |comps| && c.unhandled != [] then CascadeStep(comps, pm, depth, c) else Err(IndexError)
  }

  /** The loop run to the end.  Nothing in the source bounds it, so `fuel`
      bounds the number of passes; a cascade still running after that many
      is reported as `RuntimeError`. */
  function RunCascade(step: Stepper, c: Cascade, fuel: nat): (r: Result<Cascade>)
    ensures r.Ok? ==> r.value.unhandled == []
    decreases fuel
  {
    if c.unhandled == [] then Ok(c)
    else if fuel == 0 then Err(RuntimeError)
    else
      var next :- step(c);
      RunCascade(step, next, fuel - 1)
  }

  /** `d` only appends to the assignments, events and handled events of `c`. */
  predicate Extends(c: Cascade, d: Cascade)
  {
    c.assignments <= d.assignments && c.outputs <= d.outputs && c.handled <= d.handled
  }

  ghost predicate StepExtends(step: Stepper)
  {
    forall c :: step(c).Ok? ==> Extends(c, step(c).value)
  }

  /** A cascade of passes that only append only appends. */
  lemma {:induction false} RunExtends(step: Stepper, c: Cascade, fuel: nat)
    requires StepExtends(step)
    ensures var r := RunCascade(step, c, fuel);
      r.Ok? ==> Extends(c, r.value)
    decreases fuel
  {
    if c.unhandled != [] && fuel > 0 && step(c).Ok? {
      RunExtends(step, step(c).value, fuel - 1);
    }
  }

  ghost predicate StepKeeps(step: Stepper, inv: Cascade -> bool)
  {
    forall c :: inv(c) && c.unhandled != [] && step(c).Ok? ==> inv(step(c).value)
  }

  /** A cascade of passes that keep an invariant keeps it. */
  lemma {:induction false} RunKeeps(step: Stepper, inv: Cascade -> bool, c: Cascade, fuel: nat)
    requires inv(c) && StepKeeps(step, inv)
    ensures var r := RunCascade(step, c, fuel);
      r.Ok? ==> inv(r.value)
    decreases fuel
  {
    if c.unhandled != [] && fuel > 0 && step(c).Ok? {
      RunKeeps(step, inv, step(c).value, fuel - 1);
    }
  }

  ghost predicate StepFailsWith(step: Stepper, inv: Cascade -> bool, errors: set<Error>)
  {
    forall c :: inv(c) && c.unhandled != [] && step(c).Err? ==> step(c).error in errors
  }

  /** A cascade fails as one of its passes does, or runs out of passes. */
  lemma {:induction false} RunFailsWith(step: Stepper, inv: Cascade -> bool, errors: set<Error>, c: Cascade, fuel: nat)
    requires inv(c) && StepKeeps(step, inv) && StepFailsWith(step, inv, errors)
    ensures var r := RunCascade(step, c, fuel);
      r.Err? ==> r.error in errors + {RuntimeError}
    decreases fuel
  {
    if c.unhandled != [] && fuel > 0 && step(c).Ok? {
      RunFailsWith(step, inv, errors, step(c).value, fuel - 1);
    }
  }

  /** The pass of `create_new_transition` only appends. */
  lemma PassExtends(comps: seq<Component>, pm: PortMap, depth: nat)
    ensures StepExtends(Pass(comps, pm, depth))
  {
  }

  /** A tuple of the right length. */
  function Sized(comps: seq<Component>): Cascade -> bool
  {
    (c: Cascade) => |c.tuple| == |comps|
  }

  /** A tuple in the regime space. */
  function InSpace(comps: seq<Component>): Cascade -> bool
  {
    (c: Cascade) => |c.tuple| == |comps| && IsCombination(c.tuple, RegimeLists(comps))
  }

  /** One pass keeps the tuple in the regime space. */
  lemma CascadeStepInSpace(comps: seq<Component>, pm: PortMap, depth: nat, c: Cascade)
    requires |c.tuple| == |comps| && c.unhandled != [] && IsCombination(c.tuple, RegimeLists(comps))
    ensures var r := CascadeStep(comps, pm, depth, c);
      r.Ok? ==> IsCombination(r.value.tuple, RegimeLists(comps))
  {
    var ev := c.unhandled[|c.unhandled| - 1];
    RespondInSpace(comps, c.tuple, ev, |c.tuple|);
    var r := CascadeStep(comps, pm, depth, c);
    if r.Ok? {
      assert r.value.tuple == Respond(comps, c.tuple, ev).value.tuple;
    }
  }

  /** The pass keeps the tuple's length and keeps it in the regime space. */
  lemma PassKeeps(comps: seq<Component>, pm: PortMap, depth: nat)
    ensures StepKeeps(Pass(comps, pm, depth), Sized(comps))
    ensures StepKeeps(Pass(comps, pm, depth), InSpace(comps))
  {
    forall c | InSpace(comps)(c) && c.unhandled != [] && Pass(comps, pm, depth)(c).Ok?
      ensures InSpace(comps)(Pass(comps, pm, depth)(c).value)
    {
      CascadeStepInSpace(comps, pm, depth, c);
    }
  }

  /** One pass fails only on an ambiguous or missing regime, on the guard,
      or on a cyclic distribution. */
  lemma CascadeStepErrors(comps: seq<Component>, pm: PortMap, depth: nat, c: Cascade)
    requires |c.tuple| == |comps| && c.unhandled != []
    ensures var r := CascadeStep(comps, pm, depth, c);
      r.Err? ==> r.error in {AssertionFailed, NameError, RuntimeError}
  {
    RespondErrors(comps, c.tuple, c.unhandled[|c.unhandled| - 1], |c.tuple|);
  }

  lemma PassErrors(comps: seq<Component>, pm: PortMap, depth: nat)
    ensures StepFailsWith(Pass(comps, pm, depth), Sized(comps), {AssertionFailed, NameError, RuntimeError})
  {
    forall c | Sized(comps)(c) && c.unhandled != [] && Pass(comps, pm, depth)(c).Err?
      ensures Pass(comps, pm, depth)(c).error in {AssertionFailed, NameError, RuntimeError}
    {
      CascadeStepErrors(comps, pm, depth, c);
    }
  }

  /** The re-trigger guard: when the response to the event popped next
      emits an event already handled, or the popped event itself, the
      cascade fails. */
  lemma CascadeGuard(comps: seq<Component>, pm: PortMap, depth: nat, c: Cascade, fuel: nat)
    requires |c.tuple| == |comps| && c.unhandled != [] && fuel > 0
    requires var ev := c.unhandled[|c.unhandled| - 1];
      Respond(comps, c.tuple, ev).Ok? && Retriggers(Respond(comps, c.tuple, ev).value.outputs, c.handled, ev)
    ensures RunCascade(Pass(comps, pm, depth), c, fuel) == Err(AssertionFailed)
  {
    assert CascadeStep(comps, pm, depth, c) == Err(AssertionFailed);
  }

  /** An event no regime responds to is handled without changing anything
      but the two lists. */
  lemma CascadeIgnores(comps: seq<Component>, pm: PortMap, depth: nat, c: Cascade)
    requires |c.tuple| == |comps| && c.unhandled != []
    requires forall i :: 0 <= i < |c.tuple| ==> Matching(c.tuple[i], c.unhandled[|c.unhandled| - 1]) == []
    ensures CascadeStep(comps, pm, depth, c) ==
      Ok(Cascade(c.assignments, c.outputs, c.tuple, c.unhandled[..|c.unhandled| - 1], c.handled + [c.unhandled[|c.unhandled| - 1]]))
  {
    RespondNone(comps, c.tuple, c.unhandled[|c.unhandled| - 1], |c.tuple|);
    assert c.assignments + [] == c.assignments && c.outputs + [] == c.outputs;
    assert c.unhandled[..|c.unhandled| - 1] + [] == c.unhandled[..|c.unhandled| - 1];
  }

  /** `create_new_transition`: the transition's own events are distributed,
      its slot moves, the cascade runs, and the new transition goes to the
      compound regime of the final tuple, looked up in the regime space.
      It keeps the original's trigger or source port. */
  function CreateTransition(comps: seq<Component>, pm: PortMap, depth: nat, space: Space,
                            tuple: seq<Regime>, index: nat, t: Transition, fuel: nat): Result<NewTransition>
    requires |tuple| == |comps| && index < |tuple|
  {
    var unhandled :- DistributeAll(pm, t.outputs, depth);
    var start :- NewTupleFromTransition(comps, tuple, index, t);
    var end :- RunCascade(Pass(comps, pm, depth), Cascade(t.assignments, t.outputs, start, unhandled, []), fuel);
    if end.tuple !in space then Err(KeyError)
    else Ok(NewTransition(t.kind, end.assignments, end.outputs, end.tuple))
  }

  /** The new transition keeps the original's kind, starts with its
      assignments and events, and goes to a compound regime of the space. */
  lemma CreateTransitionKeeps(comps: seq<Component>, pm: PortMap, depth: nat, space: Space,
                              tuple: seq<Regime>, index: nat, t: Transition, fuel: nat)
    requires |tuple| == |comps| && index < |tuple|
    ensures var r := CreateTransition(comps, pm, depth, space, tuple, index, t, fuel);
      r.Ok? ==> r.value.kind == t.kind && t.assignments <= r.value.assignments && t.outputs <= r.value.outputs &&
                r.value.target in space
  {
    var d := DistributeAll(pm, t.outputs, depth);
    var start := NewTupleFromTransition(comps, tuple, index, t);
    if d.Ok? && start.Ok? {
      PassExtends(comps, pm, depth);
      RunExtends(Pass(comps, pm, depth), Cascade(t.assignments, t.outputs, start.value, d.value, []), fuel);
    }
  }

  /** In the regime space built for the same components, the final tuple is
      always found: the lookup never raises `KeyError`, and the errors left
      are an ambiguous or missing regime, the guard, a cyclic distribution
      or a cascade that does not end. */
  lemma CreateTransitionFound(comps: seq<Component>, pm: PortMap, depth: nat, space: Space,
                              tuple: seq<Regime>, index: nat, t: Transition, fuel: nat)
    requires |tuple| == |comps| && index < |tuple|
    requires forall x :: x in space <==> IsCombination(x, RegimeLists(comps))
    requires IsCombination(tuple, RegimeLists(comps))
    ensures var r := CreateTransition(comps, pm, depth, space, tuple, index, t, fuel);
      r.Err? ==> r.error in {AssertionFailed, NameError, RuntimeError}
  {
    var d := DistributeAll(pm, t.outputs, depth);
    var start := NewTupleFromTransition(comps, tuple, index, t);
    if d.Ok? && start.Ok? {
      var c := Cascade(t.assignments, t.outputs, start.value, d.value, []);
      NewTupleInSpace(comps, tuple, index, t);
      PassKeeps(comps, pm, depth);
      PassErrors(comps, pm, depth);
      RunKeeps(Pass(comps, pm, depth), InSpace(comps), c, fuel);
      RunFailsWith(Pass(comps, pm, depth), Sized(comps), {AssertionFailed, NameError, RuntimeError}, c, fuel);
      var end := RunCascade(Pass(comps, pm, depth), c, fuel);
      if end.Ok? {
        assert end.value.tuple in space;
      }
    }
  }

  /** A transition that emits no event moves only its own slot. */
  lemma CreateTransitionQuiet(comps: seq<Component>, pm: PortMap, depth: nat, space: Space,
                              tuple: seq<Regime>, index: nat, t: Transition, fuel: nat)
    requires |tuple| == |comps| && index < |tuple| && t.outputs == []
    requires NewTupleFromTransition(comps, tuple, index, t).Ok?
    requires NewTupleFromTransition(comps, tuple, index, t).value in space
    ensures CreateTransition(comps, pm, depth, space, tuple, index, t, fuel) ==
      Ok(NewTransition(t.kind, t.assignments, [], NewTupleFromTransition(comps, tuple, index, t).value))
  {
  }

  /** One pass of the loop of `create_new_transition`. */
  method CascadePass(comps: seq<Component>, pm: PortMap, depth: nat, c: Cascade) returns (r: Result<Cascade>)
    requires |c.tuple| == |comps| && c.unhandled != []
    ensures r == CascadeStep(comps, pm, depth, c)
  {
    var ev := c.unhandled[|c.unhandled| - 1];
    var resp := RespondToEvent(comps, c.tuple, ev);
    if resp.Err? {
      return Err(resp.error);
    }
    var newOutputs := resp.value.outputs;
    var k := 0;
    while k < |newOutputs|
      invariant 0 <= k <= |newOutputs|
      invariant forall j :: 0 <= j < k ==> !(newOutputs[j] in c.handled || newOutputs[j] == ev)
    {
      if newOutputs[k] in c.handled || newOutputs[k] == ev {
        return Err(AssertionFailed);
      }
      k := k + 1;
    }
    var more := DistributeAll(pm, newOutputs, depth);
    if more.Err? {
      return Err(more.error);
    }
    r := Ok(Cascade(c.assignments + resp.value.assignments, c.outputs + newOutputs, resp.value.tuple,
                    c.unhandled[..|c.unhandled| - 1] + more.value, c.handled + [ev]));
  }

  /** `create_new_transition`, with its loop over the unhandled events. */
  method CreateNewTransition(comps: seq<Component>, pm: PortMap, depth: nat, space: Space,
                             tuple: seq<Regime>, index: nat, t: Transition, fuel: nat) returns (r: Result<NewTransition>)
    requires |tuple| == |comps| && index < |tuple|
    ensures r == CreateTransition(comps, pm, depth, space, tuple, index, t, fuel)
  {
    var d := DistributeAll(pm, t.outputs, depth);
    if d.Err? {
      return Err(d.error);
    }
    var start := NewTupleFromTransition(comps, tuple, index, t);
    if start.Err? {
      return Err(start.error);
    }
    var c := Cascade(t.assignments, t.outputs, start.value, d.value, []);
    var passes := fuel;
    ghost var goal := RunCascade(Pass(comps, pm, depth), c, fuel);
    while c.unhandled != []
      invariant |c.tuple| == |comps|
      invariant goal == RunCascade(Pass(comps, pm, depth), c, passes)
      decreases passes
    {
      if passes == 0 {
        return Err(RuntimeError);
      }
      var next := CascadePass(comps, pm, depth, c);
      if next.Err? {
        return Err(next.error);
      }
      c := next.value;
      passes := passes - 1;
    }
    if c.tuple !in space {
      return Err(KeyError);
    }
    r := Ok(NewTransition(t.kind, c.assignments, c.outputs, c.tuple));
  }

  // ---------------------------------------------------------------------
  // The transitions of the compound regimes
  // ---------------------------------------------------------------------

  function TransitionKinds(ts: seq<Transition>): seq<Kind>
  {
    seq(|ts|, k requires 0 <= k < |ts| => ts[k].kind)
  }

  function NewKinds(ts: seq<NewTransition>): seq<Kind>
  {
    seq(|ts|, k requires 0 <= k < |ts| => ts[k].kind)
  }

  lemma TransitionKindsAppend(a: seq<Transition>, b: seq<Transition>)
    ensures TransitionKinds(a + b) == TransitionKinds(a) + TransitionKinds(b)
  {
  }

  lemma NewKindsAppend(a: seq<NewTransition>, b: seq<NewTransition>)
    ensures NewKinds(a + b) == NewKinds(a) + NewKinds(b)
  {
  }

  /** Kinds that agree piecewise agree on the concatenation. */
  lemma KindsAppend(a: seq<NewTransition>, b: seq<NewTransition>, x: seq<Transition>, y: seq<Transition>)
    requires NewKinds(a) == TransitionKinds(x) && NewKinds(b) == TransitionKinds(y)
    ensures NewKinds(a + b) == TransitionKinds(x + y)
  {
    NewKindsAppend(a, b);
    TransitionKindsAppend(x, y);
  }

  /** A way of making the new transition for a transition of a given slot. */
  type Maker = (nat, Transition) -> Result<NewTransition>

  /** A maker that keeps each transition's kind. */
  ghost predicate KeepsKinds(make: Maker)
  {
    forall i, t :: make(i, t).Ok? ==> make(i, t).value.kind == t.kind
  }

  /** The new transitions for a list of transitions of slot `index`, one
      each, in order; the first failure stops the list. */
  function MapTransitions(make: Maker, index: nat, ts: seq<Transition>): Result<seq<NewTransition>>
    decreases |ts|
  {
    if ts == [] then Ok([])
    else
      var prev :- MapTransitions(make, index, ts[..|ts| - 1]);
      var nt :- make(index, ts[|ts| - 1]);
      Ok(prev + [nt])
  }

  /** One new transition per transition of the list, of the same kind: an
      OnCondition's trigger and an OnEvent's source port are kept. */
  lemma {:induction false} MapTransitionsKinds(make: Maker, index: nat, ts: seq<Transition>)
    requires KeepsKinds(make)
    ensures var r := MapTransitions(make, index, ts);
      r.Ok? ==> NewKinds(r.value) == TransitionKinds(ts)
    decreases |ts|
  {
    var r := MapTransitions(make, index, ts);
    if ts != [] && r.Ok? {
      var init := ts[..|ts| - 1];
      MapTransitionsKinds(make, index, init);
      var prev := MapTransitions(make, index, init).value;
      var nt := make(index, ts[|ts| - 1]).value;
      assert r.value == prev + [nt];
      KindsAppend(prev, [nt], init, [ts[|ts| - 1]]);
      assert init + [ts[|ts| - 1]] == ts;
    }
  }

  /** The list is built exactly when every transition in it can be. */
  lemma {:induction false} MapTransitionsOk(make: Maker, index: nat, ts: seq<Transition>)
    ensures MapTransitions(make, index, ts).Ok? <==> forall k :: 0 <= k < |ts| ==> make(index, ts[k]).Ok?
    decreases |ts|
  {
    if ts != [] {
      var init := ts[..|ts| - 1];
      MapTransitionsOk(make, index, init);
      assert forall k :: 0 <= k < |init| ==> init[k] == ts[k];
    }
  }

  /** A failure of the list is the failure of one of its transitions. */
  lemma {:induction false} MapTransitionsErr(make: Maker, index: nat, ts: seq<Transition>)
    ensures var r := MapTransitions(make, index, ts);
      r.Err? ==> exists k :: 0 <= k < |ts| && make(index, ts[k]) == Err(r.error)
    decreases |ts|
  {
    if ts != [] {
      var init := ts[..|ts| - 1];
      var prev := MapTransitions(make, index, init);
      if prev.Err? {
        MapTransitionsErr(make, index, init);
        var k :| 0 <= k < |init| && make(index, init[k]) == Err(prev.error);
        assert init[k] == ts[k];
      }
    }
  }

  /** One more transition of the list. */
  lemma MapTransitionsStep(make: Maker, index: nat, ts: seq<Transition>, k: nat, made: seq<NewTransition>)
    requires k < |ts| && MapTransitions(make, index, ts[..k]) == Ok(made) && make(index, ts[k]).Ok?
    ensures MapTransitions(make, index, ts[..k + 1]) == Ok(made + [make(index, ts[k]).value])
  {
    assert ts[..k + 1][..k] == ts[..k];
  }

  /** Once the transition at `k` fails, the whole list fails with its error. */
  lemma {:induction false} MapTransitionsErrorSticks(make: Maker, index: nat, ts: seq<Transition>, k: nat)
    requires k < |ts| && MapTransitions(make, index, ts[..k]).Ok? && make(index, ts[k]).Err?
    ensures MapTransitions(make, index, ts) == Err(make(index, ts[k]).error)
    decreases |ts|
  {
    if k == |ts| - 1 {
      assert ts[..|ts| - 1] == ts[..k];
    } else {
      var init := ts[..|ts| - 1];
      assert init[..k] == ts[..k] && init[k] == ts[k];
      MapTransitionsErrorSticks(make, index, init, k);
    }
  }

  /** The OnConditions of the first `n` slots of a tuple, slot by slot. */
  function OnConditionsUpTo(tuple: seq<Regime>, n: nat): seq<Transition>
    requires n <= |tuple|
  {
    if n == 0 then [] else OnConditionsUpTo(tuple, n - 1) + tuple[n - 1].onConditions
  }

  /** The OnEvents of the first `n` slots of a tuple, slot by slot. */
  function OnEventsUpTo(tuple: seq<Regime>, n: nat): seq<Transition>
    requires n <= |tuple|
  {
    if n == 0 then [] else OnEventsUpTo(tuple, n - 1) + tuple[n - 1].onEvents
  }

  /** The new OnConditions and OnEvents of one compound regime, built slot
      by slot: for each slot, those for its OnConditions, then those for
      its OnEvents. */
  function SlotsTransitions(make: Maker, tuple: seq<Regime>, n: nat): Result<(seq<NewTransition>, seq<NewTransition>)>
    requires n <= |tuple|
  {
    if n == 0 then Ok(([], []))
    else
      var prev :- SlotsTransitions(make, tuple, n - 1);
      var ocs :- MapTransitions(make, n - 1, tuple[n - 1].onConditions);
      var oes :- MapTransitions(make, n - 1, tuple[n - 1].onEvents);
      Ok((prev.0 + ocs, prev.1 + oes))
  }

  /** A compound regime gets one new OnCondition per OnCondition of its
      constituents, slot by slot and with the same trigger. */
  lemma {:induction false} SlotsOnConditionKinds(make: Maker, tuple: seq<Regime>, n: nat)
    requires n <= |tuple| && KeepsKinds(make)
    ensures var r := SlotsTransitions(make, tuple, n);
      r.Ok? ==> NewKinds(r.value.0) == TransitionKinds(OnConditionsUpTo(tuple, n))
  {
    var r := SlotsTransitions(make, tuple, n);
    if n > 0 && r.Ok? {
      SlotsOnConditionKinds(make, tuple, n - 1);
      var ts := tuple[n - 1].onConditions;
      var prev := SlotsTransitions(make, tuple, n - 1).value;
      var ocs := MapTransitions(make, n - 1, ts).value;
      assert r.value.0 == prev.0 + ocs;
      MapTransitionsKinds(make, n - 1, ts);
      KindsAppend(prev.0, ocs, OnConditionsUpTo(tuple, n - 1), ts);
    }
  }

  /** And one new OnEvent per OnEvent of its constituents, slot by slot and
      with the same source port. */
  lemma {:induction false} SlotsOnEventKinds(make: Maker, tuple: seq<Regime>, n: nat)
    requires n <= |tuple| && KeepsKinds(make)
    ensures var r := SlotsTransitions(make, tuple, n);
      r.Ok? ==> NewKinds(r.value.1) == TransitionKinds(OnEventsUpTo(tuple, n))
  {
    var r := SlotsTransitions(make, tuple, n);
    if n > 0 && r.Ok? {
      SlotsOnEventKinds(make, tuple, n - 1);
      var ts := tuple[n - 1].onEvents;
      var prev := SlotsTransitions(make, tuple, n - 1).value;
      var oes := MapTransitions(make, n - 1, ts).value;
      assert r.value.1 == prev.1 + oes;
      MapTransitionsKinds(make, n - 1, ts);
      KindsAppend(prev.1, oes, OnEventsUpTo(tuple, n - 1), ts);
    }
  }

  /** A failure of a compound regime is the failure of one transition of
      one of its slots. */
  lemma {:induction false} SlotsTransitionsErr(make: Maker, tuple: seq<Regime>, n: nat)
    requires n <= |tuple|
    ensures var r := SlotsTransitions(make, tuple, n);
      r.Err? ==> exists i, t :: 0 <= i < n && (t in tuple[i].onConditions || t in tuple[i].onEvents) && make(i, t) == Err(r.error)
  {
    if n > 0 {
      SlotsTransitionsErr(make, tuple, n - 1);
      MapTransitionsErr(make, n - 1, tuple[n - 1].onConditions);
      MapTransitionsErr(make, n - 1, tuple[n - 1].onEvents);
    }
  }

  /** Once the slots before `k` fail, the whole compound regime fails with
      the same error. */
  lemma {:induction false} SlotsErrorSticks(make: Maker, tuple: seq<Regime>, k: nat, n: nat)
    requires k <= n <= |tuple| && SlotsTransitions(make, tuple, k).Err?
    ensures SlotsTransitions(make, tuple, n) == SlotsTransitions(make, tuple, k)
  {
    if n > k {
      SlotsErrorSticks(make, tuple, k, n - 1);
    }
  }

  /** One more slot whose transitions are all made extends both lists. */
  lemma SlotsStep(make: Maker, tuple: seq<Regime>, index: nat, prev: (seq<NewTransition>, seq<NewTransition>),
                  ocs: seq<NewTransition>, oes: seq<NewTransition>)
    requires index < |tuple| && SlotsTransitions(make, tuple, index) == Ok(prev)
    requires MapTransitions(make, index, tuple[index].onConditions) == Ok(ocs)
    requires MapTransitions(make, index, tuple[index].onEvents) == Ok(oes)
    ensures SlotsTransitions(make, tuple, index + 1) == Ok((prev.0 + ocs, prev.1 + oes))
  {
  }

  /** A slot with a failing transition fails the compound regime with that
      failure, OnConditions first. */
  lemma SlotsStepErr(make: Maker, tuple: seq<Regime>, index: nat, prev: (seq<NewTransition>, seq<NewTransition>), e: Error)
    requires index < |tuple| && SlotsTransitions(make, tuple, index) == Ok(prev)
    requires MapTransitions(make, index, tuple[index].onConditions) == Err(e)
      || (MapTransitions(make, index, tuple[index].onConditions).Ok? && MapTransitions(make, index, tuple[index].onEvents) == Err(e))
    ensures SlotsTransitions(make, tuple, |tuple|) == Err(e)
  {
    SlotsErrorSticks(make, tuple, index + 1, |tuple|);
  }

  /** `create_new_transition` as a maker for the transitions out of one
      regime tuple; a slot outside the tuple is Python's `IndexError`. */
  function Create(comps: seq<Component>, pm: PortMap, depth: nat, space: Space, tuple: seq<Regime>, fuel: nat): Maker
    requires |tuple| == |comps|
  {
    (index: nat, t: Transition) =>
      if index < |tuple| then CreateTransition(comps, pm, depth, space, tuple, index, t, fuel) else Err(IndexError)
  }

  /** It keeps the kinds. */
  lemma CreateKeepsKinds(comps: seq<Component>, pm: PortMap, depth: nat, space: Space, tuple: seq<Regime>, fuel: nat)
    requires |tuple| == |comps|
    ensures KeepsKinds(Create(comps, pm, depth, space, tuple, fuel))
  {
    var make := Create(comps, pm, depth, space, tuple, fuel);
    forall i, t | make(i, t).Ok?
      ensures make(i, t).value.kind == t.kind
    {
      CreateTransitionKeeps(comps, pm, depth, space, tuple, i, t, fuel);
    }
  }

  /** The new transitions of the compound regime of `tuple`. */
  function RegimeTransitions(comps: seq<Component>, pm: PortMap, depth: nat, space: Space,
                             tuple: seq<Regime>, fuel: nat): Result<(seq<NewTransition>, seq<NewTransition>)>
    requires |tuple| == |comps|
  {
    SlotsTransitions(Create(comps, pm, depth, space, tuple, fuel), tuple, |tuple|)
  }

  /** In the regime space built for the same components, a compound regime
      never fails on the lookup of a final tuple. */
  lemma RegimeTransitionsFound(comps: seq<Component>, pm: PortMap, depth: nat, space: Space, tuple: seq<Regime>, fuel: nat)
    requires |tuple| == |comps|
    requires forall x :: x in space <==> IsCombination(x, RegimeLists(comps))
    requires IsCombination(tuple, RegimeLists(comps))
    ensures var r := RegimeTransitions(comps, pm, depth, space, tuple, fuel);
      r.Err? ==> r.error in {AssertionFailed, NameError, RuntimeError}
  {
    var make := Create(comps, pm, depth, space, tuple, fuel);
    SlotsTransitionsErr(make, tuple, |tuple|);
    var r := RegimeTransitions(comps, pm, depth, space, tuple, fuel);
    if r.Err? {
      var i, t :| 0 <= i < |tuple| && (t in tuple[i].onConditions || t in tuple[i].onEvents) && make(i, t) == Err(r.error);
      CreateTransitionFound(comps, pm, depth, space, tuple, i, t, fuel);
    }
  }

  /** The loop over one list of transitions. */
  method NewTransitionsLoop(comps: seq<Component>, pm: PortMap, depth: nat, space: Space,
                            tuple: seq<Regime>, index: nat, ts: seq<Transition>, fuel: nat) returns (r: Result<seq<NewTransition>>)
    requires |tuple| == |comps| && index < |tuple|
    ensures r == MapTransitions(Create(comps, pm, depth, space, tuple, fuel), index, ts)
  {
    ghost var make := Create(comps, pm, depth, space, tuple, fuel);
    var made: seq<NewTransition> := [];
    var k := 0;
    while k < |ts|
      invariant 0 <= k <= |ts|
      invariant MapTransitions(make, index, ts[..k]) == Ok(made)
    {
      var nt := CreateNewTransition(comps, pm, depth, space, tuple, index, ts[k], fuel);
      assert nt == make(index, ts[k]);
      if nt.Err? {
        MapTransitionsErrorSticks(make, index, ts, k);
        return Err(nt.error);
      }
      MapTransitionsStep(make, index, ts, k, made);
      made := made + [nt.value];
      k := k + 1;
    }
    assert ts[..k] == ts;
    r := Ok(made);
  }

  /** The loops over the slots of one regime tuple. */
  method RegimeTransitionsLoop(comps: seq<Component>, pm: PortMap, depth: nat, space: Space,
                               tuple: seq<Regime>, fuel: nat) returns (r: Result<(seq<NewTransition>, seq<NewTransition>)>)
    requires |tuple| == |comps|
    ensures r == RegimeTransitions(comps, pm, depth, space, tuple, fuel)
  {
    ghost var make := Create(comps, pm, depth, space, tuple, fuel);
    var ocs: seq<NewTransition> := [];
    var oes: seq<NewTransition> := [];
    var index := 0;
    while index < |tuple|
      invariant 0 <= index <= |tuple|
      invariant SlotsTransitions(make, tuple, index) == Ok((ocs, oes))
    {
      var newOcs := NewTransitionsLoop(comps, pm, depth, space, tuple, index, tuple[index].onConditions, fuel);
      if newOcs.Err? {
        SlotsStepErr(make, tuple, index, (ocs, oes), newOcs.error);
        return Err(newOcs.error);
      }
      var newOes := NewTransitionsLoop(comps, pm, depth, space, tuple, index, tuple[index].onEvents, fuel);
      if newOes.Err? {
        SlotsStepErr(make, tuple, index, (ocs, oes), newOes.error);
        return Err(newOes.error);
      }
      SlotsStep(make, tuple, index, (ocs, oes), newOcs.value, newOes.value);
      ocs := ocs + newOcs.value;
      oes := oes + newOes.value;
      index := index + 1;
    }
    r := Ok((ocs, oes));
  }

  /** `add_on_condition` and `add_on_event` on a compound regime. */
  function WithTransitions(c: CompoundRegime, nts: (seq<NewTransition>, seq<NewTransition>)): CompoundRegime
  {
    CompoundRegime(c.timeDerivatives, c.onConditions + nts.0, c.onEvents + nts.1)
  }

  /** The second loop of `build_new_regime_space`: every compound regime
      gets its new transitions, in whatever order the lookup map is walked;
      the first failure ends it. */
  method BuildTransitions(comps: seq<Component>, pm: PortMap, depth: nat, space: Space, fuel: nat) returns (r: Result<Space>)
    requires forall t :: t in space ==> |t| == |comps|
    ensures r.Ok? <==> forall t :: t in space ==> RegimeTransitions(comps, pm, depth, space, t, fuel).Ok?
    ensures r.Err? ==> exists t :: t in space && RegimeTransitions(comps, pm, depth, space, t, fuel) == Err(r.error)
    ensures r.Ok? ==> r.value.Keys == space.Keys
    ensures r.Ok? ==> forall t :: t in space ==>
      r.value[t] == WithTransitions(space[t], RegimeTransitions(comps, pm, depth, space, t, fuel).value)
  {
    var result := space;
    var todo := space.Keys;
    while todo != {}
      invariant todo <= space.Keys && result.Keys == space.Keys
      invariant forall t :: t in space && t !in todo ==> RegimeTransitions(comps, pm, depth, space, t, fuel).Ok?
      invariant forall t :: t in space && t !in todo ==>
        result[t] == WithTransitions(space[t], RegimeTransitions(comps, pm, depth, space, t, fuel).value)
      decreases todo
    {
      var t :| t in todo;
      var nts := RegimeTransitionsLoop(comps, pm, depth, space, t, fuel);
      if nts.Err? {
        return Err(nts.error);
      }
      result := result[t := WithTransitions(space[t], nts.value)];
      todo := todo - {t};
    }
    r := Ok(result);
  }

  /** A compound regime's new OnConditions and OnEvents are one per
      OnCondition and OnEvent of its constituents, of the same kind. */
  lemma RegimeTransitionsKinds(comps: seq<Component>, pm: PortMap, depth: nat, space: Space, tuple: seq<Regime>, fuel: nat)
    requires |tuple| == |comps|
    ensures var r := RegimeTransitions(comps, pm, depth, space, tuple, fuel);
      r.Ok? ==> NewKinds(r.value.0) == TransitionKinds(OnConditionsUpTo(tuple, |tuple|)) &&
                NewKinds(r.value.1) == TransitionKinds(OnEventsUpTo(tuple, |tuple|))
  {
    var make := Create(comps, pm, depth, space, tuple, fuel);
    CreateKeepsKinds(comps, pm, depth, space, tuple, fuel);
    SlotsOnConditionKinds(make, tuple, |tuple|);
    SlotsOnEventKinds(make, tuple, |tuple|);
  }

  /** `ComponentFlattener`'s regime space, complete: one compound regime per
      combination of the sub-components' regimes, with their time
      derivatives and, for every OnCondition and OnEvent of the constituent
      regimes, slot by slot, one new transition of the same kind.  The
      lookup of a final tuple never fails; what can fail is an ambiguous
      OnEvent, a missing target regime, the re-trigger guard, a cyclic
      distribution or a cascade that does not end. */
  method Flatten(comps: seq<Component>, pm: PortMap, depth: nat, fuel: nat) returns (r: Result<Space>)
    ensures r.Ok? ==> forall t :: t in r.value <==> IsCombination(t, RegimeLists(comps))
    ensures r.Ok? ==> forall t :: t in r.value ==> r.value[t].timeDerivatives == NewCompound(t).timeDerivatives
    ensures r.Ok? ==> forall t :: t in r.value ==>
      NewKinds(r.value[t].onConditions) == TransitionKinds(OnConditionsUpTo(t, |t|)) &&
      NewKinds(r.value[t].onEvents) == TransitionKinds(OnEventsUpTo(t, |t|))
    ensures r.Err? ==> r.error in {AssertionFailed, NameError, RuntimeError}
  {
    var space := BuildRegimeSpace(comps);
    r := BuildTransitions(comps, pm, depth, space, fuel);
    if r.Err? {
      var t :| t in space && RegimeTransitions(comps, pm, depth, space, t, fuel) == Err(r.error);
      RegimeTransitionsFound(comps, pm, depth, space, t, fuel);
    } else {
      SpaceKinds(comps, pm, depth, space, fuel, r.value);
    }
  }

  /** The kinds of the transitions of every compound regime of a finished
      regime space. */
  lemma SpaceKinds(comps: seq<Component>, pm: PortMap, depth: nat, space: Space, fuel: nat, done: Space)
    requires forall t :: t in space ==> |t| == |comps| && space[t] == NewCompound(t)
    requires forall t :: t in space ==> RegimeTransitions(comps, pm, depth, space, t, fuel).Ok?
    requires done.Keys == space.Keys
    requires forall t :: t in space ==>
      done[t] == WithTransitions(space[t], RegimeTransitions(comps, pm, depth, space, t, fuel).value)
    ensures forall t :: t in done ==>
      NewKinds(done[t].onConditions) == TransitionKinds(OnConditionsUpTo(t, |t|)) &&
      NewKinds(done[t].onEvents) == TransitionKinds(OnEventsUpTo(t, |t|))
  {
    forall t | t in done
      ensures NewKinds(done[t].onConditions) == TransitionKinds(OnConditionsUpTo(t, |t|))
      ensures NewKinds(done[t].onEvents) == TransitionKinds(OnEventsUpTo(t, |t|))
    {
      RegimeTransitionsKinds(comps, pm, depth, space, t, fuel);
      var nts := RegimeTransitions(comps, pm, depth, space, t, fuel).value;
      assert [] + nts.0 == nts.0 && [] + nts.1 == nts.1;
    }
  }

  // ---------------------------------------------------------------------
  // Receive and reduce ports (`remap_ports`)
  // ---------------------------------------------------------------------

  /** The analog ports of all the sub-components by name. */
  type AnalogPorts = map<string, Port>

  /** A port connection, by the names of its two ports (the last part of
      each address). */
  type Connection = (string, string)

  /** `globalRemapPort(original, target)`: every use of the port `original`
      is rewritten to the expression `target`. */
  datatype Remap = Remap(original: string, target: string)

  /** The state of step A: the analog ports left, the connections left, and
      the renamings done. */
  datatype Received = Received(ports: AnalogPorts, kept: seq<Connection>, remaps: seq<Remap>)

  /** One connection of step A: both ports are looked up (`KeyError` when
      one is missing, also when it was removed by an earlier connection); a
      receive port is renamed to its sender, removed, and its connection
      dropped. */
  function ReceiveOne(prev: Received, c: Connection): Result<Received>
  {
    if c.0 !in prev.ports || c.1 !in prev.ports then Err(KeyError)
    else if prev.ports[c.1].kind == AnalogReceive then
      Ok(Received(prev.ports - {c.1}, prev.kept, prev.remaps + [Remap(prev.ports[c.1].name, prev.ports[c.0].name)]))
    else Ok(Received(prev.ports, prev.kept + [c], prev.remaps))
  }

  /** Step A over the first `n` connections. */
  function ReceiveUpTo(ports: AnalogPorts, conns: seq<Connection>, n: nat): Result<Received>
    requires n <= |conns|
  {
    if n == 0 then Ok(Received(ports, [], []))
    else
      var prev :- ReceiveUpTo(ports, conns, n - 1);
      ReceiveOne(prev, conns[n - 1])
  }

  /** The receive ports connected among the first `k` connections. */
  function Removed(ports: AnalogPorts, conns: seq<Connection>, k: nat): set<string>
    requires k <= |conns|
  {
    set j | 0 <= j < k && conns[j].1 in ports && ports[conns[j].1].kind == AnalogReceive :: conns[j].1
  }

  /** The connections that do not end at a receive port, in order. */
  function NotToReceive(ports: AnalogPorts, conns: seq<Connection>): seq<Connection>
  {
    if conns == [] then []
    else
      var init := NotToReceive(ports, conns[..|conns| - 1]);
      var c := conns[|conns| - 1];
      if c.1 in ports && ports[c.1].kind == AnalogReceive then init else init + [c]
  }

  /** The renamings of the receive ports, in order: each to its sender. */
  function ReceiveRenamings(conns: seq<Connection>, ports: AnalogPorts): seq<Remap>
  {
    if conns == [] then []
    else
      var init := ReceiveRenamings(conns[..|conns| - 1], ports);
      var c := conns[|conns| - 1];
      if c.1 in ports && ports[c.1].kind == AnalogReceive then init + [Remap(c.1, c.0)] else init
  }

  /** Ports keyed by their own names, as `new_analog_ports` is built. */
  predicate KeyedByName(ports: AnalogPorts)
  {
    forall n :: n in ports ==> ports[n].name == n
  }

  /** Step A succeeds exactly when every connection finds both its ports
      among those not yet removed; it then leaves the ports other than the
      connected receive ports, the connections to other ports in order,
      and one renaming of each receive port to its sender. */
  lemma {:induction false} ReceiveOutcome(ports: AnalogPorts, conns: seq<Connection>, n: nat)
    requires n <= |conns| && KeyedByName(ports)
    ensures ReceiveUpTo(ports, conns, n).Ok? <==>
      forall k :: 0 <= k < n ==> conns[k].0 in ports && conns[k].0 !in Removed(ports, conns, k) &&
                                 conns[k].1 in ports && conns[k].1 !in Removed(ports, conns, k)
    ensures ReceiveUpTo(ports, conns, n).Ok? ==>
      ReceiveUpTo(ports, conns, n).value == Received(ports - Removed(ports, conns, n),
                                                     NotToReceive(ports, conns[..n]), ReceiveRenamings(conns[..n], ports))
    ensures ReceiveUpTo(ports, conns, n).Err? ==> ReceiveUpTo(ports, conns, n).error == KeyError
  {
    if n > 0 {
      ReceiveOutcome(ports, conns, n - 1);
      ReceiveStep(ports, conns, n - 1);
    }
  }

  /** One connection of step A, given the state after the ones before it. */
  lemma ReceiveStep(ports: AnalogPorts, conns: seq<Connection>, k: nat)
    requires k < |conns| && KeyedByName(ports)
    requires ReceiveUpTo(ports, conns, k).Ok? ==>
      ReceiveUpTo(ports, conns, k).value == Received(ports - Removed(ports, conns, k),
                                                     NotToReceive(ports, conns[..k]), ReceiveRenamings(conns[..k], ports))
    ensures ReceiveUpTo(ports, conns, k).Ok? ==>
      (ReceiveUpTo(ports, conns, k + 1).Ok? <==>
         conns[k].0 in ports && conns[k].0 !in Removed(ports, conns, k) &&
         conns[k].1 in ports && conns[k].1 !in Removed(ports, conns, k))
    ensures ReceiveUpTo(ports, conns, k + 1).Ok? ==>
      ReceiveUpTo(ports, conns, k + 1).value == Received(ports - Removed(ports, conns, k + 1),
                                                         NotToReceive(ports, conns[..k + 1]), ReceiveRenamings(conns[..k + 1], ports))
  {
    var c := conns[k];
    assert conns[..k + 1][..k] == conns[..k];
    if c.1 in ports && ports[c.1].kind == AnalogReceive {
      assert Removed(ports, conns, k + 1) == Removed(ports, conns, k) + {c.1};
    } else {
      assert Removed(ports, conns, k + 1) == Removed(ports, conns, k);
    }
  }

  /** So a receive port connected twice makes step A fail. */
  lemma ReceiveConnectedTwice(ports: AnalogPorts, conns: seq<Connection>, i: nat, j: nat)
    requires i < j < |conns| && KeyedByName(ports)
    requires conns[i].1 == conns[j].1 && conns[i].1 in ports && ports[conns[i].1].kind == AnalogReceive
    ensures ReceiveUpTo(ports, conns, |conns|) == Err(KeyError)
  {
    ReceiveOutcome(ports, conns, |conns|);
    assert conns[j].1 in Removed(ports, conns, j);
  }

  /** Step A of `remap_ports`: the loop over a copy of the connections. */
  method HandleReceivePorts(ports: AnalogPorts, conns: seq<Connection>) returns (r: Result<Received>)
    ensures r == ReceiveUpTo(ports, conns, |conns|)
  {
    var left := ports;
    var kept: seq<Connection> := [];
    var remaps: seq<Remap> := [];
    var k := 0;
    while k < |conns|
      invariant 0 <= k <= |conns|
      invariant ReceiveUpTo(ports, conns, k) == Ok(Received(left, kept, remaps))
    {
      var (src, dst) := conns[k];
      if src !in left || dst !in left {
        ReceiveErrorSticks(ports, conns, k + 1, |conns|);
        return Err(KeyError);
      }
      if left[dst].kind == AnalogReceive {
        remaps := remaps + [Remap(left[dst].name, left[src].name)];
        left := left - {dst};
      } else {
        kept := kept + [(src, dst)];
      }
      k := k + 1;
    }
    r := Ok(Received(left, kept, remaps));
  }

  lemma {:induction false} ReceiveErrorSticks(ports: AnalogPorts, conns: seq<Connection>, k: nat, n: nat)
    requires k <= n <= |conns| && ReceiveUpTo(ports, conns, k).Err?
    ensures ReceiveUpTo(ports, conns, n) == ReceiveUpTo(ports, conns, k)
  {
    if n > k {
      ReceiveErrorSticks(ports, conns, k, n - 1);
    }
  }

  /** Step B.1 over the first `n` connections left: each connection looks
      both its ports up among those left by step A, and a reduce port
      collects the names of its senders, in order. */
  function ReduceSendersUpTo(ports: AnalogPorts, conns: seq<Connection>, n: nat): Result<map<string, seq<string>>>
    requires n <= |conns|
  {
    if n == 0 then Ok(map[])
    else
      var prev :- ReduceSendersUpTo(ports, conns, n - 1);
      var c := conns[n - 1];
      if c.1 !in ports || c.0 !in ports then Err(KeyError)
      else if ports[c.1].kind == AnalogReduce then
        Ok(prev[c.1 := (if c.1 in prev then prev[c.1] else []) + [ports[c.0].name]])
      else Ok(prev)
  }

  /** The senders of a port among the connections, in order. */
  function Senders(conns: seq<Connection>, dst: string): seq<string>
  {
    if conns == [] then []
    else
      var init := Senders(conns[..|conns| - 1], dst);
      if conns[|conns| - 1].1 == dst then init + [conns[|conns| - 1].0] else init
  }

  /** Step B.1 succeeds exactly when every port of every connection is
      there, and fails otherwise with `KeyError`. */
  lemma {:induction false} ReduceSendersOk(ports: AnalogPorts, conns: seq<Connection>, n: nat)
    requires n <= |conns|
    ensures ReduceSendersUpTo(ports, conns, n).Ok? <==>
      forall k :: 0 <= k < n ==> conns[k].0 in ports && conns[k].1 in ports
    ensures ReduceSendersUpTo(ports, conns, n).Err? ==> ReduceSendersUpTo(ports, conns, n).error == KeyError
  {
    if n > 0 {
      ReduceSendersOk(ports, conns, n - 1);
    }
  }

  /** The reduce ports connected among the first `n` connections. */
  ghost predicate ReduceConnected(ports: AnalogPorts, conns: seq<Connection>, n: nat, d: string)
    requires n <= |conns|
  {
    exists k :: 0 <= k < n && conns[k].1 == d && d in ports && ports[d].kind == AnalogReduce
  }

  /** Its map then holds exactly the connected reduce ports, each with all
      its senders in the order of the connections. */
  lemma {:induction false} ReduceSendersMap(ports: AnalogPorts, conns: seq<Connection>, n: nat)
    requires n <= |conns| && KeyedByName(ports)
    ensures var r := ReduceSendersUpTo(ports, conns, n);
      r.Ok? ==> forall d :: d in r.value <==> ReduceConnected(ports, conns, n, d)
    ensures var r := ReduceSendersUpTo(ports, conns, n);
      r.Ok? ==> forall d :: d in r.value ==> r.value[d] == Senders(conns[..n], d)
  {
    if n > 0 {
      ReduceSendersMap(ports, conns, n - 1);
      var r := ReduceSendersUpTo(ports, conns, n);
      if r.Ok? {
        ReduceSendersMapStep(ports, conns, n - 1, ReduceSendersUpTo(ports, conns, n - 1).value);
      }
    }
  }

  /** One connection of step B.1. */
  lemma ReduceSendersMapStep(ports: AnalogPorts, conns: seq<Connection>, k: nat, prev: map<string, seq<string>>)
    requires k < |conns| && KeyedByName(ports)
    requires ReduceSendersUpTo(ports, conns, k) == Ok(prev)
    requires forall d :: d in prev <==> ReduceConnected(ports, conns, k, d)
    requires forall d :: d in prev ==> prev[d] == Senders(conns[..k], d)
    ensures var r := ReduceSendersUpTo(ports, conns, k + 1);
      r.Ok? ==> forall d :: d in r.value <==> ReduceConnected(ports, conns, k + 1, d)
    ensures var r := ReduceSendersUpTo(ports, conns, k + 1);
      r.Ok? ==> forall d :: d in r.value ==> r.value[d] == Senders(conns[..k + 1], d)
  {
    var r := ReduceSendersUpTo(ports, conns, k + 1);
    var c := conns[k];
    assert conns[..k + 1][..k] == conns[..k];
    if r.Ok? {
      forall d
        ensures d in r.value <==> ReduceConnected(ports, conns, k + 1, d)
      {
        if ReduceConnected(ports, conns, k + 1, d) && d != c.1 {
          var i :| 0 <= i < k + 1 && conns[i].1 == d && d in ports && ports[d].kind == AnalogReduce;
          assert ReduceConnected(ports, conns, k, d);
        }
      }
      forall d | d in r.value
        ensures r.value[d] == Senders(conns[..k + 1], d)
      {
        if d == c.1 && d !in prev {
          assert forall i :: 0 <= i < k ==> conns[..k][i].1 != d;
          SendersNone(conns[..k], d);
        }
      }
    }
  }

  /** A port no connection ends at has no senders. */
  lemma {:induction false} SendersNone(conns: seq<Connection>, dst: string)
    requires forall k :: 0 <= k < |conns| ==> conns[k].1 != dst
    ensures Senders(conns, dst) == []
  {
    if conns != [] {
      SendersNone(conns[..|conns| - 1], dst);
    }
  }

  /** Step B.1 of `remap_ports`: the loop filling the `defaultdict(list)`. */
  method CollectReduceSenders(ports: AnalogPorts, conns: seq<Connection>) returns (r: Result<map<string, seq<string>>>)
    ensures r == ReduceSendersUpTo(ports, conns, |conns|)
  {
    var senders: map<string, seq<string>> := map[];
    var k := 0;
    while k < |conns|
      invariant 0 <= k <= |conns|
      invariant ReduceSendersUpTo(ports, conns, k) == Ok(senders)
    {
      var (src, dst) := conns[k];
      if dst !in ports || src !in ports {
        ReduceSendersErrorSticks(ports, conns, k + 1, |conns|);
        return Err(KeyError);
      }
      if ports[dst].kind == AnalogReduce {
        var list := if dst in senders then senders[dst] else [];
        senders := senders[dst := list + [ports[src].name]];
      }
      k := k + 1;
    }
    r := Ok(senders);
  }

  lemma {:induction false} ReduceSendersErrorSticks(ports: AnalogPorts, conns: seq<Connection>, k: nat, n: nat)
    requires k <= n <= |conns| && ReduceSendersUpTo(ports, conns, k).Err?
    ensures ReduceSendersUpTo(ports, conns, n) == ReduceSendersUpTo(ports, conns, k)
  {
    if n > k {
      ReduceSendersErrorSticks(ports, conns, k, n - 1);
    }
  }

  /** The expression a reduce port is replaced by: its operator joining the
      port's name and then its senders' names. */
  function ReduceExpression(op: string, dst: string, senders: seq<string>): string
  {
    Join(op, [dst] + senders)
  }

  /** With no sender the port stands for itself; otherwise the operator
      follows the port's name and separates the senders. */
  lemma ReduceExpressionShape(op: string, dst: string, senders: seq<string>)
    ensures senders == [] ==> ReduceExpression(op, dst, senders) == dst
    ensures senders != [] ==> ReduceExpression(op, dst, senders) == dst + op + Join(op, senders)
    ensures |senders| == 1 ==> ReduceExpression(op, dst, senders) == dst + op + senders[0]
  {
    if senders != [] {
      JoinCons(op, dst, senders);
    }
  }

  /** Step B.2 of `remap_ports`: one renaming per reduce port, in whatever
      order the map is walked. */
  method ReduceRenamings(ports: AnalogPorts, senders: map<string, seq<string>>) returns (remaps: seq<Remap>)
    requires forall d :: d in senders ==> d in ports
    ensures |remaps| == |senders|
    ensures forall d :: d in senders ==> Remap(ports[d].name, ReduceExpression(ports[d].reduceOp, ports[d].name, senders[d])) in remaps
    ensures forall m :: m in remaps ==>
      exists d :: d in senders && m == Remap(ports[d].name, ReduceExpression(ports[d].reduceOp, ports[d].name, senders[d]))
  {
    remaps := [];
    var todo := senders.Keys;
    while todo != {}
      invariant todo <= senders.Keys
      invariant |remaps| + |todo| == |senders|
      invariant forall d :: d in senders && d !in todo ==>
        Remap(ports[d].name, ReduceExpression(ports[d].reduceOp, ports[d].name, senders[d])) in remaps
      invariant forall m :: m in remaps ==>
        exists d :: d in senders && m == Remap(ports[d].name, ReduceExpression(ports[d].reduceOp, ports[d].name, senders[d]))
      decreases todo
    {
      var d :| d in todo;
      remaps := remaps + [Remap(ports[d].name, ReduceExpression(ports[d].reduceOp, ports[d].name, senders[d]))];
      todo := todo - {d};
    }
  }

  /** The port part of `remap_ports`: receive ports are renamed to their
      senders and removed, then every reduce port is renamed to the join of
      its name and its senders.  The ports left are those of step A. */
  method RemapPorts(ports: AnalogPorts, conns: seq<Connection>) returns (r: Result<(AnalogPorts, seq<Remap>)>)
    ensures r.Ok? <==> (ReceiveUpTo(ports, conns, |conns|).Ok? &&
                        ReduceSendersUpTo(ReceiveUpTo(ports, conns, |conns|).value.ports,
                                          ReceiveUpTo(ports, conns, |conns|).value.kept,
                                          |ReceiveUpTo(ports, conns, |conns|).value.kept|).Ok?)
    ensures r.Err? ==> r.error == KeyError
    ensures r.Ok? ==> r.value.0 == ReceiveUpTo(ports, conns, |conns|).value.ports
    ensures r.Ok? ==> ReceiveUpTo(ports, conns, |conns|).value.remaps <= r.value.1
  {
    var a := HandleReceivePorts(ports, conns);
    if a.Err? {
      ReceiveErrorIsKey(ports, conns, |conns|);
      return Err(a.error);
    }
    var senders := CollectReduceSenders(a.value.ports, a.value.kept);
    if senders.Err? {
      ReduceSendersErrorIsKey(a.value.ports, a.value.kept, |a.value.kept|);
      return Err(senders.error);
    }
    ReduceSendersKeys(a.value.ports, a.value.kept, |a.value.kept|);
    var reduceRemaps := ReduceRenamings(a.value.ports, senders.value);
    r := Ok((a.value.ports, a.value.remaps + reduceRemaps));
  }

  lemma {:induction false} ReceiveErrorIsKey(ports: AnalogPorts, conns: seq<Connection>, n: nat)
    requires n <= |conns|
    ensures ReceiveUpTo(ports, conns, n).Err? ==> ReceiveUpTo(ports, conns, n).error == KeyError
  {
    if n > 0 {
      ReceiveErrorIsKey(ports, conns, n - 1);
    }
  }

  lemma {:induction false} ReduceSendersErrorIsKey(ports: AnalogPorts, conns: seq<Connection>, n: nat)
    requires n <= |conns|
    ensures ReduceSendersUpTo(ports, conns, n).Err? ==> ReduceSendersUpTo(ports, conns, n).error == KeyError
  {
    if n > 0 {
      ReduceSendersErrorIsKey(ports, conns, n - 1);
    }
  }

  /** Every port collected in step B.1 is one of the ports. */
  lemma {:induction false} ReduceSendersKeys(ports: AnalogPorts, conns: seq<Connection>, n: nat)
    requires n <= |conns|
    ensures ReduceSendersUpTo(ports, conns, n).Ok? ==> forall d :: d in ReduceSendersUpTo(ports, conns, n).value ==> d in ports
  {
    if n > 0 {
      ReduceSendersKeys(ports, conns, n - 1);
    }
  }
}
