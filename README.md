# lib9ML model-building core in Dafny

This project models the part of lib9ML (the Python library for NineML, the
Network Interchange for Neuroscience Modelling Language) that builds models
out of other models. It covers:

- **Namespace mangling.** `append_namespace` / `split_namespace`,
  `make_regime_name`, `make_delay_trigger_name` and the read-only namespaced
  wrappers are in `namespace.dfy`.
- **Composition of hybrid state machines.** Both versions are modelled:
  - `MultiDynamics.__init__`, which keeps connection lists per receive port,
    forms the Cartesian product of regimes and builds the analog aliases,
    is in `multi_dynamics.dfy`, with `itertools.product` in `products.dfy`;
  - `ComponentFlattener`, which builds the regime-tuple space, moves one slot
    per transition, runs the worklist event cascade and remaps ports, is in
    `flattening.dfy`.
- **Transitions.** State assignments, output events, OnEvent and
  OnCondition, target, source and port binding, and triggers are in
  `transitions.dfy`.
- **Port connections and port exposures.** These are in
  `port_connections.dfy` and `port_exposures.dfy`, over the ports of
  `ports.dfy`.
- **Validators and modifiers.** The event and analog port validators are in
  `cv_ports.dfy`. The symbol-rename and port modifiers, which re-key
  dictionaries in place, are in `component_modifiers.dfy` and
  `dynamics_modifiers.dfy`.
- **Supporting structures.**
  - The annotations tree is in `annotations.dfy`.
  - Selections of populations are in `selection.dfy`.
  - Index-contiguity validation of rows is in `indexed.dfy`, shared by
    selections and values.
  - Values and quantities are in `values.dfy`.
  - Multi-component containers, trees and mappings are in `multicomponent.dfy`.
  - User-layer components and property matching are in `components.dfy`.
  - The format-independent core of serialization is in `serialization.dfy`.

**Shared modules.**

- Python exceptions become `Err` values of the `Result` type in
  `wrappers.dfy`.
- Python's `str.join`, `strip` and string ordering are in `strings.dfy`.
- Right-hand-side expressions are opaque terms in `expressions.dfy`. They
  support free symbols, renaming and substitution.

**State.** Objects whose fields the source updates in place are classes:

- transitions and their binding;
- port connections and exposures;
- the component classes the modifiers rewrite;
- the annotations root;
- quantities;
- the serialization nodes.

The flattener's worklist and the validators' collection passes are methods
with loops, proved against specification functions. Pure code is functions
and lemmas.

**Where the code is not followed.** Several places in the code do not run
as written. For the places listed under "## Findings", the model implements
the evident intent and also models the code as written, with a lemma that
exhibits the difference. These are:

- the undefined port lists of `SubDynamics`, and the wrong port tests,
  argument order, arities and undefined methods of the multi-dynamics
  connection loop and its alias loops;
- the undefined names of the flattener's event response;
- its re-trigger guard, which compares objects with strings;
- the list handed to `distribute_event`, and `append` on a set;
- the literal regular-expression replacement of `append_namespace`;
- the miscounting port properties of a selection;
- the two port renamings of the dynamics modifiers.

Where the library's own description and the code differ, the model follows
the code: reduce-port connection lists are created, but
`MultiDynamics.__init__` never appends to them
(nineml/user/multi_dynamics.py:207-217), so every reduce alias is `0`, as
the model states. Likewise, the handler for an operand without `units`
reads its `value` (nineml/values.py:608), so a bare number raises
`AttributeError` even next to a unitless quantity; the model raises it
too, and adds only operands with a `value`, such as a `SingleValue`.

The following places model the evident intent, and are listed as
findings with their as-written counterparts:

- The `num_analog_receive_ports` and `num_event_send_ports` properties
  count the wrong port kind (nineml/user/selection.py:149,165).
- A renamed OnEvent keeps its old source port
  (nineml/abstraction_layer/dynamics/utils/modifiers.py:160-163). The model
  moves the OnEvent to the new name.

The following places are recorded as differences and not reproduced. The
model follows the evident intent and has no as-written counterpart:

- At nineml/user/multi_dynamics.py:225-227, `chain(*[MultiRegime(...) ...])`
  chains `MultiRegime` objects, which are regimes and not lists of them.
  The model takes the list of composite regimes.
- At nineml/user/multi_dynamics.py:252 and :255, `parameters` and
  `constants` are read of `SubDynamics`, which defines neither. Parameters
  and constants are not part of this model.
- At nineml/user/multi_dynamics.py:256, aliases are passed as state
  variables. The model keeps them as aliases.
- At nineml/user/multi_dynamics.py:271-272, `event_port_connections`
  returns the analog connections.
- At nineml/user/multi/namespace.py:271-274, OnConditions are wrapped as
  OnEvents.
- At nineml/user/multi/namespace.py:167, `target_regime_name` uses an
  undefined `self.suffix`.
- At nineml/user/multi/namespace.py:62 and :69, the delay-trigger and
  regime names use the same literal replacement `r'/1/2_/3'` as
  `append_namespace`. The model escapes each run of underscores as
  intended.
- At nineml/user_layer/components/base.py:67 and :78, a prototype is read
  for `_definition` and `properties`, which `Prototype` does not define.
  The model follows a prototype to the component it names, and reads that
  component's definition and properties.
- At nineml/user_layer/components/base.py:104, :111 and :119,
  `self.definition` is read, which this file does not define (the base
  class `BaseULObject` is not part of this model). The model takes the
  component class at the end of the prototype chain.

## Model

| member | source | states |
|---|---|---|
| Namespace.AppendNamespace | nineml/user/multi/namespace.py:25-35 | the global name is the identifier unchanged, then `__`, then the escaped namespace; that suffix contains no delimiter and unescapes to the namespace |
| Namespace.EscapeNoDouble | nineml/user/multi/namespace.py:15-17 | a namespace without adjacent underscores is left as it is by escaping |
| Namespace.EscapePlain | nineml/user/multi/namespace.py:30-35 | a namespace with no underscore is left as it is by escaping |
| Namespace.EscapeFirst | nineml/user/multi/namespace.py:30-33 | escaping keeps whether the namespace starts with an underscore |
| Namespace.EscapeLast | nineml/user/multi/namespace.py:30-33 | escaping keeps the last character of a namespace that does not end in an underscore |
| Namespace.UnescapeEscape | nineml/user/multi/namespace.py:20-22 | removing one underscore from each run of three or more undoes adding one to each run of two or more |
| Namespace.SplitEscape | nineml/user/multi/namespace.py:15-19 | an escaped namespace holds no exactly-double underscore, so splitting leaves it whole |
| Namespace.JoinSplit | nineml/user/multi/namespace.py:19 | splitting at exactly-double underscores and re-joining the parts with `__` gives back the name |
| Namespace.SplitConcat | nineml/user/multi/namespace.py:19 | a `__` between a name not ending and a name not starting with an underscore splits into the parts of each side |
| Namespace.SplitJoin | nineml/user/multi/namespace.py:43-45 | parts with no underscore at either end and no adjacent underscores, joined with `__`, split back into the same parts |
| Namespace.SplitAppendRoundTrip | nineml/user/multi/namespace.py:25-47 | for an identifier not ending and a namespace not starting with an underscore, splitting the appended name gives back the identifier and the namespace |
| Namespace.NestedSplitsOutermost | nineml/user/multi/namespace.py:43-47 | a name namespaced twice splits into the once-namespaced name and the outer namespace only |
| Namespace.AppendNamespaceInjective | nineml/user/multi/namespace.py:25-35 | two appended names are equal only when their identifiers and namespaces are |
| Namespace.RegimeNameOrder | nineml/user/multi/namespace.py:66-69 | with one sub-component the name is its escaped regime name plus `_regime`; with two, the regime of the smaller key comes first |
| Namespace.RegimeNameSorted | nineml/user/multi/namespace.py:66-69 | for any number of sub-components, the name is the escaped regime names listed by ascending key, joined by `_`, plus `_regime`, whatever order the map was built in |
| Namespace.DelayTriggerNameParts | nineml/user/multi/namespace.py:50-63 | the trigger name is sender role or name, send port, receiver role or name and receive port joined by `_`, plus `_delay_trigger` |
| Namespace.WrappedRhsSymbols | nineml/user/multi/namespace.py:111-117 | the wrapped right-hand side's free symbols are exactly the namespaced free symbols of the original, and its functions are unchanged |
| Namespace.MutateWrapped | nineml/user/multi/namespace.py:108-109 | renaming the lhs raises `NotImplementedError`; every other mutator (lines 122-156) raises `NineMLImmutableError` |
| Namespace.LastDoubleEnd | nineml/user/multi/namespace.py:17 | the greedy `(.*)(__+)()` matches exactly when the name has adjacent underscores, and its match ends at the end of the last such run |
| Namespace.AppendAsWrittenCollides | nineml/user/multi/namespace.py:34-35 | as written, namespaces `b__c` and `x__c` give the same global name `a__/1/2_/3c` |
| Namespace.EscapeAsWrittenDropsPrefix | nineml/user/multi/namespace.py:35 | as written, escaping `x__c` replaces everything up to the run with the literal `/1/2_/3` |
| Namespace.UnescapeAsWrittenLosesUnderscore | nineml/user/multi/namespace.py:46 | as written, unescaping turns the escaped `b___c` of `b__c` into `b_c` |
| MultiDynamics.InNamespaceInjective | nineml/user/multi_dynamics.py:637-638 | with namespaces free of `_`, `in_namespace` determines both the name and the namespace |
| MultiDynamics.InNamespaceSameNamespace | nineml/user/multi_dynamics.py:637-638 | within one namespace, different names stay different |
| MultiDynamics.InNamespaceAmbiguous | nineml/user/multi_dynamics.py:637-638 | without that restriction `a_b` in `c` and `a` in `b_c` give the same name |
| MultiDynamics.NamespaceNotLonger | nineml/user/multi_dynamics.py:637-638 | a namespace free of `_` is no longer than any other namespace producing the same name |
| MultiDynamics.NamespacedNameAsWritten | nineml/user/multi_dynamics.py:339-340 | as written, the wrapped name calls `in_namespace` with one argument and always raises `TypeError` |
| MultiDynamics.NamespacedNameAsWrittenFails | nineml/user/multi_dynamics.py:339-340 | the wrapped name of `V` in `cell` raises as written, where `V_cell` was meant |
| MultiDynamics.NsAliasSymbols | nineml/user/multi_dynamics.py:355-363 | a wrapped alias assigns the namespaced lhs; its rhs reads exactly the namespaced free symbols of the original and calls the same functions |
| MultiDynamics.SubsByNameFacts | nineml/user/multi_dynamics.py:167 | every sub-component is found by its name, and of two with one name the later is kept |
| MultiDynamics.MultiRegimeContents | nineml/user/multi_dynamics.py:454-460 | a composite regime's time derivatives and aliases are exactly those of its constituents |
| MultiDynamics.MultiRegimeNameParts | nineml/user/multi_dynamics.py:450-452 | with plain constituent names, the composite name splits on `__` into the constituent names followed by `regime` |
| MultiDynamics.MultiRegimeNamesDiffer | nineml/user/multi_dynamics.py:450-452 | composite regimes whose plain constituent names differ have different names |
| MultiDynamics.MultiRegimeCount | nineml/user/multi_dynamics.py:225-227 | there is one composite regime per combination of one regime from each sub-component, so their number is the product of the regime counts |
| MultiDynamics.SubRegimesDistinct | nineml/user/multi_dynamics.py:314-316 | distinct regime names inside a sub-component stay distinct once namespaced |
| MultiDynamics.CombinationNamesDiffer | nineml/user/multi_dynamics.py:225-227 | two different regime combinations differ in the name of some constituent |
| MultiDynamics.MultiRegimeNamesDistinct | nineml/user/multi_dynamics.py:225-227 | all composite regimes have pairwise distinct names when each sub-component's regime names are distinct and plain |
| MultiDynamics.Classify | nineml/user/multi_dynamics.py:188-205 | as evidently intended: a tuple from an analog send port or an analog connection object becomes an analog local connection; an event tuple or object raises `NotImplementedError`, as the local event connection's constructor means to; any other object raises `NineMLRuntimeError` |
| MultiDynamics.ClassifyAsWritten | nineml/user/multi_dynamics.py:185-205 | as written, it succeeds exactly for a tuple whose SENDER port is an analog receive port; a connection object fails to unpack at line 185 (`TypeError`); an event tuple is passed four arguments to a constructor taking none (`TypeError`); anything else raises `NineMLRuntimeError` |
| MultiDynamics.ClassifyAsWrittenRefusesSendPort | nineml/user/multi_dynamics.py:189 | a tuple from an analog send port to an analog receive port reaches `assert False` as written, and is an analog connection under the intended test |
| MultiDynamics.ClassifyAsWrittenEventTuple | nineml/user/multi_dynamics.py:192-195 | an event tuple raises `TypeError` as written and `NotImplementedError` as intended |
| MultiDynamics.Localize | nineml/user/multi_dynamics.py:184-206 | as evidently intended, with the port check that binding performs in place of the undefined `bind_ports`: a missing sub-component raises `KeyError`; a successful result is the analog local connection of the four names, between existing and connectable ports |
| MultiDynamics.LocalizeAsWritten | nineml/user/multi_dynamics.py:184-206 | as written it never succeeds: a connection object raises `TypeError`, a missing sub-component `KeyError`, and a tuple that gets past the choice raises `AttributeError` at `bind_ports`, exactly when its sender port is an analog receive port |
| MultiDynamics.LocalizeAsWrittenFails | nineml/user/multi_dynamics.py:184-206 | an analog connection object between connectable ports is a local connection as intended and raises `TypeError` as written; a tuple from an analog receive port reaches `AttributeError` |
| MultiDynamics.LocalAnalogArgsAsWritten | nineml/user/multi_dynamics.py:552-557 | as written the ids land in the port-name slots and the port names in the role slots, so the connection's name is send port, sender, receive port, receiver |
| MultiDynamics.LocalAnalogArgs | nineml/user/multi_dynamics.py:552-557 | as intended the port names are the port names and each end is identified by its sub-component's name, so the connection's name is sender, send port, receiver, receive port |
| MultiDynamics.LocalAnalogArgsSwapped | nineml/user/multi_dynamics.py:552-557 | for `a.V` to `b.v_in` the written arguments give send port name `a` and name `V_a_v_in_b`, the intended ones `V` and `a_V_b_v_in` |
| MultiDynamics.RecordOneFacts | nineml/user/multi_dynamics.py:207-217 | a second analog connection to a receive name raises `NineMLRuntimeError`, otherwise it is stored under that name; an event connection is appended to its name's list, which must exist (`KeyError`), and nothing else changes |
| MultiDynamics.RecordEventsInOrder | nineml/user/multi_dynamics.py:216-217 | event connections to existing lists are all accepted, and each list grows by its own connections in arrival order |
| MultiDynamics.ConnectDuplicates | nineml/user/multi_dynamics.py:207-215 | for valid analog arguments, connecting succeeds exactly when no two arguments and no earlier connection share a receive name, and fails with `NineMLRuntimeError` otherwise |
| MultiDynamics.ConnectKeeps | nineml/user/multi_dynamics.py:184-219 | connecting leaves the event lists untouched and keeps every analog connection already recorded |
| MultiDynamics.ConnectAddsOnly | nineml/user/multi_dynamics.py:207-215 | after connecting, every analog connection was recorded before or sits under some argument's receive name |
| MultiDynamics.ConnectRecords | nineml/user/multi_dynamics.py:207-215 | after connecting, each argument's analog connection is stored under its namespaced receive name |
| MultiDynamics.ConnectAll | nineml/user/multi_dynamics.py:184-219 | the loop over the connection arguments gives the connection maps or the first error |
| MultiDynamics.ConnectLocalizes | nineml/user/multi_dynamics.py:184-206 | a successful connect made a valid local connection of every argument |
| MultiDynamics.ConnectAsWritten | nineml/user/multi_dynamics.py:184-206 | as written the connection loop succeeds exactly for an empty list of arguments, raising the first argument's error otherwise |
| MultiDynamics.PortKeysMembers | nineml/user/multi_dynamics.py:174-180 | a name is a port key exactly when some sub-component has a port of that kind whose namespaced name it is |
| MultiDynamics.InitConnectionLists | nineml/user/multi_dynamics.py:174-180 | as evidently intended, reading each sub-component's component ports: every event-receive and every reduce port of every sub-component starts with an empty list under its namespaced name |
| MultiDynamics.InitConnectionListsAsWritten | nineml/user/multi_dynamics.py:174-180 | as written it succeeds only with no sub-component: `SubDynamics` defines no `event_receive_ports`, so the first one raises `AttributeError` |
| MultiDynamics.InitAsWrittenFails | nineml/user/multi_dynamics.py:174-177 | a sub-component `cell` with event receive port `spike` gets an empty list under `spike_cell` as intended, and raises `AttributeError` as written |
| MultiDynamics.AnalogAliasFacts | nineml/user/multi_dynamics.py:232-237 | there is one alias per analog connection, setting the namespaced receive port to the symbol of the namespaced send port |
| MultiDynamics.ReduceRhs | nineml/user/multi_dynamics.py:241-247 | a reduce alias is `0 + Σ` of its senders' namespaced symbols, reads exactly those symbols, and is `0` with no sender |
| MultiDynamics.ReduceAliases | nineml/user/multi_dynamics.py:239-247 | there is one reduce alias per reduce port, each summing its senders |
| MultiDynamics.RemapAsWritten | nineml/user/multi_dynamics.py:232-247 | as written the alias loops succeed exactly when every key is two characters long and every list is empty; a longer key raises `ValueError` and a connection raises `AttributeError` at `send_id` |
| MultiDynamics.ReduceKeyNotPair | nineml/user/multi_dynamics.py:239-240 | a named reduce port of a named sub-component has a key longer than two characters, so the reduce loop raises `ValueError` as written |
| MultiDynamics.NewMultiDynamics | nineml/user/multi_dynamics.py:163-256 | as evidently intended: a connection error is raised first, then any exposure raises `NotImplementedError`; otherwise the composite holds the sub-components by name, the connection maps, the regime product, the chained aliases, and the connection and reduce aliases |
| MultiDynamics.CompositeConnections | nineml/user/multi_dynamics.py:207-237 | in a built composite no two arguments share a receive port, and each argument's alias sets its namespaced receive port to its namespaced send port |
| Flattening.FindRegime | nineml/abstraction_layer/flattening/flattening.py:157 | the regime lookup succeeds exactly when the component has a regime of that name, and returns it; otherwise it raises `NineMLNameError` |
| Flattening.Destination | nineml/abstraction_layer/flattening/flattening.py:144 | a transition without a target stays in the current regime; a named target is looked up in the component |
| Flattening.DestinationIn | nineml/abstraction_layer/flattening/flattening.py:151-161 | the destination of a regime of the component is again a regime of the component |
| Flattening.NewCompound | nineml/abstraction_layer/flattening/flattening.py:59-71 | a compound regime starts with no transitions, and its time derivatives are exactly those of its constituents |
| Flattening.BuildRegimeSpace | nineml/abstraction_layer/flattening/flattening.py:165-171 | the lookup map is keyed by exactly the combinations of one regime per component, each mapped to its new compound regime; with distinct regimes there are as many as the product of the regime counts |
| Flattening.DistributeAsWritten | nineml/abstraction_layer/flattening/flattening.py:116-123 | as written, the loop calls `append` on a set, so it raises `AttributeError` exactly when some connection starts at the event's port, and returns the empty set otherwise |
| Flattening.DistributeAsWrittenFails | nineml/abstraction_layer/flattening/flattening.py:118-121 | as written, distributing over one matching connection raises `AttributeError` |
| Flattening.DistributeFromFacts | nineml/abstraction_layer/flattening/flattening.py:116-123 | every port reached by the corrected distribution is reachable from the event's port through the connections; running out of recursion depth raises `RuntimeError` |
| Flattening.DistributeCycle | nineml/abstraction_layer/flattening/flattening.py:119-122 | a connection from a port to itself recurses until the recursion limit is hit |
| Flattening.DistributeAllReaches | nineml/abstraction_layer/flattening/flattening.py:89-90 | every direct target of an emitted event is among the distributed events |
| Flattening.NewTupleFromTransition | nineml/abstraction_layer/flattening/flattening.py:151-161 | taking a transition of component i changes only slot i of the regime tuple, to the transition's destination, and fails exactly when the destination is unknown |
| Flattening.NewTupleInSpace | nineml/abstraction_layer/flattening/flattening.py:151-161 | the new tuple is again a combination of one regime per component |
| Flattening.MatchingMembers | nineml/abstraction_layer/flattening/flattening.py:135 | the matching OnEvents of a regime are exactly its OnEvents whose source port is the event |
| Flattening.RespondToEvent | nineml/abstraction_layer/flattening/flattening.py:127-148 | the loop over the tuple's regimes computes the response of the regime tuple to one event |
| Flattening.RespondKeepsSlots | nineml/abstraction_layer/flattening/flattening.py:134-146 | a slot whose regime has no matching OnEvent keeps its regime |
| Flattening.RespondInSpace | nineml/abstraction_layer/flattening/flattening.py:134-146 | responding to an event keeps the tuple a combination of one regime per component |
| Flattening.RespondAmbiguous | nineml/abstraction_layer/flattening/flattening.py:136 | a regime with more than one OnEvent for the event makes the response fail its assertion |
| Flattening.RespondErrors | nineml/abstraction_layer/flattening/flattening.py:136-145 | a response fails only by the assertion or by an unknown destination regime |
| Flattening.RespondNone | nineml/abstraction_layer/flattening/flattening.py:134-137 | when no regime reacts to the event, nothing is assigned or emitted and the tuple is unchanged |
| Flattening.RespondAsWrittenUpTo | nineml/abstraction_layer/flattening/flattening.py:134-146 | as written a response succeeds exactly when no slot has an OnEvent for the event, and then changes nothing; a slot with one raises `NameError` at `one_event`, with more the assertion fails |
| Flattening.RespondAsWrittenFails | nineml/abstraction_layer/flattening/flattening.py:141-145 | a regime with one OnEvent for `spike` makes the written response raise `NameError`, while the intended one keeps the regime |
| Flattening.RunCascade | nineml/abstraction_layer/flattening/flattening.py:94-105 | a finished cascade has no unhandled event left |
| Flattening.RunExtends | nineml/abstraction_layer/flattening/flattening.py:94-105 | the cascade only appends state assignments, output events and handled events |
| Flattening.RunKeeps | nineml/abstraction_layer/flattening/flattening.py:94-105 | any property every cascade step keeps holds at the end of the cascade |
| Flattening.RunFailsWith | nineml/abstraction_layer/flattening/flattening.py:94-105 | the cascade fails only with an error some step can raise, or with `RuntimeError` when its bound is exhausted |
| Flattening.CascadeStepInSpace | nineml/abstraction_layer/flattening/flattening.py:95-96 | one cascade step keeps the tuple a combination of one regime per component |
| Flattening.CascadeStepErrors | nineml/abstraction_layer/flattening/flattening.py:95-104 | one cascade step fails only by the assertion, an unknown regime or the recursion limit |
| Flattening.CascadeGuard | nineml/abstraction_layer/flattening/flattening.py:98-99 | an event that re-emits itself or an already handled event makes the cascade fail its assertion |
| Flattening.GuardAsWrittenNeverFires | nineml/abstraction_layer/flattening/flattening.py:99 | as written the guard compares `OutputEvent` objects with port-name strings, so it never fires |
| Flattening.GuardAsWrittenMissesLoop | nineml/abstraction_layer/flattening/flattening.py:99 | a response to `spike` that emits `spike` trips the intended guard and passes the written one |
| Flattening.CascadeStepAsWritten | nineml/abstraction_layer/flattening/flattening.py:94-105 | as written a pass never succeeds: it fails in the response, or, exactly when no regime responds, raises `AttributeError` where the whole list of new events is handed to `distribute_event` |
| Flattening.CascadeStepAsWrittenFails | nineml/abstraction_layer/flattening/flattening.py:104 | an event no regime responds to is marked handled by the intended pass, and makes the written one raise `AttributeError` |
| Flattening.CascadeIgnores | nineml/abstraction_layer/flattening/flattening.py:94-105 | an event no regime reacts to is popped and recorded as handled, and nothing else changes |
| Flattening.CascadePass | nineml/abstraction_layer/flattening/flattening.py:94-105 | the loop body pops the last unhandled event, applies the response, checks the guard and queues the distributed new events |
| Flattening.CreateTransitionKeeps | nineml/abstraction_layer/flattening/flattening.py:78-111 | a new transition keeps its kind and the original state assignments and output events, and targets a regime of the lookup map |
| Flattening.CreateTransitionFound | nineml/abstraction_layer/flattening/flattening.py:109 | within the combination space the target lookup never raises `KeyError`; only the assertion, an unknown regime or the recursion limit can fail |
| Flattening.CreateTransitionQuiet | nineml/abstraction_layer/flattening/flattening.py:87-111 | a transition that emits nothing becomes its own assignments with the compound regime of its new tuple as target |
| Flattening.CreateNewTransition | nineml/abstraction_layer/flattening/flattening.py:78-111 | the method builds the new transition that the specification function describes |
| Flattening.MapTransitionsKinds | nineml/abstraction_layer/flattening/flattening.py:192-215 | each original transition yields exactly one new transition of its own kind, in order |
| Flattening.MapTransitionsOk | nineml/abstraction_layer/flattening/flattening.py:192-215 | building the transitions of a slot succeeds exactly when each one is built |
| Flattening.MapTransitionsErr | nineml/abstraction_layer/flattening/flattening.py:192-215 | a failure is the failure of one of the slot's transitions |
| Flattening.SlotsTransitionsErr | nineml/abstraction_layer/flattening/flattening.py:187-215 | a failure over all slots is the failure of one original transition |
| Flattening.RegimeTransitionsFound | nineml/abstraction_layer/flattening/flattening.py:185-215 | building one compound regime's transitions fails only by the assertion, an unknown regime or the recursion limit |
| Flattening.RegimeTransitionsKinds | nineml/abstraction_layer/flattening/flattening.py:192-215 | every OnCondition and OnEvent of every constituent yields exactly one composite transition of its own kind, in slot order |
| Flattening.NewTransitionsLoop | nineml/abstraction_layer/flattening/flattening.py:192-215 | the loop over one slot's transitions builds what the specification function describes |
| Flattening.RegimeTransitionsLoop | nineml/abstraction_layer/flattening/flattening.py:187-215 | the loop over the slots of one tuple builds what the specification function describes |
| Flattening.BuildTransitions | nineml/abstraction_layer/flattening/flattening.py:185-215 | transitions are added to every compound regime of the map and to nothing else, and the first failure stops the loop |
| Flattening.Flatten | nineml/abstraction_layer/flattening/flattening.py:165-217 | the flattened regimes are keyed by exactly the regime combinations, keep their compound time derivatives, and hold one new transition per original transition of each kind |
| Flattening.SpaceKinds | nineml/abstraction_layer/flattening/flattening.py:185-215 | after building, every compound regime holds one transition per original transition, kind by kind |
| Flattening.ReceiveOutcome | nineml/abstraction_layer/flattening/flattening.py:288-298 | handling the receive ports succeeds exactly when each connection's ports are still present; then each connected receive port is removed and remapped to its sender |
| Flattening.ReceiveConnectedTwice | nineml/abstraction_layer/flattening/flattening.py:290-295 | a receive port connected twice has been deleted at the second connection, so the lookup raises `KeyError` |
| Flattening.HandleReceivePorts | nineml/abstraction_layer/flattening/flattening.py:289-298 | the loop over the connections computes the receive-port handling |
| Flattening.ReduceSendersOk | nineml/abstraction_layer/flattening/flattening.py:304-308 | collecting the reduce senders fails with `KeyError` exactly when a connection names a port that is not there |
| Flattening.ReduceSendersMap | nineml/abstraction_layer/flattening/flattening.py:301-308 | the map holds exactly the reduce ports that are connected, each with its senders in connection order |
| Flattening.CollectReduceSenders | nineml/abstraction_layer/flattening/flattening.py:303-308 | the loop over the connections collects the reduce senders |
| Flattening.ReduceExpressionShape | nineml/abstraction_layer/flattening/flattening.py:312-314 | a reduce port becomes its name followed by its senders' names, joined by its operator |
| Flattening.ReduceRenamings | nineml/abstraction_layer/flattening/flattening.py:311-315 | there is one renaming per connected reduce port, to its reduce expression, and no other |
| Flattening.RemapPorts | nineml/abstraction_layer/flattening/flattening.py:230-315 | remapping succeeds exactly when both connection passes succeed, fails only with `KeyError`, and yields the remaining ports and the receive and reduce renamings |
| Flattening.ReduceSendersKeys | nineml/abstraction_layer/flattening/flattening.py:303-308 | only ports that exist are collected as reduce ports |
| Transitions.CheckedPortName | nineml/abstraction/dynamics/transitions.py:91-94 | an accepted port name is the stripped text, a valid identifier with no surrounding whitespace; a refused one raises `NineMLUsageError` because the stripped text is not a valid identifier |
| Transitions.CheckedPortNamePadded | nineml/abstraction/dynamics/transitions.py:92 | a valid identifier padded with whitespace is accepted, unpadded |
| Transitions.CheckedPortNameRefuses | nineml/abstraction/dynamics/transitions.py:94 | a name that is not a valid identifier is refused, however it is padded |
| Transitions.CheckedPortNameAccepts | test/unittests/abstraction_test/dynamics_test.py:738-745 | `' MyEvent1 '` and `' MyEvent2'` are accepted as `MyEvent1` and `MyEvent2` |
| Transitions.CheckedPortNameRefusesDigitFirst | test/unittests/abstraction_test/dynamics_test.py:738-745 | a name starting with a digit is refused |
| Transitions.CheckedPortNameRefusesInnerSpace | test/unittests/abstraction_test/dynamics_test.py:738-745 | `'MyEvent1 2'` is refused |
| Transitions.CheckedPortNameRefusesSymbol | test/unittests/abstraction_test/dynamics_test.py:738-745 | a name with a character that is not alphanumeric is refused |
| Transitions.FromStr | nineml/abstraction/dynamics/transitions.py:59-63 | the text is accepted exactly when it holds one `=`, and then the two sides joined by `=` give back the text; otherwise the unpacking raises `ValueError` |
| Transitions.FromStrRoundTrip | nineml/abstraction/dynamics/transitions.py:59-63 | printing an assignment as `lhs=rhs` and reading it back gives the same assignment |
| Transitions.ParseAll | nineml/abstraction/dynamics/transitions.py:173-174 | every text is parsed, in order, or `ValueError` is raised when one lacks exactly one `=` |
| Transitions.KeyedByLhsFacts | nineml/abstraction/dynamics/transitions.py:175-176 | every assignment's lhs is a key, every key holds an assignment to it, and a later assignment to the same lhs wins |
| Transitions.StateAssignmentMap | nineml/abstraction/dynamics/transitions.py:168-176 | any text without exactly one `=` raises; otherwise every object assignment's lhs is a key and each entry is stored under its own lhs |
| Transitions.KeyedLastString | nineml/abstraction/dynamics/transitions.py:175-176 | the last parsed string assigning an lhs is the entry for it, whatever objects precede |
| Transitions.KeyedLastObject | nineml/abstraction/dynamics/transitions.py:175-176 | an object is the entry for its lhs when no later object and no string assigns that lhs |
| Transitions.KeyedByLhsAppend | nineml/abstraction/dynamics/transitions.py:175-176 | keying objects followed by strings: every string's lhs is a key, every entry is one of the two lists, the later string wins, and a string beats an object |
| Transitions.StateAssignmentMapFacts | nineml/abstraction/dynamics/transitions.py:168-176 | the map is the objects followed by the parsed strings keyed by lhs: every parsed string's lhs is a key, every entry comes from the arguments, the later of two strings wins, and a string beats an object of the same lhs |
| Transitions.ReactivateCondition | nineml/abstraction/dynamics/transitions.py:437-441 | the reactivation condition holds exactly when the trigger does not, reads the same symbols, and leaves the trigger unchanged |
| Transitions.OutputEvent.constructor | nineml/abstraction/dynamics/transitions.py:82-94 | a new output event keeps the given name and is unbound |
| Transitions.OutputEvent.Port | nineml/abstraction/dynamics/transitions.py:105-110 | the port raises `NineMLRuntimeError` until the event is bound |
| Transitions.OutputEvent.Bind | nineml/abstraction/dynamics/transitions.py:126-128 | binding finds the send port of that name (`NineMLNameError` otherwise, changing nothing), clears the stored name, and the reported name stays the same |
| Transitions.NewOutputEvent | nineml/abstraction/dynamics/transitions.py:82-94 | an output event is made exactly when its stripped name is a valid identifier, and it starts unbound |
| Transitions.Transition.constructor | nineml/abstraction/dynamics/transitions.py:165-188 | the target given as a name is stored as a name, a regime as the regime; the source regime and the port start unset |
| Transitions.Transition.TargetRegime | nineml/abstraction/dynamics/transitions.py:193-208 | the target regime raises `NineMLRuntimeError` until it is set |
| Transitions.Transition.TargetRegimeName | nineml/abstraction/dynamics/transitions.py:210-216 | the target name comes from the regime once it is set, and from the stored name before |
| Transitions.Transition.SourceRegime | nineml/abstraction/dynamics/transitions.py:218-233 | the source regime raises `NineMLRuntimeError` until it is set |
| Transitions.Transition.ReceivePort | nineml/abstraction/dynamics/transitions.py:347-352 | an OnEvent's port raises `NineMLRuntimeError` until it is bound |
| Transitions.Transition.SetTargetRegime | nineml/abstraction/dynamics/transitions.py:235-246 | afterwards the target regime is available, its name is the reported name, and the stored name is cleared; nothing else changes |
| Transitions.Transition.SetSourceRegime | nineml/abstraction/dynamics/transitions.py:248-258 | afterwards the source regime is available; nothing else changes |
| Transitions.Transition.NumStateAssignments | nineml/abstraction/dynamics/transitions.py:260-262 | the count is the number of keys of the state-assignment map |
| Transitions.Transition.NumOutputEvents | nineml/abstraction/dynamics/transitions.py:264-267 | the count is the number of keys of the output-event map |
| Transitions.Transition.Add | nineml/abstraction/dynamics/transitions.py:292-300 | a state assignment or output event is stored in its own map under its name, leaving the other map alone; anything else raises `NineMLInvalidElementTypeException` and changes nothing |
| Transitions.Transition.Remove | nineml/abstraction/dynamics/transitions.py:302-310 | a present element is removed from its own map only; an absent one raises `KeyError`, any other kind `NineMLInvalidElementTypeException`, and then nothing changes |
| Transitions.Transition.Bind | nineml/abstraction/dynamics/transitions.py:312-314 | binding succeeds exactly when every output event names a send port and, for an OnEvent, its source port is a receive port (lines 365-368); then each output event holds its port |
| Transitions.BindOutputEvents | nineml/abstraction/dynamics/transitions.py:312-314 | binding succeeds exactly when every output event's name is a send port, each then holding that port; on failure `NineMLNameError` is raised, and no event is bound to anything else |
| Transitions.KeyOutputEvents | nineml/abstraction/dynamics/transitions.py:178-180 | every output event is stored under its port name, every entry is one of them, and of two events with one port name the later is kept |
| Transitions.NewOnEvent | nineml/abstraction/dynamics/transitions.py:326-341 | an OnEvent is made when the assignments parse and the stripped source port name is valid, with `ValueError` or `NineMLUsageError` otherwise; its output events are keyed by port name, the later of two alike kept, and its target is the given name or regime, or unset when none is given |
| Transitions.NewOnCondition | nineml/abstraction/dynamics/transitions.py:380-396 | an OnCondition is made when the assignments parse, with a trigger holding the given condition; its output events are keyed by port name, the later of two alike kept, and its target is the given name or regime, or unset when none is given |
| PortConnections.CheckIdent | nineml/user/port_connections.py:51-70 | one side is accepted exactly when exactly one of its role and name is given; otherwise `NineMLRuntimeError` |
| PortConnections.ConnectionNameParts | nineml/user/port_connections.py:97-103 | the connection name is the sender role or name, send port, receiver role or name and receive port joined by `_`, and splits back into them when they hold no `_` |
| PortConnections.RoleOf | nineml/user/port_connections.py:143-155 | the role is returned when it was given; otherwise `NineMLRuntimeError` |
| PortConnections.NameOf | nineml/user/port_connections.py:157-169 | the name is returned when it was given; otherwise `NineMLRuntimeError` |
| PortConnections.MappedRole | nineml/user/port_connections.py:193-194 | a role is mapped through the role map; a missing role raises `NineMLRuntimeError`, an unmapped one `KeyError` |
| PortConnections.NamesFromRoles | nineml/user/port_connections.py:171-194 | both sides' roles become the names the role map gives them, and the result identifies each side by name only |
| PortConnections.NamespacedPortNames | nineml/user/port_connections.py:214-217 | each port name is namespaced with the name its side's role maps to |
| PortConnections.NamespacedPortNamesSplit | nineml/user/port_connections.py:214-217 | splitting each namespaced port name gives back the port name and the mapped name |
| PortConnections.CheckPorts | nineml/user/port_connections.py:392-424 | the ports pass exactly when they are connectable: analog send to analog receive or reduce with equal dimensions (`NineMLDimensionError` when only the dimensions differ), or event send to event receive (`NineMLRuntimeError` otherwise) |
| PortConnections.ConnectableDirection | nineml/user/port_connections.py:392-424 | connected ports run from a send port to an incoming port, both of the connection's family |
| PortConnections.EventDelay | nineml/user/port_connections.py:426-432 | an event connection's delay is always 0.0 |
| PortConnections.SendPortOf | nineml/user/port_connections.py:270-274 | the send port lookup succeeds exactly for a send port of that name, and raises `NineMLNameError` otherwise |
| PortConnections.ReceivePortOf | nineml/user/port_connections.py:275-281 | the receive port lookup succeeds exactly for an incoming port of that name, and raises `NineMLNameError` otherwise |
| PortConnections.LookUp | nineml/user/port_connections.py:263-268 | with `to_roles` the sides are found by role, otherwise by name in the container |
| PortConnections.BindingFacts | nineml/user/port_connections.py:257-282 | a successful binding holds the named ports of the sender and receiver, which are connectable |
| PortConnections.PortConnection.constructor | nineml/user/port_connections.py:23-85 | a port given by name is stored as a name, a port object as the port; the new connection is unbound |
| PortConnections.PortConnection.Sender | nineml/user/port_connections.py:105-109 | the sender raises `NineMLRuntimeError` while unbound |
| PortConnections.PortConnection.Receiver | nineml/user/port_connections.py:111-115 | the receiver raises `NineMLRuntimeError` while unbound |
| PortConnections.PortConnection.SendPort | nineml/user/port_connections.py:117-121 | the send port raises `NineMLRuntimeError` while unbound |
| PortConnections.PortConnection.ReceivePort | nineml/user/port_connections.py:123-127 | the receive port raises `NineMLRuntimeError` while unbound |
| PortConnections.PortConnection.Bind | nineml/user/port_connections.py:257-289 | binding succeeds exactly when both sides and both ports are found and pass the port checks, and then the connection is bound to them; the given port names never change, and each step already taken stays when a later one fails |
| PortConnections.NewPortConnection | nineml/user/port_connections.py:51-70 | a connection is made exactly when each side gives exactly one of role and name, and it starts unbound |
| PortConnections.AssignNamesFromRoles | nineml/user/port_connections.py:171-194 | the new connection keeps the kind and the port names, and names each side by what its role maps to |
| PortConnections.AppendNamespaceFromRoles | nineml/user/port_connections.py:196-222 | the new connection keeps the kind and the roles, and namespaces each port name with what its side's role maps to |
| PortConnections.CommonPortTypeFacts | nineml/user/port_connections.py:350-358 | the scan finds a type exactly when every class has the port with that type |
| PortConnections.SendPortType | nineml/user/port_connections.py:350-358 | the loop over the sender classes finds their common port type, or raises `NineMLRuntimeError` on a mismatch |
| PortConnections.KindOfPortFacts | nineml/user/port_connections.py:359-367 | a send port's type selects the connection kind of its family, and any other type fails the assertion |
| PortConnections.TupleEnd | nineml/user/port_connections.py:326-349 | a tuple end is a role or a member of the container; anything else raises `NineMLRuntimeError` |
| PortConnections.FromTuple | nineml/user/port_connections.py:320-368 | the connection is made with the kind the sender's common send port type selects |
| PortExposures.DefaultNameSplits | nineml/user/multi/port_exposures.py:67-68 | the default name of an exposure is the port name namespaced by the sub-component, and splits back into the two |
| PortExposures.ReduceDefaultNameSplits | nineml/user/multi/port_exposures.py:249-258 | a reduce exposure's default name is the namespaced port name with `__reduce` appended, which splits off only `reduce` |
| PortExposures.ReduceSuffixNamespaces | nineml/user/multi/port_exposures.py:249 | appending `__reduce` is namespacing by `reduce` |
| PortExposures.AliasDirection | nineml/user/multi/port_exposures.py:203-262 | only analog exposures have an alias; a send exposure's alias sets the exposure name from the namespaced port, a receive or reduce exposure's sets the namespaced port from the exposure name |
| PortExposures.RenameAliasLhs | nineml/user/multi/port_exposures.py:165-168 | renaming the lhs of an analog exposure raises `NineMLImmutableError` |
| PortExposures.PortExposure.constructor | nineml/user/multi/port_exposures.py:35-44 | a new exposure keeps its kind, names and sub-component, and is unbound |
| PortExposures.PortExposure.LocalPortName | nineml/user/multi/port_exposures.py:92-94 | the local port name is the port name namespaced by the sub-component, whatever the exposure is called, and splits back into the two |
| PortExposures.PortExposure.SubComponent | nineml/user/multi/port_exposures.py:55-65 | the sub-component raises `NineMLNotBoundException` until bound, and `NineMLTargetMissingError` when it is not in the parent |
| PortExposures.PortExposure.Port | nineml/user/multi/port_exposures.py:70-82 | the port raises `NineMLNotBoundException` until bound, and `NineMLTargetMissingError` when the sub-component or port is missing |
| PortExposures.PortExposure.Dimension | nineml/user/multi/port_exposures.py:170-172 | an analog exposure's dimension is its port's, and raises like the port |
| PortExposures.PortExposure.Operator | nineml/user/multi/port_exposures.py:264-266 | a reduce exposure's operator is its port's, and raises like the port |
| PortExposures.PortExposure.AliasOf | nineml/user/multi/port_exposures.py:232-262 | the alias is available once the sub-component is, and runs in the direction of the exposure kind |
| PortExposures.PortExposure.Bind | nineml/user/multi/port_exposures.py:149-160 | binding sets the parent and then fails with `NineMLTargetMissingError` exactly when the sub-component or port is missing |
| PortExposures.NewPortExposure | nineml/user/multi/port_exposures.py:35-44 | the name is the given one or the default, and must be a valid identifier; the new exposure is unbound |
| PortExposures.DefaultNameIsLocal | nineml/user/multi/port_exposures.py:67-68 | a non-reduce exposure's default name is its local port name |
| PortExposures.FromPort | nineml/user/multi/port_exposures.py:123-147 | the exposure class is the one matching the port's kind, exposing that port of that sub-component |
| PortExposures.FromTuple | nineml/user/multi/port_exposures.py:111-121 | the exposure of a tuple exposes the named port of the named sub-component, and a missing one raises `NineMLNameError` |
| CvPorts.FilteredMembers | nineml/abstraction_layer/validators/cv_ports.py:76-77 | a name is among the collected ones exactly when some visited element of the kind carries it |
| CvPorts.FilteredStep | nineml/abstraction_layer/validators/cv_ports.py:88-92 | visiting one more element appends its name exactly when it is of the collected kind |
| CvPorts.DeclaredStep | nineml/abstraction_layer/validators/cv_ports.py:84-86 | visiting an event port records its mode under its name; other elements leave the record as it was |
| CvPorts.DistinctStep | nineml/abstraction_layer/validators/cv_ports.py:85 | the no-duplicate assertion survives a new element whose name is fresh |
| CvPorts.DistinctBreak | nineml/abstraction_layer/validators/cv_ports.py:85 | one repeated event-port name makes the whole component fail the assertion |
| CvPorts.DeclaredKeys | nineml/abstraction_layer/validators/cv_ports.py:84-86 | the recorded ports are exactly the names of the event ports visited |
| CvPorts.DeclaredModes | nineml/abstraction_layer/validators/cv_ports.py:84-86 | with distinct names, the recorded mode of a port is the one its declaration gives |
| CvPorts.CountOfZero | nineml/abstraction_layer/validators/cv_ports.py:76-79 | a port has no events on it exactly when its name is in neither event list |
| CvPorts.EventPortsValidator.constructor | nineml/abstraction_layer/validators/cv_ports.py:52-54 | the validator starts with no ports and no events |
| CvPorts.EventPortsValidator.ActionEventPort | nineml/abstraction_layer/validators/cv_ports.py:84-86 | a repeated port name fails the assertion and changes nothing; a fresh one is recorded with its mode |
| CvPorts.EventPortsValidator.ActionOutputEvent | nineml/abstraction_layer/validators/cv_ports.py:88-89 | an output event appends its port name to the output list and nothing else |
| CvPorts.EventPortsValidator.ActionOnEvent | nineml/abstraction_layer/validators/cv_ports.py:91-92 | an on-event appends its source port name to the input list and nothing else |
| CvPorts.EventPortsValidator.Visit | nineml/abstraction_layer/validators/cv_ports.py:56-92 | visiting succeeds exactly when event-port names are distinct, and leaves the declared ports and both event lists in visiting order |
| CvPorts.EventPortsValidator.CheckOutputEvents | nineml/abstraction_layer/validators/cv_ports.py:58-63 | passes exactly when every output event names a declared send port |
| CvPorts.EventPortsValidator.CheckInputEvents | nineml/abstraction_layer/validators/cv_ports.py:65-69 | passes exactly when every input event names a declared recv or reduce port |
| CvPorts.EventPortsValidator.CheckPortsUsed | nineml/abstraction_layer/validators/cv_ports.py:72-81 | passes exactly when every declared event port has at least one event on it |
| CvPorts.EventChecksMeanValid | nineml/abstraction_layer/validators/cv_ports.py:58-81 | the three checks together hold exactly when the component's event ports are valid, stated over its elements |
| CvPorts.OutputsChecked | nineml/abstraction_layer/validators/cv_ports.py:58-63 | the output-event check over the collected lists is the element-wise condition |
| CvPorts.InputsChecked | nineml/abstraction_layer/validators/cv_ports.py:65-69 | the input-event check over the collected lists is the element-wise condition |
| CvPorts.PortsUsedChecked | nineml/abstraction_layer/validators/cv_ports.py:72-81 | the ports-used check over the collected lists is the element-wise condition |
| CvPorts.ValidateEventPorts | nineml/abstraction_layer/validators/cv_ports.py:42-92 | `ComponentValidatorEventPorts` accepts exactly the components whose event ports are valid, and otherwise raises an assertion error |
| CvPorts.AnalogPortsValidator.constructor | nineml/abstraction_layer/validators/cv_ports.py:114-115 | the validator starts with no output ports and no symbols |
| CvPorts.AnalogPortsValidator.AddSymbol | nineml/abstraction_layer/validators/cv_ports.py:124-126 | a repeated symbol fails the assertion and changes nothing; a fresh one is appended |
| CvPorts.AnalogPortsValidator.ActionAnalogPort | nineml/abstraction_layer/validators/cv_ports.py:128-130 | an outgoing analog port appends its name; an incoming one changes nothing |
| CvPorts.AnalogPortsValidator.Visit | nineml/abstraction_layer/validators/cv_ports.py:117-136 | visiting succeeds exactly when state-variable and alias names are distinct, and leaves the output ports and symbols in visiting order |
| CvPorts.AnalogPortsValidator.CheckOutputPorts | nineml/abstraction_layer/validators/cv_ports.py:119-121 | passes exactly when every output analog port names an available symbol |
| CvPorts.AnalogChecksMeanValid | nineml/abstraction_layer/validators/cv_ports.py:119-121 | the assertions hold exactly when the component's output analog ports are valid |
| CvPorts.ValidateOutputAnalogPorts | nineml/abstraction_layer/validators/cv_ports.py:107-136 | `ComponentValidatorOutputAnalogPorts` accepts exactly the components whose output analog ports each name a local symbol |
| ComponentModifiers.RekeyedMeaning | nineml/abstraction/componentclass/utils/modifiers.py:57-58 | re-keying moves the entry under the old name to the new name, drops the old key, and leaves other keys alone; a dict without the old name is unchanged |
| ComponentModifiers.RekeyedBack | nineml/abstraction/componentclass/utils/modifiers.py:57-58 | re-keying to a fresh name and back restores the dict |
| ComponentModifiers.RekeyedKeys | nineml/abstraction/componentclass/utils/modifiers.py:57-58 | the keys after re-keying are the old keys with the old name replaced by the new |
| ComponentModifiers.ParameterActionMeaning | nineml/abstraction/componentclass/utils/modifiers.py:71-74 | a parameter is renamed and noted as an lhs change exactly when it carries the old name; its dimension is kept |
| ComponentModifiers.AliasActionMeaning | nineml/abstraction/componentclass/utils/modifiers.py:76-82 | an alias is an lhs change when its lhs is the old name, otherwise an rhs change when the old name is among its atoms, otherwise unchanged; the renamed alias no longer mentions the old name |
| ComponentModifiers.ConstantActionMeaning | nineml/abstraction/componentclass/utils/modifiers.py:84-87 | a constant is renamed and noted as an lhs change exactly when it carries the old name; value and units are kept |
| ComponentModifiers.RenamedKeyed | nineml/abstraction/componentclass/utils/modifiers.py:57-87 | re-keying a dict and renaming its values together keep every value stored under its own name |
| ComponentModifiers.RenameKeepsKeyed | nineml/abstraction/componentclass/utils/modifiers.py:65-87 | after the rename, parameters, aliases and constants are still each keyed by their name |
| ComponentModifiers.RenameRemovesSymbol | nineml/abstraction/componentclass/utils/modifiers.py:65-87 | after the rename no key, name, lhs or rhs atom is the old name |
| ComponentModifiers.ParametersLoseSymbol | nineml/abstraction/componentclass/utils/modifiers.py:66-74 | no parameter is left under or with the old name |
| ComponentModifiers.ConstantsLoseSymbol | nineml/abstraction/componentclass/utils/modifiers.py:69-87 | no constant is left under or with the old name |
| ComponentModifiers.AliasesLoseSymbol | nineml/abstraction/componentclass/utils/modifiers.py:68-82 | no alias is left under the old name or mentioning it |
| ComponentModifiers.NotedLhsChanges | nineml/abstraction/componentclass/utils/modifiers.py:43-87 | the lhs changes noted are exactly the parameters, aliases and constants that carried the old name |
| ComponentModifiers.NotedRhsChanges | nineml/abstraction/componentclass/utils/modifiers.py:46-82 | the rhs changes noted are exactly the aliases whose lhs is not the old name but whose rhs mentions it |
| ComponentModifiers.ComponentClass.constructor | nineml/abstraction/componentclass/utils/modifiers.py:25-30 | the model class holds the given flatness, parameters, index dicts, aliases and constants |
| ComponentModifiers.ComponentClass.UpdateIndexDicts | nineml/abstraction/componentclass/utils/modifiers.py:67 | every index dict is re-keyed, and nothing else changes |
| ComponentModifiers.ComponentClass.UpdateDictsAsWritten | nineml/abstraction/componentclass/utils/modifiers.py:52-69 | as written, the chain hands the alias and constant dicts' keys to the dict assertion, which fails unless both are empty |
| ComponentModifiers.ComponentClass.UpdateDicts | nineml/abstraction/componentclass/utils/modifiers.py:52-69 | as intended, the parameter, index, alias and constant dicts are all re-keyed |
| ComponentModifiers.AliasBreaksUpdateDictsAsWritten | nineml/abstraction/componentclass/utils/modifiers.py:66-69 | a class with one alias makes the as-written re-keying raise an assertion error |
| ComponentModifiers.VisitElements | nineml/abstraction/componentclass/utils/modifiers.py:40-87 | visiting applies each element's action and notes the lhs and rhs changes |
| ComponentModifiers.ComponentRenameSymbol | nineml/abstraction/componentclass/utils/modifiers.py:25-41 | a class that is not flat raises `NineMLRuntimeError` and is left alone; otherwise every dict is re-keyed, every element renamed, and the noted changes returned |
| DynamicsModifiers.PortActionMeaning | nineml/abstraction_layer/dynamics/utils/modifiers.py:119-132 | a port is renamed and noted as a port change exactly when it carries the old name; nothing else about it changes |
| DynamicsModifiers.StateVariableActionMeaning | nineml/abstraction_layer/dynamics/utils/modifiers.py:114-117 | a state variable is renamed and noted as an lhs change exactly when it carries the old name |
| DynamicsModifiers.OutputEventActionMeaning | nineml/abstraction_layer/dynamics/utils/modifiers.py:134-137 | an output event's port is renamed and noted as an rhs change exactly when it is the old name |
| DynamicsModifiers.AssignmentActionMeaning | nineml/abstraction_layer/dynamics/utils/modifiers.py:139-142 | an assignment is noted as an rhs change exactly when the old name is among its atoms, and afterwards mentions it nowhere |
| DynamicsModifiers.TimeDerivativeActionMeaning | nineml/abstraction_layer/dynamics/utils/modifiers.py:144-150 | a time derivative of the old name is an lhs change, one mentioning it otherwise an rhs change; afterwards it mentions it nowhere |
| DynamicsModifiers.TriggerActionMeaning | nineml/abstraction_layer/dynamics/utils/modifiers.py:152-155 | a trigger is noted as an rhs change exactly when it mentions the old name, and afterwards does not |
| DynamicsModifiers.OnEventActionMeaning | nineml/abstraction_layer/dynamics/utils/modifiers.py:160-163 | as intended, an OnEvent on the old port name is noted and moved to the new name |
| DynamicsModifiers.OnEventAsWrittenKeepsOldPort | nineml/abstraction_layer/dynamics/utils/modifiers.py:160-163 | as written, the OnEvent is noted as changed but keeps listening on the old port, which the re-keyed port dict no longer holds |
| DynamicsModifiers.RenamedTransitionFree | nineml/abstraction_layer/dynamics/utils/modifiers.py:134-163 | a renamed transition mentions the old name nowhere |
| DynamicsModifiers.RenamedAssignmentsFree | nineml/abstraction_layer/dynamics/utils/modifiers.py:139-142 | no renamed assignment assigns or reads the old name |
| DynamicsModifiers.RenamedOutputsFree | nineml/abstraction_layer/dynamics/utils/modifiers.py:134-137 | no renamed output event sends on the old name |
| DynamicsModifiers.RenamedRegimeFree | nineml/abstraction_layer/dynamics/utils/modifiers.py:111-163 | a renamed regime mentions the old name nowhere |
| DynamicsModifiers.RenameRemovesDynamicsSymbol | nineml/abstraction_layer/dynamics/utils/modifiers.py:100-132 | no port or state variable is left under or with the old name |
| DynamicsModifiers.RenameKeepsPortsKeyed | nineml/abstraction_layer/dynamics/utils/modifiers.py:100-132 | the renamed port and state-variable dicts stay keyed by name |
| DynamicsModifiers.RenameKeepsOnEventsBound | nineml/abstraction_layer/dynamics/utils/modifiers.py:100-106 | OnEvents that named a receive port still name one after the rename (also line 160-163) |
| DynamicsModifiers.GuardNeverLhs | nineml/abstraction_layer/dynamics/utils/modifiers.py:152-163 | a guard is never noted as an lhs change |
| DynamicsModifiers.RegimeLhsChangesAt | nineml/abstraction_layer/dynamics/utils/modifiers.py:144-147 | the lhs changes noted in a regime are exactly its time derivatives of the old name |
| DynamicsModifiers.RegimeLhsChanges | nineml/abstraction_layer/dynamics/utils/modifiers.py:144-147 | over all regimes, the lhs changes noted are exactly the time derivatives of the old name |
| DynamicsModifiers.RegimeOnEventChanges | nineml/abstraction_layer/dynamics/utils/modifiers.py:160-163 | an OnEvent guard is noted exactly when its source port is the old name |
| DynamicsModifiers.RegimeOutputChanges | nineml/abstraction_layer/dynamics/utils/modifiers.py:134-137 | an output event is noted exactly when its port is the old name |
| DynamicsModifiers.SubstitutionUnmentions | nineml/abstraction_layer/dynamics/utils/modifiers.py:32-34 | substituting a value that does not mention a name keeps aliases and regimes free of that name |
| DynamicsModifiers.SubstituteKeeps | nineml/abstraction_layer/dynamics/utils/modifiers.py:32-34 | substitution introduces no name absent from the expression and the value |
| DynamicsModifiers.SubstituteWith | nineml/abstraction_layer/dynamics/utils/modifiers.py:32-34 | the free symbols after substitution are the expression's minus the port name plus the value's |
| DynamicsModifiers.DynamicsClass.constructor | nineml/abstraction_layer/dynamics/utils/modifiers.py:18-22 | the model class holds the given component part, port dicts, state variables and regimes |
| DynamicsModifiers.CloseAnalogPort | nineml/abstraction_layer/dynamics/utils/modifiers.py:24-46 | a class that is not flat raises `NineMLRuntimeError`; otherwise the value is substituted for the port everywhere and the single analog port of that name is removed from its dict, and no single such port raises |
| DynamicsModifiers.ClosedPortUnmentioned | nineml/abstraction_layer/dynamics/utils/modifiers.py:32-34 | after closing a port with a value not mentioning it, no alias or regime mentions it |
| DynamicsModifiers.ClosingUnmentions | nineml/abstraction_layer/dynamics/utils/modifiers.py:58-62 | closing one more reduce port keeps every port closed so far unmentioned |
| DynamicsModifiers.WithoutOneMore | nineml/abstraction_layer/dynamics/utils/modifiers.py:58-62 | removing one more port is removing it from the set of removed ones |
| DynamicsModifiers.CloseAllReducePorts | nineml/abstraction_layer/dynamics/utils/modifiers.py:48-62 | a class that is not flat raises `NineMLRuntimeError`; otherwise every reduce port not excluded is closed with 0 and mentioned nowhere, and the excluded ones remain |
| DynamicsModifiers.RenamePortAsWritten | nineml/abstraction_layer/dynamics/utils/modifiers.py:64-74 | as written, the single analog port of the old name gets the new name but stays under the old key |
| DynamicsModifiers.RenamePortAsWrittenUnkeys | nineml/abstraction_layer/dynamics/utils/modifiers.py:74 | renaming port `I` to `J` as written leaves the receive-port dict no longer keyed by name |
| DynamicsModifiers.MovedPortKeyed | nineml/abstraction_layer/dynamics/utils/modifiers.py:74 | moving a port to its new key keeps the dict keyed by name and the other ports in place |
| DynamicsModifiers.RenamePort | nineml/abstraction_layer/dynamics/utils/modifiers.py:64-74 | as intended, the port is renamed and moved to its new key; not flat or not exactly one such port raises `NineMLRuntimeError` |
| DynamicsModifiers.RemapPortToParameter | nineml/abstraction_layer/dynamics/utils/modifiers.py:76-89 | a class that is not flat raises; otherwise the single analog port of that name is removed and a parameter of that name added |
| DynamicsModifiers.RenameDynamicsPart | nineml/abstraction_layer/dynamics/utils/modifiers.py:100-163 | the port, state-variable and regime parts are re-keyed and every element given its action |
| DynamicsModifiers.PortChangesMeaning | nineml/abstraction_layer/dynamics/utils/modifiers.py:119-132 | the port changes noted in one dict are the old-named port under its new name, or none |
| DynamicsModifiers.AllPortChangesMeaning | nineml/abstraction_layer/dynamics/utils/modifiers.py:119-132 | the port changes noted are, per port dict, the old-named port if that dict held it |
| DynamicsModifiers.DynamicsRenameSymbol | nineml/abstraction_layer/dynamics/utils/modifiers.py:92-163 | a class that is not flat raises `NineMLRuntimeError` and is left alone; otherwise the component part and the dynamics part are renamed and all changes returned |
| AnnotationTree.ParseKey | nineml/annotations.py:354-367 | at the root a key without namespace raises `NineMLXMLError`; inside a branch it takes the branch's namespace; an explicit namespace is kept (also line 534-545) |
| AnnotationTree.GetIn | nineml/annotations.py:225-262 | `get` fails only with `NineMLNameError`, or with `NineMLXMLError` for a root key without namespace (also line 456-488) |
| AnnotationTree.BranchGet | nineml/annotations.py:456-488 | a branch's `get` fails only with `NineMLNameError` |
| AnnotationTree.ContainsIn | nineml/annotations.py:129-130 | `in` holds exactly when the parsed key has a branch list, and fails when the key cannot be parsed |
| AnnotationTree.GetItemIn | nineml/annotations.py:132-148 | indexing returns the branch list of a contained key, and otherwise raises `NineMLNameError` (or `NineMLXMLError` at the root for a key without namespace) |
| AnnotationTree.SetIn | nineml/annotations.py:197-223 | `set` adds the parsed first key to the keys and keeps the others, and fails only on an ambiguous key or an unparsable one |
| AnnotationTree.BranchSet | nineml/annotations.py:434-454 | a branch's `set` keeps its name, namespace and body, and fails only with `NineMLNameError` |
| AnnotationTree.DeleteIn | nineml/annotations.py:264-288 | `delete` never adds a key and leaves every other key as it was |
| AnnotationTree.BranchDelete | nineml/annotations.py:490-510 | deleting an attribute of a branch succeeds exactly when the attribute is there |
| AnnotationTree.AddIn | nineml/annotations.py:150-178 | `add` adds the parsed first key and keeps the others, and fails only on an ambiguous key or an unparsable one |
| AnnotationTree.PopIn | nineml/annotations.py:180-195 | `pop` fails only for a root key without namespace |
| AnnotationTree.GetMeaning | nineml/annotations.py:225-262 | `get` returns the stored attribute along the path, else the default, else raises `NineMLNameError` (also line 456-488) |
| AnnotationTree.SetThenGet | nineml/annotations.py:197-262 | after a successful `set`, `get` along the same path returns the value as a string (also line 434-488) |
| AnnotationTree.SetFresh | nineml/annotations.py:213-217 | setting in a fresh branch builds the chain of branches down to the attribute (also line 434-454) |
| AnnotationTree.SetCreates | nineml/annotations.py:212-217 | a missing or empty key gets one fresh branch holding the attribute |
| AnnotationTree.AmbiguousKeyRejected | nineml/annotations.py:171-175 | with several branches under a key, `set`, `get`, `delete` and `add` below it all raise `NineMLNameError` (also lines 218-222, 251-255, 284-288) |
| AnnotationTree.DeleteThenLookup | nineml/annotations.py:264-288 | after a successful `delete` the attribute is gone and `get` without default raises `NineMLNameError` (also line 490-510) |
| AnnotationTree.TidyUnfold | nineml/annotations.py:282-283 | a branch is kept exactly when it is not empty and its sub-branches are kept (also line 388-389) |
| AnnotationTree.FreshTidy | nineml/annotations.py:213-217 | a freshly built chain of branches is not empty |
| AnnotationTree.SetKeepsTidy | nineml/annotations.py:197-223 | `set` never leaves an empty branch behind |
| AnnotationTree.DeleteKeepsTidy | nineml/annotations.py:276-283 | `delete` removes a key whose only branch it empties, so no empty branch remains |
| AnnotationTree.PopRemoves | nineml/annotations.py:180-195 | after `pop` the key is gone, and the popped list is empty exactly when there was nothing under it |
| AnnotationTree.AddCounts | nineml/annotations.py:150-178 | `add` succeeds exactly when the path is unambiguous, and then adds one branch at its end |
| AnnotationTree.NewCountsNone | nineml/annotations.py:103-107 | a new annotations block has no branch anywhere |
| AnnotationTree.Annotations.constructor | nineml/annotations.py:330-332 | a new block holds the given branches |
| AnnotationTree.Annotations.Set | nineml/annotations.py:197-223 | `set` at the root is `SetIn` with the root's key rule; a failure changes nothing (also line 363-366) |
| AnnotationTree.Annotations.Delete | nineml/annotations.py:264-288 | `delete` at the root is `DeleteIn`; a failure changes nothing (also line 363-366) |
| AnnotationTree.Annotations.Add | nineml/annotations.py:150-178 | `add` at the root stores the new branch and returns it, one more branch at the path |
| AnnotationTree.Annotations.Pop | nineml/annotations.py:180-195 | `pop` returns and removes the list under a namespaced key (empty if none), and a key without namespace raises `NineMLXMLError` (also line 363-366) |
| Selections.PortOfEach | nineml/user/selection.py:16-22 | every population's port is collected in order, and one population without it raises `NineMLNameError` |
| Selections.CombinedPort | nineml/user/selection.py:13-30 | the combined accessor returns the port exactly when every population has it and all copies are equal, and otherwise raises `NineMLNameError` (`IndexError` with no population) |
| Selections.CombinedPorts | nineml/user/selection.py:33-38 | the combined port set is the intersection of the populations' sets, and with no population the reduce raises `TypeError` |
| Selections.CombinedPortsAgree | nineml/user/selection.py:13-38 | a port in the combined set is what the combined accessor returns for its name |
| Selections.CombinedPortNames | nineml/user/selection.py:135-169 | the `..._port_names` properties yield exactly the names of the combined ports |
| Selections.NumCombinedPortsCountsNames | nineml/user/selection.py:139-173 | as intended, each `num_..._ports` property counts as many ports as its names property yields names |
| Selections.NumAnalogReceiveAsWrittenMiscounts | nineml/user/selection.py:147-149 | as written, `num_analog_receive_ports` counts the reduce ports, so a selection with one analog receive port reports none |
| Selections.NumEventSendAsWrittenMiscounts | nineml/user/selection.py:163-165 | as written, `num_event_send_ports` counts the event receive ports, so a selection with one event send port reports none |
| Selections.SizeAppend | nineml/user/selection.py:104-106 | the size of concatenated populations is the sum of their sizes |
| Selections.SizeCovers | nineml/user/selection.py:104-106 | every population's size is at most the selection's size |
| Selections.Keys | nineml/user/selection.py:194 | the keys are the items' keys in order |
| Selections.ConcatenateKeyMeaning | nineml/user/selection.py:192-194 | the key splits back into the keys of the first ten items, and later items do not change it |
| Selections.ConcatenateFromIndexed | nineml/user/selection.py:233-244 | every rejection of the items is a `ValueError` |
| Selections.ConcatenateFromIndexedMeaning | nineml/user/selection.py:233-244 | the items are accepted exactly when their indices are 0 to n-1, each once, and each item then sits at its index |
| Indexed.InsertKeepsRows | nineml/user/selection.py:233 | inserting a row into sorted rows adds exactly that row |
| Indexed.InsertKeepsIndices | nineml/user/selection.py:233 | inserting a row adds exactly its index to the indices |
| Indexed.InsertKeepsSorted | nineml/user/selection.py:233 | inserting into rows sorted by index keeps them sorted |
| Indexed.SortByIndexSorts | nineml/values.py:256 | sorting by index is a permutation of the rows whose indices are in order |
| Indexed.SortedRowsIndices | nineml/values.py:256 | rows are sorted by index exactly when their index list is sorted |
| Indexed.SortedUnique | nineml/values.py:256 | two sorted lists with the same elements are equal, so the sorted index list does not depend on the order of the rows |
| Indexed.StrictClimb | nineml/user/selection.py:241-243 | strictly increasing integers climb at least one per position |
| Indexed.PinnedIsRange | nineml/user/selection.py:238-243 | distinct sorted indices starting at 0 or more and ending below their count are exactly 0 to n-1 |
| Indexed.RangeStrictlySorted | nineml/user/selection.py:238-243 | 0 to n-1 is strictly increasing |
| Indexed.SortedAdjacentDistinct | nineml/values.py:261 | sorted indices have no neighbouring repeat exactly when they are distinct |
| Indexed.AdjacentDistinctStrict | nineml/values.py:261 | sorted indices without neighbouring repeats are strictly increasing |
| Indexed.DistinctSnoc | nineml/user/selection.py:235 | a list with one more element is distinct exactly when the list was and the element is new |
| Indexed.DistinctCountBound | nineml/user/selection.py:235 | a list has at most as many distinct elements as entries |
| Indexed.DistinctCountFull | nineml/user/selection.py:235 | `len(indices) == len(set(indices))` holds exactly when the indices are distinct |
| Indexed.RunsFull | nineml/values.py:261 | the number of `groupby` runs equals the length exactly when no neighbours repeat |
| Indexed.IndexPermutationBounds | nineml/user/selection.py:235-243 | sorted indices are a permutation of 0 to n-1 exactly when the first is at least 0, the last below n and none repeats |
| Indexed.PermutationInvariant | nineml/user/selection.py:233 | being a permutation of 0 to n-1 does not depend on the order |
| Indexed.PlacedAtIndex | nineml/user/selection.py:244 | when the sorted indices are 0 to n-1, every row's payload lands at its own index |
| Indexed.SortedIndexCheck | nineml/user/selection.py:233-243 | the test on the sorted indices holds exactly when the original indices are a permutation of 0 to n-1, and then the sorted indices are 0 to n-1 |
| Values.IterationAndLength | nineml/values.py:78-83 | a single value iterates its value forever yet has length 0; an array value yields exactly its values, in order (also line 214-221) |
| Values.NewArrayValue | nineml/values.py:197-204 | a non-iterable argument raises `NineMLRuntimeError`; otherwise the array holds the given values |
| Values.ArrayFromRows | nineml/values.py:254-268 | no rows raise `ValueError` from the unpacking; every other rejection is `NineMLRuntimeError` |
| Values.ArrayFromRowsMeaning | nineml/values.py:254-269 | the rows are accepted exactly when their indices are 0 to n-1, each once, and each value then sits at its index |
| Values.ArrayRowsRejected | nineml/values.py:258-268 | a negative, repeated or too large index makes the rows rejected |
| Values.PermutationNoRepeat | nineml/values.py:261-265 | a permutation of 0 to n-1 repeats no index |
| Values.RangeOnce | nineml/values.py:261-265 | 0 to n-1 holds each number at most once |
| Values.ScaleStep | nineml/values.py:605 | one more power of ten is one more factor of ten |
| Values.ScaleAdd | nineml/values.py:605 | scaling twice adds the exponents |
| Values.ScaleLinear | nineml/values.py:559-563 | scaling distributes over sums and differences |
| Values.ScaledAsWrittenMisscales | nineml/values.py:605 | as written, 1 V added to a quantity in mV counts as 0.001 mV, a millionth of the volt |
| Values.Scaled | nineml/values.py:598-612 | as intended, an operand of another dimension, or an operand without units added to a quantity with units, raises `NineMLDimensionError`; a bare number added to a unitless quantity raises `AttributeError`, because the handler reads its `value`; otherwise the operand's physical amount is kept in the own units, and a single value is taken as it is |
| Values.NumberOperands | nineml/values.py:607-612 | a single value is added to a unitless quantity as it is; a bare number raises `AttributeError` there, and `NineMLDimensionError` next to units |
| Values.Quantity.constructor | nineml/values.py:476-493 | a quantity holds its value and units |
| Values.Quantity.SetUnits | nineml/values.py:519-524 | a unit of another dimension raises `NineMLRuntimeError` and changes nothing, so the dimension never changes |
| Values.Quantity.Add | nineml/values.py:559-560 | the sum is in this quantity's units, its value plus the scaled operand, and it raises exactly the scaling's error: mismatched dimensions, or a bare number |
| Values.Quantity.Sub | nineml/values.py:562-563 | the difference is in this quantity's units, its value minus the scaled operand, and it raises exactly the scaling's error: mismatched dimensions, or a bare number |
| Values.AddSymmetric | nineml/values.py:559-605 | as intended, a + b and b + a are the same physical amount |
| MultiComponents.NewSubComponentLookup | nineml/user/multicomponent.py:20-39 | a sub-component is found by a name exactly when one was given with it, and the last one given under a name wins |
| MultiComponents.NewPortExposureLookup | nineml/user/multicomponent.py:20-42 | a port exposure is found by a name exactly when one was given with it, and the last one given under a name wins |
| MultiComponents.Ints | nineml/user/multicomponent.py:228-236 | the tree indices are the given ints, in order |
| MultiComponents.NewTree | nineml/user/multicomponent.py:228-236 | `Tree(indices)` accepts exactly a list of ints, and otherwise raises `NineMLRuntimeError` |
| MultiComponents.NewMapping | nineml/user/multicomponent.py:258-270 | `Mapping(keys, indices)` accepts exactly int keys and indices that are all keys, and otherwise raises `NineMLRuntimeError` |
| MultiComponents.NewMappingValid | nineml/user/multicomponent.py:258-270 | an accepted mapping maps every compartment to a key |
| MultiComponents.DomainNameDefined | nineml/user/multicomponent.py:280-282 | `domain_name(i)` is defined exactly for Python's index range -n to n-1, and gives the key of the i-th compartment (counting from the end for negatives) |
| MultiComponents.NewMultiCompartment | nineml/user/multicomponent.py:141-152 | a tree argument that is neither a `Tree` nor iterable leaves no tree; an iterable of non-ints raises `NineMLRuntimeError`; domains are keyed by name, the last winning |
| MultiComponents.TreeIndices | nineml/user/multicomponent.py:185-187 | `tree` raises `AttributeError` when no tree was stored |
| MultiComponents.DomainOfMeaning | nineml/user/multicomponent.py:166-179 | `domain` of a name is that domain, of an int the domain of that compartment, and any other argument raises `NineMLRuntimeError`; an unknown name raises `KeyError` |
| MultiComponents.EveryCompartmentHasDomain | nineml/user/multicomponent.py:166-179 | when every key names a domain, every compartment index in range has a domain (also line 280-282) |
| Components.Chain | nineml/user_layer/components/base.py:65-67 | the chain of definitions starts at the component itself |
| Components.ChainMeaning | nineml/user_layer/components/base.py:65-68 | each component of the chain is the prototype of the one before, and the chain ends at a component with a `Definition` |
| Components.ComponentClassOf | nineml/user_layer/components/base.py:58-68 | `component_class` is the class of the `Definition` at the end of the prototype chain |
| Components.PropertiesOverride | nineml/user_layer/components/base.py:70-80 | a local property wins over the prototype's, and a name not set locally is inherited from the prototype |
| Components.PropertyNamesAlongChain | nineml/user_layer/components/base.py:70-80 | a property name is defined exactly when some component along the chain sets it |
| Components.PropertyValueAlongChain | nineml/user_layer/components/base.py:70-80 | a property's value is the one set by the nearest component along the chain |
| Components.CheckPropertiesMeaning | nineml/user_layer/components/base.py:115-133 | `check_properties` passes exactly when the property names are the class's parameter names, and otherwise raises naming the surplus and missing ones |
| Components.NewComponent | nineml/user_layer/components/base.py:21-56 | a definition that is neither `Definition` nor `Prototype` raises `ValueError`; properties or initial values that are not a set or dict raise `TypeError`; then the properties are checked |
| Components.DiffMeaning | nineml/user_layer/components/base.py:100-108 | the diff is empty exactly when name, definition and properties agree, then the components are equal; it is symmetric and names each differing part |
| Components.EqualWithoutEmptyDiff | nineml/user_layer/components/base.py:82-108 | two equal components can still have a non-empty diff, one defined directly and one through a prototype |
| Serialization.LeadingDigits | nineml/serialization/base.py:27-80 | the digits the version regex's first group takes: a run of digits ended by a non-digit or the end |
| Serialization.LeadingDigitsOf | nineml/serialization/base.py:27-80 | the group takes exactly the leading digits when a non-digit follows them |
| Serialization.StripLeadingZeros | nineml/serialization/base.py:71-76 | the leading zeros `str(float(...))` drops: digits stay digits and no leading zero is left |
| Serialization.StripTrailingZeros | nineml/serialization/base.py:71-76 | the trailing zeros of the fraction `str(float(...))` drops: digits stay digits and no trailing zero is left |
| Serialization.FloatStr | nineml/serialization/base.py:71-76 | `str(float(s))` of a plain decimal is again digits, a point, digits (exact printing only; see "## Left out") |
| Serialization.VersionMatch | nineml/serialization/base.py:27-83 | the version regex gives two non-negative ints, and a string it does not match raises `NineMLSerializationError` |
| Serialization.VersionMatchParts | nineml/serialization/base.py:27-80 | the regex on digits, a point and digits reads back the two numbers |
| Serialization.VersionMatchDecimal | nineml/serialization/base.py:27-80 | the regex on `"{major}.{minor}"` gives back major and minor |
| Serialization.StandardizeVersionAsWritten | nineml/serialization/base.py:69-87 | as written, text that is not a version raises `NineMLSerializationError` and a value of another type `TypeError` |
| Serialization.StandardizeVersion | nineml/serialization/base.py:69-87 | as intended, a version string the regex matches is read as written, without the float round trip |
| Serialization.Version | nineml/serialization/base.py:42-44 | `version` formats the first two parts, and a tuple of fewer raises `IndexError` |
| Serialization.VersionRoundTrip | nineml/serialization/base.py:42-87 | formatting a version and standardizing it again gives back the same two numbers |
| Serialization.StripLeadingZerosDecimal | nineml/serialization/base.py:71-76 | stripping leading zeros leaves a decimal numeral unchanged |
| Serialization.StripTrailingZerosDecimal | nineml/serialization/base.py:71-76 | stripping trailing zeros leaves unchanged a numeral not ending in 0 |
| Serialization.DecimalVersionIsPlain | nineml/serialization/base.py:71-80 | `"{major}.{minor}"` is a plain decimal whose leading digits are the major version |
| Serialization.FloatStrDecimal | nineml/serialization/base.py:71-76 | `str(float(...))` keeps `"{major}.{minor}"` when the minor version does not end in 0 and the two have at most twelve digits together |
| Serialization.AsWrittenRoundTrip | nineml/serialization/base.py:42-87 | as written, the round trip holds when the minor version does not end in 0 and the version has at most twelve digits |
| Serialization.FloatStrOnePointTen | nineml/serialization/base.py:71-76 | `str(float("1.10"))` is `"1.1"` |
| Serialization.OnePointTen | nineml/serialization/base.py:42-87 | as intended, version (1, 10) prints as `"1.10"` and reads back as (1, 10) |
| Serialization.VersionMatchOnePointOne | nineml/serialization/base.py:27-80 | the regex reads `"1.1"` as (1, 1) |
| Serialization.AsWrittenOnePointTen | nineml/serialization/base.py:69-87 | as written, `"1.10"` is read as (1, 1) |
| Serialization.AsWrittenDropsTrailingZero | nineml/serialization/base.py:69-87 | as written, version 1.10 prints as `"1.10"` but reads back as (1, 1), so it is taken for 1.1 |
| Serialization.NodeName | nineml/serialization/base.py:62-67 | the node name is the v1 name under major version 1 when the class has one, else the class's type name; no version raises `IndexError` |
| Serialization.NodeNameByMajorVersion | nineml/serialization/base.py:62-67 | the v1 name is used exactly under major version 1, and only the major version matters |
| Serialization.CommonPrefix | nineml/serialization/base.py:90-94 | two versions agree up to the first place where they differ |
| Serialization.LaterIsLexicographic | nineml/serialization/base.py:89-95 | `later_version` compares at the first differing part, and returns `equal` when none differs within the shorter length |
| Serialization.LaterOrder | nineml/serialization/base.py:89-95 | a version is later than itself only when `equal` is asked, and of two different versions of equal length exactly one is later |
| Serialization.CommonPrefixSymmetric | nineml/serialization/base.py:90-94 | the common prefix does not depend on the order |
| Serialization.LaterVersion | nineml/serialization/base.py:89-95 | `later_version` fails exactly when the other version cannot be standardized, and otherwise is the lexicographic comparison |
| Serialization.WriteReference | nineml/serialization/base.py:351-368 | an explicit `reference` wins; with none, no style means "loaded from a document", prefer and local mean yes, inline no, and any other style raises `NineMLSerializationError` |
| Serialization.ReferenceUrl | nineml/serialization/base.py:351-389 | the url is `False` exactly when no reference is written, `None` for a local reference, the object's url with absolute references, and otherwise a relative path starting with '.' |
| Serialization.ReferenceDecision | nineml/serialization/base.py:168-176 | the document matters only with neither reference nor style, and `force_reference` and `force_inline` decide alone (also line 351-368) |
| Serialization.Select | nineml/serialization/base.py:748-752 | filtering children never adds any |
| Serialization.SelectMembers | nineml/serialization/base.py:748-752 | the filtered children are exactly those whose tag is (or is not) among the names |
| Serialization.SelectPrefix | nineml/serialization/base.py:748-752 | filtering a prefix gives a prefix of the filtered children |
| Serialization.SelectIgnoresAnnotations | nineml/serialization/base.py:746-752 | dropping annotations first does not change the matches when annotations are not asked for |
| Serialization.SingleChild | nineml/serialization/base.py:727-787 | `get_single_child` returns the one child with a matching tag; several raise `NineMLUnexpectedMultipleSerializationError`, none `NineMLMissingSerializationError`, and no names `TypeError` |
| Serialization.SelectSnoc | nineml/serialization/base.py:1201-1210 | one more child is appended to the matches exactly when its tag matches |
| Serialization.TagsSnoc | nineml/serialization/base.py:1201-1210 | one more child adds its tag to the tags seen |
| Serialization.DiscardStep | nineml/serialization/base.py:1206-1210 | discarding one more matched tag removes it from the unprocessed children |
| Serialization.MatchChildren | nineml/serialization/base.py:1196-1210 | the children loop collects the matching children in document order and discards exactly the matched tags |
| Serialization.NodeToUnserialize.constructor | nineml/serialization/base.py:1072-1090 | with checking, every attribute, child tag other than annotations and a present body start unprocessed; without, nothing does |
| Serialization.NodeToUnserialize.Attr | nineml/serialization/base.py:1222-1266 | an attribute read from the element is discarded from the unprocessed ones and its value returned; a missing one returns the default or raises `NineMLMissingSerializationError`; in-body reads take the single child of that name |
| Serialization.NodeToUnserialize.Children | nineml/serialization/base.py:1196-1220 | the matching children are returned in order and their tags discarded; too few or a wrong count raises `NineMLSerializationError` |
| Serialization.NodeToUnserialize.Body | nineml/serialization/base.py:1289-1302 | the body is marked processed; a missing body returns `None` when allowed and otherwise raises `NineMLSerializationError` |
| Serialization.NodeToUnserialize.CheckProcessed | nineml/serialization/base.py:536-551 | the tests after unserializing pass exactly when no child, attribute or body is left unprocessed |
| Serialization.Visit | nineml/serialization/base.py:536-551 | a node succeeds exactly when the attributes read are all it has and no child (besides annotations) or body is left unread (also line 1072-1090) |
| Serialization.VisitedAll | nineml/serialization/base.py:1018-1022 | visiting objects directly writes each of them, in order, and creates no container |
| Serialization.ContainerTagsAppend | nineml/serialization/base.py:984-990 | the containers written by two runs are those of each |
| Serialization.NodeToSerialize.constructor | nineml/serialization/base.py:956-958 | a new node has created no container and written nothing |
| Serialization.NodeToSerialize.Child | nineml/serialization/base.py:984-996 | a second container of the same tag raises `NineMLSerializationError` unless `multiple`, and changes nothing; otherwise the container is recorded and the object visited inside it |
| Serialization.NodeToSerialize.Children | nineml/serialization/base.py:1018-1022 | the objects are visited directly, in the order of their keys |
| Serialization.NodeToSerialize.VisitInOrder | nineml/serialization/base.py:1020-1022 | the loop visits each key in turn and creates no container |
| Serialization.ElemName | nineml/serialization/base.py:710-725 | a document-level element is named by its `name` attribute, else its `symbol`, and neither raises `NineMLSerializationError` |
| Serialization.Names | nineml/serialization/base.py:459 | the names of the members, in document order |
| Serialization.StoreMember | nineml/serialization/base.py:459-470 | storing one more element keeps the names distinct and indexed; a missing or repeated name, or a type with no document-level class (the class-map lookup falling back to `get_nineml_class`, which raises), means the document is rejected |
| Serialization.OpenAsWritten | nineml/serialization/base.py:449-470 | as written, the document is accepted exactly when every member is named, names are distinct and every member type resolves to a document-level class; the annotations element is never stored, so a repeated one is not detected |
| Serialization.OpenStep | nineml/serialization/base.py:451-470 | one more child of the root is either the annotations element or a named member of a recognised type stored under its name; a second annotations element, a missing or repeated name or an unrecognised type is an error only for a document that is not accepted |
| Serialization.Open | nineml/serialization/base.py:449-470 | as intended, the root is accepted exactly when every member is named, names are distinct, every member type resolves to a document-level class and there is at most one annotations element, which is kept |
| Serialization.RepeatedAnnotationsAccepted | nineml/serialization/base.py:452-458 | as written, a document with two annotations elements is accepted, which the intended check rejects |
| Strings.SortedKeys | nineml/user/multi/namespace.py:67 | `sorted` of a set of names: each name once, in increasing order |
| Strings.BelowTotal | nineml/user/multi/namespace.py:67 | the string order used by `sorted` relates any two names |
| Strings.BelowAntisymmetric | nineml/user/multi/namespace.py:67 | two names each below the other are the same |
| Strings.BelowTransitive | nineml/user/multi/namespace.py:67 | the string order is transitive |
| Strings.SortedUnique | nineml/user/multi/namespace.py:67 | two ascending, repeat-free lists of the same names are equal, so `sorted` depends only on the set of keys |
| Strings.Strip | nineml/abstraction/dynamics/transitions.py:92 | `strip()` removes leading and trailing whitespace, leaving a slice with no whitespace at either end |
| Strings.StripPadded | nineml/abstraction/dynamics/transitions.py:92 | stripping a padded name gives back the name (also line 339) |
| Strings.SplitOn | nineml/user/selection.py:194 | splitting on a character gives at least one part, none holding the character |
| Strings.SplitOnJoin | nineml/user/selection.py:194 | splitting a join of parts free of the separator gives back the parts |
| Strings.JoinSplitOn | nineml/user/selection.py:194 | joining the parts of a split gives back the string |
| Strings.ByKey | nineml/user/multicomponent.py:23-24 | a dict built from items by key holds exactly the items' keys |
| Strings.ByKeyLast | nineml/user/multicomponent.py:23-24 | the item stored under a key is the last one given with it |
| Strings.Decimal | nineml/serialization/base.py:44 | `str(n)`: digits, no leading zero except for 0 itself |
| Strings.DecimalRoundTrip | nineml/serialization/base.py:44-80 | `int(str(n)) == n` |
| Products.PrefixedMembers | nineml/abstraction_layer/flattening/flattening.py:169 | prefixing one element to each tuple gives exactly the tuples starting with it |
| Products.ExtendLength | nineml/abstraction_layer/flattening/flattening.py:169 | one more factor multiplies the number of tuples by its length |
| Products.ExtendMembers | nineml/abstraction_layer/flattening/flattening.py:169 | the tuples of one more factor are exactly those whose head is in it and whose tail is a tuple of the rest |
| Products.ProductFacts | nineml/abstraction_layer/flattening/flattening.py:169 | `itertools.product` has as many tuples as the product of the lengths, and holds exactly the combinations |
| Products.ProductDistinct | nineml/abstraction_layer/flattening/flattening.py:169 | the product of lists without repeats has no repeated tuple |
| Products.ExtendDistinct | nineml/abstraction_layer/flattening/flattening.py:169 | one more factor without repeats keeps the tuples distinct |
| Products.ChainMembers | nineml/abstraction_layer/flattening/flattening.py:284 | `itertools.chain` holds exactly the elements of its lists |
| Expressions.MapSymbolsFree | nineml/abstraction_layer/expressions/base.py:159-161 | substituting symbols by a name map maps the free symbols and keeps the functions |
| Expressions.RenameSymbolFree | nineml/abstraction_layer/expressions/base.py:155-161 | renaming a symbol removes it, and the new name is free exactly when either was before |
| Expressions.RenameAbsent | nineml/abstraction_layer/expressions/base.py:155-161 | renaming a symbol the expression does not mention changes nothing |
| Expressions.SubstituteFree | nineml/abstraction_layer/expressions/base.py:159-161 | substituting a value for a name removes the name and adds only the value's symbols |
| Expressions.SumOfFree | nineml/user/multi_dynamics.py:241-247 | the sum of names mentions exactly those names |

## Left out

- Serialization formats and I/O: XML, HDF5 and pickle adapters, every `to_xml`/`from_xml`/`serialize_node` body, `ExternalArrayValue` loading and reading referenced documents (`nineml.read`) are not part of this model; serial elements are given as values and references hold the object they refer to.
- `os.path.relpath` in `_get_reference_url` is a file-system call; the relative url is a parameter, and only its leading `.` is stated.
- sympy: expressions are opaque terms with free symbols, renaming and substitution; parsing, simplification, `evalf`, code generation and trigger crossing-time solving are not modelled.
- Floating point: numbers are exact reals (`Values`, `Components`), so rounding in `10 ** power` scaling is not modelled.
- Serialization.FloatStr: `str(float(version))` is modelled as the exact decimal text. Python 2 prints twelve significant digits and uses exponent form from 1e12 and below 1e-4 (`"1.1234567890123"` prints as `1.12345678901`). So `StandardizeVersionAsWritten` agrees with the code only for versions within those limits; `FloatStrDecimal` and `AsWrittenRoundTrip` require them.
- Arithmetic operator overloads of `SingleValue`, `ArrayValue` and `Quantity`, and numpy random sampling, are not modelled beyond the dimension check of `_scaled_value`.
- nineml/user/population.py is not part of this model: a population is given by its name, key, size and ports.
- `Selection` name validation (nineml/user/selection.py:56) is not modelled; names are taken as given.
- `ComponentRenameSymbol.__init__` calls `assign_indices` and `validate` after the rename (nineml/abstraction/componentclass/utils/modifiers.py:39,41); indices and the full validator are not part of this model.
- `remap_port_to_parameter` removes the port from `_analog_ports` (nineml/abstraction_layer/dynamics/utils/modifiers.py:86); it is modelled as removal from the dictionary of the port's kind.
- Python's recursion limit in `distribute_event` is a `depth` bound that yields `RuntimeError`, and the event cascade is bounded by a `fuel` count that yields `RuntimeError` when exhausted; inputs that need more depth or fuel than given are not modelled beyond that error.
- `LocalEventPortConnection.__init__` takes no argument and raises `NotImplementedError` (nineml/user/multi_dynamics.py:560-565). As written it is called with four, so an event tuple raises `TypeError` first (`ClassifyAsWritten`). Per-port event bookkeeping is proved on the recording steps only.
- MultiDynamics.Localize: models the connection step as evidently intended. As written no step succeeds: a connection object fails to unpack, and a tuple fails at the undefined `bind_ports`. `LocalizeAsWritten` models this, and `Localize` is the intended partner.
- MultiDynamics.NewMultiDynamics: models the constructor as evidently intended. As written it already raises `AttributeError` at nineml/user/multi_dynamics.py:176 for any sub-component (`InitConnectionListsAsWritten`). Past that point it would also raise on the first connection (`ConnectAsWritten`), on any named reduce port of a named sub-component (`RemapAsWritten`, `ReduceKeyNotPair`), and when the chained regimes are read (:225-227). No as-written composite is built.
- MultiDynamics.InitConnectionLists: reads the ports of each sub-component's component, where the code asks the `SubDynamics` itself, which has no such attribute; the as-written half is `InitConnectionListsAsWritten`.
- Serialization.Open: which element types resolve to a document-level class (the class map, then `get_nineml_class`) is the `recognised` parameter. The lookup itself, and the class stored beside each element, are not part of this model.
- Parameters and constants of a multi-dynamics are the chained lists of its sub-components and are not modelled.
- Python dictionary iteration order is arbitrary in the model wherever the source iterates a dict without sorting (reduce-port renamings in `remap_ports`).
- The lazy proxy objects of the namespace wrappers are replaced by names computed when the wrapper is made.
- Names are assumed to hold no newline, where Python's `.` in the namespace regular expressions would stop.
- The identifier check `ensure_valid_identifier` is not part of this model's source; it is modelled as the rule that a name is a letter or `_` followed by letters, digits and `_`.
- Concurrency, logging and `__repr__`/`__str__` text are not modelled.

## Findings

| source | as written | input that shows it | evidently intended | confidence | as-written member | corrected member |
|---|---|---|---|---|---|---|
| nineml/user/multi/namespace.py:35 | the replacement `r'/1/2_/3'` is inserted literally in place of everything up to the last run of underscores | namespaces `b__c` and `x__c` under identifier `a` both give `a__/1/2_/3c` | add one underscore to each run of two or more underscores, so the name splits back | not executed | Namespace.AppendAsWrittenCollides | Namespace.SplitAppendRoundTrip |
| nineml/user/multi/namespace.py:46 | every run of three or more underscores collapses to one `_` | the escaped `b___c` of `b__c` unescapes to `b_c` | remove one underscore from each run of three or more | not executed | Namespace.UnescapeAsWrittenLosesUnderscore | Namespace.UnescapeEscape |
| nineml/user/multi_dynamics.py:339-340 | `in_namespace` is called with one argument, so every wrapped name raises `TypeError` | the name `V` in sub-component `cell` | `in_namespace(name, sub_component.name)`, giving `V_cell` | not executed | MultiDynamics.NamespacedNameAsWrittenFails | MultiDynamics.InNamespaceInjective |
| nineml/user/multi_dynamics.py:189 | a tuple connection counts as analog only when the sender's port is an analog receive port | a tuple from analog send port `V` to analog receive port `v_in` reaches `assert False` | test whether the sender's port is an analog send port | not executed | MultiDynamics.ClassifyAsWrittenRefusesSendPort | MultiDynamics.Classify |
| nineml/user/multi_dynamics.py:174-180 | each `SubDynamics` is asked for `event_receive_ports` and `analog_reduce_ports`, which it does not define | one sub-component `cell` with event receive port `spike` raises `AttributeError` | read the ports of the sub-component's component | not executed | MultiDynamics.InitAsWrittenFails | MultiDynamics.InitConnectionLists |
| nineml/user/multi_dynamics.py:185 | connection objects are unpacked as four names | an analog connection object from `a.V` to `b.v_in` raises `TypeError` (`BaseULObject`, not part of this model, is taken not to be iterable) | read the ids and port names from the object | not executed | MultiDynamics.LocalizeAsWrittenFails | MultiDynamics.Localize |
| nineml/user/multi_dynamics.py:194-195 | an event tuple's four values are passed to `LocalEventPortConnection.__init__`, which takes none | a tuple from event send port `spike` to event receive port `spike_in` raises `TypeError` | raise the constructor's `NotImplementedError` | not executed | MultiDynamics.ClassifyAsWrittenEventTuple | MultiDynamics.Classify |
| nineml/user/multi_dynamics.py:206 | `bind_ports` is defined on no port connection class | a tuple from analog receive port `b.v_in` raises `AttributeError` | bind and check the ports as `bind` does | not executed | MultiDynamics.LocalizeAsWrittenFails | MultiDynamics.Localize |
| nineml/user/multi_dynamics.py:552-557 | the ids are passed where the port names go, and the port names as roles | `a.V` to `b.v_in` gets send port name `a` and name `V_a_v_in_b` | the port names as port names and the ids as sender and receiver names, giving `a_V_b_v_in` | not executed | MultiDynamics.LocalAnalogArgsSwapped | MultiDynamics.LocalAnalogArgs |
| nineml/user/multi_dynamics.py:232-247 | namespaced string keys are unpacked as pairs, and each connection is read for `send_id` | reduce port `I` of sub-component `cell` has key `I_cell`, which raises `ValueError` | iterate over (sub-component, port) pairs and read the sender's id | not executed | MultiDynamics.ReduceKeyNotPair | MultiDynamics.AnalogAliasFacts |
| nineml/abstraction_layer/flattening/flattening.py:141-145 | the response reads the undefined names `one_event`, `oldtransition` and `regimeIndex` | a regime with one OnEvent for `spike` raises `NameError` | the OnEvent's outputs, its target, and the slot's own component | not executed | Flattening.RespondAsWrittenFails | Flattening.RespondInSpace |
| nineml/abstraction_layer/flattening/flattening.py:99 | the guard compares `OutputEvent` objects with port-name strings, so it never fires | a response to `spike` that emits `spike` passes the guard | compare port names | not executed | Flattening.GuardAsWrittenMissesLoop | Flattening.CascadeGuard |
| nineml/abstraction_layer/flattening/flattening.py:104 | the whole list of new events is passed to `distribute_event`, which reads `.port_name` of it | an event no regime responds to raises `AttributeError` | distribute each new event | not executed | Flattening.CascadeStepAsWrittenFails | Flattening.DistributeAllReaches |
| nineml/abstraction_layer/flattening/flattening.py:116-123 | `append` is called on a `set()`, and the recursive call at :122 omits the `event_port_map` argument | one connection `a` to `b` and the event on `a` raises `AttributeError` | the set of ports reachable from the event's port through the connections | not executed | Flattening.DistributeAsWrittenFails | Flattening.DistributeFromFacts |
| nineml/abstraction/componentclass/utils/modifiers.py:66-69 | `chain` hands the keys of the alias and constant dicts to the dict re-keying, whose dict assertion fails | a class with one alias | re-key the parameter, index, alias and constant dicts themselves | not executed | ComponentModifiers.AliasBreaksUpdateDictsAsWritten | ComponentModifiers.RenameRemovesSymbol |
| nineml/abstraction_layer/dynamics/utils/modifiers.py:160-163 | a matching OnEvent is noted as changed but `_port_name` is set instead of its source port | renaming `spike` to `in` leaves an OnEvent on `spike`, no longer a receive port | the OnEvent listens on the new name | not executed | DynamicsModifiers.OnEventAsWrittenKeepsOldPort | DynamicsModifiers.RenamedTransitionFree |
| nineml/abstraction_layer/dynamics/utils/modifiers.py:74 | the port gets the new name but stays under the old key | renaming analog receive port `I` to `J` | the port is moved to the key of its new name | not executed | DynamicsModifiers.RenamePortAsWrittenUnkeys | DynamicsModifiers.MovedPortKeyed |
| nineml/user/selection.py:149 | `num_analog_receive_ports` counts the analog reduce ports | one population whose only port is analog receive port `I` gives 0 | count the analog receive ports | not executed | Selections.NumAnalogReceiveAsWrittenMiscounts | Selections.NumCombinedPortsCountsNames |
| nineml/user/selection.py:165 | `num_event_send_ports` counts the event receive ports | one population whose only port is event send port `spike` gives 0 | count the event send ports | not executed | Selections.NumEventSendAsWrittenMiscounts | Selections.NumCombinedPortsCountsNames |
| nineml/values.py:605 | the exponent difference is own power minus the operand's | adding 1 V to a quantity in mV scales it to 0.001 mV | operand power minus own power, keeping the physical amount | not executed | Values.ScaledAsWrittenMisscales | Values.AddSymmetric |
| nineml/serialization/base.py:69-87 | the version is read with `float`, so a trailing zero of the minor number is lost | `"1.10"` is read back as (1, 1) | split on `.` and read both numbers as integers | not executed | Serialization.AsWrittenDropsTrailingZero | Serialization.VersionRoundTrip |
| nineml/serialization/base.py:452-458 | the document-level annotations element is never stored, so a repeated one is not detected | a document with two annotations elements is accepted | keep the annotations element and reject a second one | not executed | Serialization.RepeatedAnnotationsAccepted | Serialization.Open |
