/** `MultiDynamics`: several dynamics sub-components composed into one
    dynamics.  Every name inside a sub-component is put in the
    sub-component's namespace with `in_namespace`; the composite regimes are
    the Cartesian product of the sub-components' regimes; connections are
    kept per receive port; and each analog connection becomes an alias of
    the composite. */
module MultiDynamics {
  import opened Wrappers
  import opened Strings
  import opened Expressions
  import opened Ports
  import opened Products
  import Namespace
  import PortConnections

  // ---------------------------------------------------------------------
  // Names inside the composite
  // ---------------------------------------------------------------------

  /** `in_namespace(name, namespace)`: the name, one `'_'`, the namespace. */
  function InNamespace(name: string, ns: string): string
  {
    name + "_" + ns
  }

  /** A namespace free of `'_'` is no longer than any other namespace of the
      same name. */
  lemma NamespaceNotLonger(n1: string, ns1: string, n2: string, ns2: string)
    requires '_' !in ns2
    requires InNamespace(n1, ns1) == InNamespace(n2, ns2)
    ensures |ns2| <= |ns1|
  {
    if |ns1| < |ns2| {
      UnderscoreInLonger(n1, ns1, n2, ns2);
    }
  }

  /** Of two namespaces of the same name, the longer one holds the `'_'`
      that precedes the shorter one. */
  lemma UnderscoreInLonger(n1: string, ns1: string, n2: string, ns2: string)
    requires InNamespace(n1, ns1) == InNamespace(n2, ns2)
    requires |ns1| < |ns2|
    ensures '_' in ns2
  {
    var r := InNamespace(n1, ns1);
    var p := |r| - 1 - |ns1|;
    assert r[p] == '_';
    var q := p - (|r| - |ns2|);
    assert ns2[q] == r[p];
  }

  /** With namespaces free of `'_'`, a namespaced name determines both the
      name and the namespace. */
  lemma InNamespaceInjective(n1: string, ns1: string, n2: string, ns2: string)
    requires '_' !in ns1 && '_' !in ns2
    requires InNamespace(n1, ns1) == InNamespace(n2, ns2)
    ensures n1 == n2 && ns1 == ns2
  {
    NamespaceNotLonger(n1, ns1, n2, ns2);
    NamespaceNotLonger(n2, ns2, n1, ns1);
    var r := InNamespace(n1, ns1);
    assert ns1 == r[|r| - |ns1|..] == ns2;
    assert n1 == r[..|n1|] == n2;
  }

  /** Without that restriction two different pairs can share a name. */
  lemma InNamespaceAmbiguous()
    ensures InNamespace("a_b", "c") == InNamespace("a", "b_c")
  {
  }

  /** The same namespace keeps different names different. */
  lemma InNamespaceSameNamespace(n1: string, n2: string, ns: string)
    requires InNamespace(n1, ns) == InNamespace(n2, ns)
    ensures n1 == n2
  {
    assert |n1| == |n2|;
    assert n1 == InNamespace(n1, ns)[..|n1|];
  }

  /** The renaming that a sub-component applies to every symbol. */
  function Within(sub: string): string -> string
  {
    s => InNamespace(s, sub)
  }

  /** `NamespaceNamed.name` as written: `in_namespace(name + sub.name)`
      passes one argument to a function of two, so it always raises. */
  function NamespacedNameAsWritten(name: string, sub: string): (r: Result<string>)
    ensures r.Err? && r.error == TypeError
  {
    Err(TypeError)
  }

  /** Every wrapped name raises as written, where `in_namespace(name, sub)`
      was evidently meant. */
  lemma NamespacedNameAsWrittenFails()
    ensures NamespacedNameAsWritten("V", "cell").Err?
    ensures InNamespace("V", "cell") == "V_cell"
  {
  }

  // ---------------------------------------------------------------------
  // Sub-components and their wrapped elements
  // ---------------------------------------------------------------------

  datatype AliasDef = AliasDef(lhs: string, rhs: Expr)
  datatype TimeDerivative = TimeDerivative(variable: string, rhs: Expr)
  datatype Regime = Regime(name: string, timeDerivatives: seq<TimeDerivative>, aliases: seq<AliasDef>)

  /** The parts of a sub-component's dynamics the composition reads: its
      ports by name, regimes, aliases and state variables. */
  datatype Dynamics = Dynamics(name: string, ports: map<string, Port>, regimes: seq<Regime>,
                               aliases: seq<AliasDef>, stateVariables: seq<string>)

  /** `SubDynamics(name, component)`. */
  datatype SubDynamics = SubDynamics(name: string, component: Dynamics)

  /** `NamespaceAlias`: the lhs in the namespace and every free symbol of the
      rhs renamed into it. */
  function NsAlias(sub: string, a: AliasDef): AliasDef
  {
    AliasDef(InNamespace(a.lhs, sub), MapSymbols(a.rhs, Within(sub)))
  }

  /** `NamespaceTimeDerivative`. */
  function NsTimeDerivative(sub: string, td: TimeDerivative): TimeDerivative
  {
    TimeDerivative(InNamespace(td.variable, sub), MapSymbols(td.rhs, Within(sub)))
  }

  /** `NamespaceRegime`: the name, time derivatives and aliases in the
      namespace. */
  function NsRegime(sub: string, r: Regime): Regime
  {
    Regime(InNamespace(r.name, sub),
           seq(|r.timeDerivatives|, i requires 0 <= i < |r.timeDerivatives| =>
                 NsTimeDerivative(sub, r.timeDerivatives[i])),
           seq(|r.aliases|, i requires 0 <= i < |r.aliases| => NsAlias(sub, r.aliases[i])))
  }

  /** A wrapped alias assigns the namespaced lhs, and its rhs reads exactly
      the namespaced free symbols of the original and calls the same
      functions. */
  lemma NsAliasSymbols(sub: string, a: AliasDef)
    ensures NsAlias(sub, a).lhs == InNamespace(a.lhs, sub)
    ensures forall x :: x in FreeSymbols(NsAlias(sub, a).rhs) <==>
                        exists s :: s in FreeSymbols(a.rhs) && x == InNamespace(s, sub)
    ensures Functions(NsAlias(sub, a).rhs) == Functions(a.rhs)
  {
    MapSymbolsFree(a.rhs, Within(sub));
  }

  /** `SubDynamics.regimes`. */
  function SubRegimes(s: SubDynamics): seq<Regime>
  {
    var rs := s.component.regimes;
    seq(|rs|, i requires 0 <= i < |rs| => NsRegime(s.name, rs[i]))
  }

  /** `SubDynamics.aliases`. */
  function SubAliases(s: SubDynamics): seq<AliasDef>
  {
    var als := s.component.aliases;
    seq(|als|, i requires 0 <= i < |als| => NsAlias(s.name, als[i]))
  }

  /** `SubDynamics.state_variables`. */
  function SubStateVariables(s: SubDynamics): seq<string>
  {
    var vs := s.component.stateVariables;
    seq(|vs|, i requires 0 <= i < |vs| => InNamespace(vs[i], s.name))
  }

  /** `dict((d.name, d) for d in sub_components)`. */
  function SubsByName(subs: seq<SubDynamics>): map<string, SubDynamics>
  {
    ByKey(subs, (s: SubDynamics) => s.name)
  }

  /** Sub-components are found by name, and of two with the same name the
      later one is kept. */
  lemma SubsByNameFacts(subs: seq<SubDynamics>, i: nat)
    requires i < |subs|
    requires forall j :: i < j < |subs| ==> subs[j].name != subs[i].name
    ensures subs[i].name in SubsByName(subs)
    ensures SubsByName(subs)[subs[i].name] == subs[i]
  {
    ByKeyLast(subs, (s: SubDynamics) => s.name, i);
  }

  // ---------------------------------------------------------------------
  // Composite regimes
  // ---------------------------------------------------------------------

  /** `MultiRegime(*regimes)`: one regime of each sub-component. */
  datatype MultiRegime = MultiRegime(regimes: seq<Regime>)
  {
    function Names(): seq<string>
    {
      seq(|regimes|, i requires 0 <= i < |regimes| => regimes[i].name)
    }

    /** `'__'.join(names) + '__regime'`. */
    function Name(): string
    {
      Join("__", Names()) + "__regime"
    }

    /** The constituents' time derivatives, one after another. */
    function TimeDerivatives(): seq<TimeDerivative>
    {
      Chain(seq(|regimes|, i requires 0 <= i < |regimes| => regimes[i].timeDerivatives))
    }

    /** The constituents' aliases, one after another. */
    function Aliases(): seq<AliasDef>
    {
      Chain(seq(|regimes|, i requires 0 <= i < |regimes| => regimes[i].aliases))
    }
  }

  /** A composite regime holds exactly its constituents' time derivatives
      and aliases. */
  lemma MultiRegimeContents(m: MultiRegime)
    ensures forall td :: td in m.TimeDerivatives() <==>
                         exists i :: 0 <= i < |m.regimes| && td in m.regimes[i].timeDerivatives
    ensures forall a :: a in m.Aliases() <==> exists i :: 0 <= i < |m.regimes| && a in m.regimes[i].aliases
  {
    var tds := seq(|m.regimes|, i requires 0 <= i < |m.regimes| => m.regimes[i].timeDerivatives);
    var als := seq(|m.regimes|, i requires 0 <= i < |m.regimes| => m.regimes[i].aliases);
    ChainMembers(tds);
    ChainMembers(als);
    forall td ensures td in m.TimeDerivatives() <==>
                      exists i :: 0 <= i < |m.regimes| && td in m.regimes[i].timeDerivatives
    {
      if td in m.TimeDerivatives() {
        var i :| 0 <= i < |tds| && td in tds[i];
        assert td in m.regimes[i].timeDerivatives;
      }
      if exists i :: 0 <= i < |m.regimes| && td in m.regimes[i].timeDerivatives {
        var i :| 0 <= i < |m.regimes| && td in m.regimes[i].timeDerivatives;
        assert td in tds[i];
      }
    }
    forall a ensures a in m.Aliases() <==> exists i :: 0 <= i < |m.regimes| && a in m.regimes[i].aliases {
      if a in m.Aliases() {
        var i :| 0 <= i < |als| && a in als[i];
        assert a in m.regimes[i].aliases;
      }
      if exists i :: 0 <= i < |m.regimes| && a in m.regimes[i].aliases {
        var i :| 0 <= i < |m.regimes| && a in m.regimes[i].aliases;
        assert a in als[i];
      }
    }
  }

  /** `regime` is a plain name. */
  lemma PlainRegime()
    ensures Namespace.Plain("regime")
  {
    Namespace.EscapePlain("regime");
    Namespace.SplitEscape("regime");
  }

  /** With plain constituent names the composite name splits, on its double
      underscores, back into those names followed by `regime`. */
  lemma MultiRegimeNameParts(m: MultiRegime)
    requires m.regimes != []
    requires forall i :: 0 <= i < |m.regimes| ==> Namespace.Plain(m.regimes[i].name)
    ensures Namespace.Split(m.Name()) == m.Names() + ["regime"]
  {
    var names := m.Names();
    var parts := names + ["regime"];
    JoinSnoc("__", names, "regime");
    assert m.Name() == Join("__", parts);
    PlainRegime();
    forall i | 0 <= i < |parts| ensures Namespace.Plain(parts[i]) {
      if i < |names| {
        assert parts[i] == m.regimes[i].name;
      }
    }
    Namespace.SplitJoin(parts);
  }

  /** Composite regimes whose constituent names are plain and differ
      somewhere have different names. */
  lemma MultiRegimeNamesDiffer(ma: MultiRegime, mb: MultiRegime)
    requires ma.regimes != [] && mb.regimes != []
    requires forall i :: 0 <= i < |ma.regimes| ==> Namespace.Plain(ma.regimes[i].name)
    requires forall i :: 0 <= i < |mb.regimes| ==> Namespace.Plain(mb.regimes[i].name)
    requires ma.Names() != mb.Names()
    ensures ma.Name() != mb.Name()
  {
    MultiRegimeNameParts(ma);
    MultiRegimeNameParts(mb);
    var pa, pb := ma.Names() + ["regime"], mb.Names() + ["regime"];
    assert pa[..|pa| - 1] == ma.Names();
    assert pb[..|pb| - 1] == mb.Names();
  }

  /** The regimes of each sub-component, namespaced. */
  function SubRegimeLists(subs: seq<SubDynamics>): seq<seq<Regime>>
  {
    seq(|subs|, i requires 0 <= i < |subs| => SubRegimes(subs[i]))
  }

  /** `[MultiRegime(*rs) for rs in product(*[c.regimes for c in subs])]`. */
  function MultiRegimes(subs: seq<SubDynamics>): seq<MultiRegime>
  {
    var combos := Product(SubRegimeLists(subs));
    seq(|combos|, i requires 0 <= i < |combos| => MultiRegime(combos[i]))
  }

  /** The product of the sub-components' regime counts. */
  function RegimeCount(subs: seq<SubDynamics>): nat
  {
    if |subs| == 0 then 1 else |subs[0].component.regimes| * RegimeCount(subs[1..])
  }

  lemma {:induction false} SizeProductCount(subs: seq<SubDynamics>)
    ensures SizeProduct(SubRegimeLists(subs)) == RegimeCount(subs)
  {
    if |subs| > 0 {
      SizeProductCount(subs[1..]);
      assert SubRegimeLists(subs)[1..] == SubRegimeLists(subs[1..]);
    }
  }

  /** There is one composite regime per combination of one regime of each
      sub-component, and each one is such a combination. */
  lemma MultiRegimeCount(subs: seq<SubDynamics>)
    ensures |MultiRegimes(subs)| == RegimeCount(subs)
    ensures forall m :: m in MultiRegimes(subs) ==> IsCombination(m.regimes, SubRegimeLists(subs))
    ensures forall t :: IsCombination(t, SubRegimeLists(subs)) ==> MultiRegime(t) in MultiRegimes(subs)
  {
    var lists := SubRegimeLists(subs);
    ProductFacts(lists);
    SizeProductCount(subs);
    var combos := Product(lists);
    forall t | IsCombination(t, lists) ensures MultiRegime(t) in MultiRegimes(subs) {
      var k :| 0 <= k < |combos| && combos[k] == t;
      assert MultiRegimes(subs)[k] == MultiRegime(t);
    }
  }

  /** Regimes of one sub-component with distinct names are distinct once
      namespaced, and keep distinct names. */
  lemma SubRegimesDistinct(s: SubDynamics)
    requires forall j, k :: 0 <= j < k < |s.component.regimes| ==>
               s.component.regimes[j].name != s.component.regimes[k].name
    ensures forall j, k :: 0 <= j < k < |SubRegimes(s)| ==> SubRegimes(s)[j].name != SubRegimes(s)[k].name
    ensures Distinct(SubRegimes(s))
  {
    var rs := SubRegimes(s);
    forall j, k | 0 <= j < k < |rs| ensures rs[j].name != rs[k].name {
      if rs[j].name == rs[k].name {
        InNamespaceSameNamespace(s.component.regimes[j].name, s.component.regimes[k].name, s.name);
      }
    }
  }

  /** Two regimes of one namespaced list with the same name are the same
      regime. */
  lemma SameNameSameRegime(rs: seq<Regime>, x: Regime, y: Regime)
    requires forall j, k :: 0 <= j < k < |rs| ==> rs[j].name != rs[k].name
    requires x in rs && y in rs && x.name == y.name
    ensures x == y
  {
    var j :| 0 <= j < |rs| && rs[j] == x;
    var k :| 0 <= k < |rs| && rs[k] == y;
  }

  /** Inside each sub-component, regime names are distinct. */
  predicate RegimesNamedApart(subs: seq<SubDynamics>)
  {
    forall i :: 0 <= i < |subs| ==>
      forall j, k :: 0 <= j < k < |subs[i].component.regimes| ==>
        subs[i].component.regimes[j].name != subs[i].component.regimes[k].name
  }

  /** Every regime name stays plain once namespaced. */
  predicate RegimesPlain(subs: seq<SubDynamics>)
  {
    forall i :: 0 <= i < |subs| ==>
      forall j :: 0 <= j < |subs[i].component.regimes| ==>
        Namespace.Plain(InNamespace(subs[i].component.regimes[j].name, subs[i].name))
  }

  /** The constituents of a composite regime have plain names. */
  lemma CombinationPlain(subs: seq<SubDynamics>, t: seq<Regime>)
    requires RegimesPlain(subs)
    requires IsCombination(t, SubRegimeLists(subs))
    ensures forall j :: 0 <= j < |t| ==> Namespace.Plain(t[j].name)
  {
    var lists := SubRegimeLists(subs);
    forall j | 0 <= j < |t| ensures Namespace.Plain(t[j].name) {
      assert t[j] in lists[j];
      var k :| 0 <= k < |lists[j]| && lists[j][k] == t[j];
      assert t[j].name == InNamespace(subs[j].component.regimes[k].name, subs[j].name);
    }
  }

  /** Two different combinations differ in the name of some constituent. */
  lemma CombinationNamesDiffer(subs: seq<SubDynamics>, ta: seq<Regime>, tb: seq<Regime>)
    requires RegimesNamedApart(subs)
    requires IsCombination(ta, SubRegimeLists(subs)) && IsCombination(tb, SubRegimeLists(subs))
    requires ta != tb
    ensures MultiRegime(ta).Names() != MultiRegime(tb).Names()
  {
    var lists := SubRegimeLists(subs);
    var i :| 0 <= i < |ta| && ta[i] != tb[i];
    SubRegimesDistinct(subs[i]);
    if ta[i].name == tb[i].name {
      SameNameSameRegime(lists[i], ta[i], tb[i]);
    }
    assert MultiRegime(ta).Names()[i] != MultiRegime(tb).Names()[i];
  }

  /** Composite regimes have pairwise distinct names when, inside each
      sub-component, regime names are distinct and stay plain once
      namespaced. */
  lemma MultiRegimeNamesDistinct(subs: seq<SubDynamics>)
    requires RegimesNamedApart(subs) && RegimesPlain(subs)
    ensures forall a, b :: 0 <= a < b < |MultiRegimes(subs)| ==>
              MultiRegimes(subs)[a].Name() != MultiRegimes(subs)[b].Name()
  {
    var lists: seq<seq<Regime>> := SubRegimeLists(subs);
    forall i: int | 0 <= i < |lists| ensures Distinct(lists[i]) {
      SubRegimesDistinct(subs[i]);
    }
    ProductDistinct(lists);
    ProductFacts(lists);
    var combos: seq<seq<Regime>> := Product(lists);
    var ms := MultiRegimes(subs);
    forall a, b | 0 <= a < b < |ms| ensures ms[a].Name() != ms[b].Name() {
      var ta: seq<Regime>, tb: seq<Regime> := combos[a], combos[b];
      assert ta in combos && tb in combos;
      CombinationNamesDiffer(subs, ta, tb);
      CombinationPlain(subs, ta);
      CombinationPlain(subs, tb);
      MultiRegimeNamesDiffer(ms[a], ms[b]);
    }
  }

  // ---------------------------------------------------------------------
  // Connections
  // ---------------------------------------------------------------------

  /** What a connection argument is: a plain tuple, an analog or an event
      port connection, or anything else; each unpacks into sender id,
      receiver id, send port name and receive port name. */
  datatype ConnTag = TupleTag | AnalogTag | EventTag | OtherTag
  datatype ConnArg = ConnArg(tag: ConnTag, senderId: string, receiverId: string,
                             sendPort: string, receivePort: string)

  datatype LocalKind = LocalAnalog | LocalEvent

  /** A connection between two sub-components of the composite. */
  datatype LocalConnection = LocalConnection(kind: LocalKind, senderId: string, receiverId: string,
                                             sendPort: string, receivePort: string)
  {
    /** `in_namespace(receive_port_name, receiver_id)`. */
    function ReceiveName(): string { InNamespace(receivePort, receiverId) }

    /** `in_namespace(send_port_name, sender_id)`. */
    function SendName(): string { InNamespace(sendPort, senderId) }
  }

  /** The kind of local connection an argument becomes, with the tuple test
      reading the sender's port as an analog send port. */
  function Classify(sender: map<string, Port>, receiver: map<string, Port>, c: ConnArg): (r: Result<LocalKind>)
    ensures r.Ok? ==> r.value == LocalAnalog
    ensures r.Ok? <==> c.tag == AnalogTag ||
                       (c.tag == TupleTag && c.sendPort in sender && sender[c.sendPort].kind == AnalogSend)
    ensures c.tag == EventTag ==> r == Err(NotImplemented)
    ensures c.tag == OtherTag ==> r == Err(RuntimeError)
    ensures c.tag == TupleTag && r.Err? ==> r.error in {NameError, NotImplemented, AssertionFailed}
  {
    match c.tag
    case TupleTag =>
      if c.sendPort !in sender then Err(NameError)
      else if sender[c.sendPort].kind == AnalogSend then Ok(LocalAnalog)
      else if c.receivePort !in receiver then Err(NameError)
      else if receiver[c.receivePort].kind == EventReceive then Err(NotImplemented)
      else Err(AssertionFailed)
    case AnalogTag => Ok(LocalAnalog)
    case EventTag => Err(NotImplemented)
    case OtherTag => Err(RuntimeError)
  }

  /** The same choice as written.  A connection object cannot be unpacked
      into four names, so it raises `TypeError` before the choice is made;
      a tuple is checked for an analog RECEIVE port at the sender; and an
      event tuple is passed, four arguments, to a constructor that takes
      none, which raises `TypeError` rather than the intended
      `NotImplementedError`. */
  function ClassifyAsWritten(sender: map<string, Port>, receiver: map<string, Port>, c: ConnArg): (r: Result<LocalKind>)
    ensures r.Ok? ==> r.value == LocalAnalog
    ensures r.Ok? <==> c.tag == TupleTag && c.sendPort in sender && sender[c.sendPort].kind == AnalogReceive
    ensures c.tag == AnalogTag || c.tag == EventTag ==> r == Err(TypeError)
    ensures c.tag == OtherTag ==> r == Err(RuntimeError)
    ensures c.tag == TupleTag && r.Err? ==> r.error in {NameError, TypeError, AssertionFailed}
    ensures (c.tag == TupleTag && c.sendPort in sender && sender[c.sendPort].kind != AnalogReceive &&
             c.receivePort in receiver && receiver[c.receivePort].kind == EventReceive) ==> r == Err(TypeError)
  {
    match c.tag
    case TupleTag =>
      if c.sendPort !in sender then Err(NameError)
      else if sender[c.sendPort].kind == AnalogReceive then Ok(LocalAnalog)
      else if c.receivePort !in receiver then Err(NameError)
      else if receiver[c.receivePort].kind == EventReceive then Err(TypeError)
      else Err(AssertionFailed)
    case AnalogTag => Err(TypeError)
    case EventTag => Err(TypeError)
    case OtherTag => Err(RuntimeError)
  }

  /** A tuple from an analog send port to an analog receive port fails the
      written test and reaches `assert False`, while the intended test makes
      it an analog connection. */
  lemma ClassifyAsWrittenRefusesSendPort()
    ensures var sender := map["V" := Port(AnalogSend, "V", "voltage", "", false)];
            var receiver := map["v_in" := Port(AnalogReceive, "v_in", "voltage", "", false)];
            var c := ConnArg(TupleTag, "a", "b", "V", "v_in");
            ClassifyAsWritten(sender, receiver, c) == Err(AssertionFailed) &&
            Classify(sender, receiver, c) == Ok(LocalAnalog)
  {
  }

  /** Turns an argument into a local connection: both sub-components must
      exist, the argument must be an analog connection, and the ports must
      exist and be connectable. */
  function Localize(subs: map<string, SubDynamics>, c: ConnArg): (r: Result<LocalConnection>)
    ensures c.senderId !in subs || c.receiverId !in subs ==> r == Err(KeyError)
    ensures r.Ok? ==> r.value == LocalConnection(LocalAnalog, c.senderId, c.receiverId, c.sendPort, c.receivePort)
    ensures r.Ok? ==>
      c.senderId in subs && c.receiverId in subs &&
      c.sendPort in subs[c.senderId].component.ports && c.receivePort in subs[c.receiverId].component.ports &&
      PortConnections.Connectable(PortConnections.Analog, subs[c.senderId].component.ports[c.sendPort],
                                  subs[c.receiverId].component.ports[c.receivePort])
    ensures c.tag == OtherTag && c.senderId in subs && c.receiverId in subs ==> r == Err(RuntimeError)
    ensures c.tag == EventTag && c.senderId in subs && c.receiverId in subs ==> r == Err(NotImplemented)
  {
    if c.senderId !in subs || c.receiverId !in subs then Err(KeyError)
    else
      var sender := subs[c.senderId].component.ports;
      var receiver := subs[c.receiverId].component.ports;
      var kind :- Classify(sender, receiver, c);
      if c.sendPort !in sender || c.receivePort !in receiver then Err(NameError)
      else
        var _ :- PortConnections.CheckPorts(PortConnections.Analog, sender[c.sendPort], receiver[c.receivePort]);
        Ok(LocalConnection(kind, c.senderId, c.receiverId, c.sendPort, c.receivePort))
  }

  /** An event tuple raises `TypeError` as written, and the intended
      `NotImplementedError` otherwise. */
  lemma ClassifyAsWrittenEventTuple()
    ensures var sender := map["spike" := Port(EventSend, "spike", "", "", false)];
            var receiver := map["spike_in" := Port(EventReceive, "spike_in", "", "", false)];
            var c := ConnArg(TupleTag, "a", "b", "spike", "spike_in");
            ClassifyAsWritten(sender, receiver, c) == Err(TypeError) &&
            Classify(sender, receiver, c) == Err(NotImplemented)
  {
  }

  /** The same step as written: a connection object fails to unpack, a
      missing sub-component raises `KeyError`, the choice is made as
      written, and a local connection that is made has no `bind_ports`
      method, so the step raises `AttributeError` (`bind_ports` is defined
      by neither `BasePortConnection` nor its subclasses; `Alias` is not
      part of this model).  It never succeeds. */
  function LocalizeAsWritten(subs: map<string, SubDynamics>, c: ConnArg): (r: Result<LocalConnection>)
    ensures r.Err?
    ensures c.tag == AnalogTag || c.tag == EventTag ==> r == Err(TypeError)
    ensures c.tag !in {AnalogTag, EventTag} && (c.senderId !in subs || c.receiverId !in subs) ==> r == Err(KeyError)
    ensures r == Err(AttributeError) <==>
              c.tag == TupleTag && c.senderId in subs && c.receiverId in subs &&
              c.sendPort in subs[c.senderId].component.ports &&
              subs[c.senderId].component.ports[c.sendPort].kind == AnalogReceive
  {
    if c.tag == AnalogTag || c.tag == EventTag then Err(TypeError)
    else if c.senderId !in subs || c.receiverId !in subs then Err(KeyError)
    else
      var _ :- ClassifyAsWritten(subs[c.senderId].component.ports, subs[c.receiverId].component.ports, c);
      Err(AttributeError)
  }

  /** A well-formed analog connection object between existing, connectable
      ports is made a local connection as intended, and raises `TypeError`
      as written; a tuple naming an analog receive port as sender gets as
      far as `bind_ports`. */
  lemma LocalizeAsWrittenFails()
    ensures var a := SubDynamics("a", Dynamics("A", map["V" := Port(AnalogSend, "V", "voltage", "", false)], [], [], []));
            var b := SubDynamics("b", Dynamics("B", map["v_in" := Port(AnalogReceive, "v_in", "voltage", "", false)], [], [], []));
            var subs := map["a" := a, "b" := b];
            Localize(subs, ConnArg(AnalogTag, "a", "b", "V", "v_in")).Ok? &&
            LocalizeAsWritten(subs, ConnArg(AnalogTag, "a", "b", "V", "v_in")) == Err(TypeError) &&
            LocalizeAsWritten(subs, ConnArg(TupleTag, "b", "a", "v_in", "V")) == Err(AttributeError)
  {
  }

  /** The arguments a `BasePortConnection` receives: the send and receive
      port names and the identities of the two ends. */
  datatype ConnectionArgs = ConnectionArgs(sendPort: string, receivePort: string, sender: PortConnections.Ident, receiver: PortConnections.Ident)

  /** `LocalAnalogPortConnection.__init__` as written passes sender id,
      receiver id, send port name and receive port name positionally, so
      the ids land in the port-name slots and the port names in the role
      slots. */
  function LocalAnalogArgsAsWritten(c: ConnArg): (a: ConnectionArgs)
    ensures PortConnections.Identified(a.sender) && PortConnections.Identified(a.receiver)
    ensures a.sendPort == c.senderId && a.receivePort == c.receiverId
    ensures PortConnections.ConnectionName(a.sender, a.sendPort, a.receiver, a.receivePort) ==
            Join("_", [c.sendPort, c.senderId, c.receivePort, c.receiverId])
  {
    ConnectionArgs(c.senderId, c.receiverId, PortConnections.Ident(Some(c.sendPort), None),
                   PortConnections.Ident(Some(c.receivePort), None))
  }

  /** The arguments as evidently intended: the port names as port names,
      and each end identified by the name of its sub-component. */
  function LocalAnalogArgs(c: ConnArg): (a: ConnectionArgs)
    ensures PortConnections.Identified(a.sender) && PortConnections.Identified(a.receiver)
    ensures a.sendPort == c.sendPort && a.receivePort == c.receivePort
    ensures PortConnections.Key(a.sender) == c.senderId && PortConnections.Key(a.receiver) == c.receiverId
    ensures PortConnections.ConnectionName(a.sender, a.sendPort, a.receiver, a.receivePort) ==
            Join("_", [c.senderId, c.sendPort, c.receiverId, c.receivePort])
  {
    ConnectionArgs(c.sendPort, c.receivePort, PortConnections.Ident(None, Some(c.senderId)),
                   PortConnections.Ident(None, Some(c.receiverId)))
  }

  /** For sub-components `a` and `b` and ports `V` and `v_in`, the written
      arguments give the connection the send port name `a` and the name
      `V_a_v_in_b`; the intended ones give `V` and `a_V_b_v_in`. */
  lemma LocalAnalogArgsSwapped()
    ensures var c := ConnArg(TupleTag, "a", "b", "V", "v_in");
            var w := LocalAnalogArgsAsWritten(c);
            var i := LocalAnalogArgs(c);
            w.sendPort == "a" && i.sendPort == "V" &&
            PortConnections.ConnectionName(w.sender, w.sendPort, w.receiver, w.receivePort) == "V_a_v_in_b" &&
            PortConnections.ConnectionName(i.sender, i.sendPort, i.receiver, i.receivePort) == "a_V_b_v_in"
  {
    var c := ConnArg(TupleTag, "a", "b", "V", "v_in");
    assert Join("_", [c.sendPort, c.senderId, c.receivePort, c.receiverId]) == "V_a_v_in_b" by {
      Namespace.JoinFour("_", "V", "a", "v_in", "b");
    }
    assert Join("_", [c.senderId, c.sendPort, c.receiverId, c.receivePort]) == "a_V_b_v_in" by {
      Namespace.JoinFour("_", "a", "V", "b", "v_in");
    }
  }

  /** The connection maps: one analog connection per receive name, a list of
      event connections per receive name. */
  datatype Book = Book(analog: map<string, LocalConnection>, events: map<string, seq<LocalConnection>>)

  /** Each connection is stored under its own receive name, and the maps
      hold the kind they are for. */
  predicate Keyed(b: Book)
  {
    (forall k :: k in b.analog ==> b.analog[k].ReceiveName() == k && b.analog[k].kind == LocalAnalog) &&
    (forall k, l :: k in b.events && l in b.events[k] ==> l.ReceiveName() == k && l.kind == LocalEvent)
  }

  /** Records one connection under its receive name: a second analog
      connection to a name raises `NineMLRuntimeError`; an event connection
      is appended to the list of its name, which must exist. */
  function RecordOne(b: Book, lc: LocalConnection): Result<Book>
  {
    var k := lc.ReceiveName();
    if lc.kind == LocalAnalog then
      if k in b.analog then Err(RuntimeError) else Ok(Book(b.analog[k := lc], b.events))
    else if k !in b.events then Err(KeyError)
    else Ok(Book(b.analog, b.events[k := b.events[k] + [lc]]))
  }

  /** What recording one connection does, and that it keeps the maps keyed. */
  lemma RecordOneFacts(b: Book, lc: LocalConnection)
    ensures var k := lc.ReceiveName(); var r := RecordOne(b, lc);
      (lc.kind == LocalAnalog ==>
         (r.Ok? <==> k !in b.analog) && (r.Err? ==> r.error == RuntimeError) &&
         (r.Ok? ==> r.value.analog == b.analog[k := lc] && r.value.events == b.events)) &&
      (lc.kind == LocalEvent ==>
         (r.Ok? <==> k in b.events) && (r.Err? ==> r.error == KeyError) &&
         (r.Ok? ==> r.value.analog == b.analog && r.value.events.Keys == b.events.Keys &&
                    r.value.events[k] == b.events[k] + [lc] &&
                    forall k' :: k' in b.events && k' != k ==> r.value.events[k'] == b.events[k']))
    ensures Keyed(b) && RecordOne(b, lc).Ok? ==> Keyed(RecordOne(b, lc).value)
  {
  }

  /** Records connections one after another, stopping at the first error. */
  function RecordAll(b: Book, lcs: seq<LocalConnection>): Result<Book>
    decreases |lcs|
  {
    if lcs == [] then Ok(b)
    else
      var b' :- RecordOne(b, lcs[0]);
      RecordAll(b', lcs[1..])
  }

  /** The event connections to a receive name, in the order given. */
  function EventsTo(lcs: seq<LocalConnection>, k: string): seq<LocalConnection>
  {
    if lcs == [] then []
    else (if lcs[0].kind == LocalEvent && lcs[0].ReceiveName() == k then [lcs[0]] else []) + EventsTo(lcs[1..], k)
  }

  /** Event connections to existing lists are all accepted, however many
      share a receive name, and each list grows by its own connections in
      arrival order. */
  lemma {:induction false} RecordEventsInOrder(b: Book, lcs: seq<LocalConnection>)
    requires forall i :: 0 <= i < |lcs| ==> lcs[i].kind == LocalEvent && lcs[i].ReceiveName() in b.events
    ensures RecordAll(b, lcs).Ok?
    ensures RecordAll(b, lcs).value.analog == b.analog
    ensures RecordAll(b, lcs).value.events.Keys == b.events.Keys
    ensures forall k :: k in b.events ==> RecordAll(b, lcs).value.events[k] == b.events[k] + EventsTo(lcs, k)
    decreases |lcs|
  {
    if lcs != [] {
      RecordEventStep(b, lcs);
      var b' := RecordOne(b, lcs[0]).value;
      RecordEventsInOrder(b', lcs[1..]);
      forall k | k in b.events
        ensures RecordAll(b, lcs).value.events[k] == b.events[k] + EventsTo(lcs, k)
      {
        assert RecordAll(b, lcs).value.events[k] == b'.events[k] + EventsTo(lcs[1..], k);
      }
    }
  }

  /** One step of `RecordEventsInOrder`: the first event connection. */
  lemma RecordEventStep(b: Book, lcs: seq<LocalConnection>)
    requires lcs != [] && lcs[0].kind == LocalEvent && lcs[0].ReceiveName() in b.events
    ensures RecordOne(b, lcs[0]).Ok?
    ensures RecordAll(b, lcs) == RecordAll(RecordOne(b, lcs[0]).value, lcs[1..])
    ensures RecordOne(b, lcs[0]).value.analog == b.analog
    ensures RecordOne(b, lcs[0]).value.events.Keys == b.events.Keys
    ensures forall k :: k in b.events ==>
      RecordOne(b, lcs[0]).value.events[k] + EventsTo(lcs[1..], k) == b.events[k] + EventsTo(lcs, k)
  {
    var lc := lcs[0];
    var k0 := lc.ReceiveName();
    var b' := Book(b.analog, b.events[k0 := b.events[k0] + [lc]]);
    assert RecordOne(b, lc) == Ok(b');
    forall k | k in b.events
      ensures b'.events[k] + EventsTo(lcs[1..], k) == b.events[k] + EventsTo(lcs, k)
    {
      if k == k0 {
        assert EventsTo(lcs, k) == [lc] + EventsTo(lcs[1..], k);
      } else {
        assert EventsTo(lcs, k) == EventsTo(lcs[1..], k);
      }
    }
  }

  /** The receive names of the connection arguments, in order. */
  function ReceiveNames(conns: seq<ConnArg>): seq<string>
  {
    seq(|conns|, i requires 0 <= i < |conns| => InNamespace(conns[i].receivePort, conns[i].receiverId))
  }

  /** The loop over the connection arguments of `MultiDynamics.__init__`:
      each is made a local connection and recorded; the first error stops
      it. */
  function Connect(subs: map<string, SubDynamics>, conns: seq<ConnArg>, b: Book): Result<Book>
    decreases |conns|
  {
    if conns == [] then Ok(b)
    else
      var lc :- Localize(subs, conns[0]);
      var b' :- RecordOne(b, lc);
      Connect(subs, conns[1..], b')
  }

  /** The same loop as written: making the first argument a local
      connection already raises, so the loop never records anything and only
      an empty list of arguments gets through. */
  function ConnectAsWritten(subs: map<string, SubDynamics>, conns: seq<ConnArg>, b: Book): (r: Result<Book>)
    ensures r.Ok? <==> conns == []
    ensures r.Ok? ==> r.value == b
    ensures conns != [] ==> r == Err(LocalizeAsWritten(subs, conns[0]).error)
  {
    if conns == [] then Ok(b) else Err(LocalizeAsWritten(subs, conns[0]).error)
  }

  /** When every argument is a valid analog connection, connecting
      succeeds exactly when no two arguments, and no connection already
      recorded, share a receive name; otherwise it raises
      `NineMLRuntimeError`. */
  lemma {:induction false} ConnectDuplicates(subs: map<string, SubDynamics>, conns: seq<ConnArg>, b: Book)
    requires forall i :: 0 <= i < |conns| ==> Localize(subs, conns[i]).Ok?
    ensures Connect(subs, conns, b).Ok? <==>
              Distinct(ReceiveNames(conns)) && forall k :: k in ReceiveNames(conns) ==> k !in b.analog
    ensures Connect(subs, conns, b).Err? ==> Connect(subs, conns, b).error == RuntimeError
    decreases |conns|
  {
    if conns != [] {
      var lc := Localize(subs, conns[0]).value;
      var k := lc.ReceiveName();
      var rest := ReceiveNames(conns[1..]);
      assert ReceiveNames(conns) == [k] + rest;
      DistinctCons(k, rest);
      if k !in b.analog {
        var b' := Book(b.analog[k := lc], b.events);
        assert RecordOne(b, lc) == Ok(b');
        forall i | 0 <= i < |conns[1..]| ensures Localize(subs, conns[1..][i]).Ok? {
          assert conns[1..][i] == conns[i + 1];
        }
        ConnectDuplicates(subs, conns[1..], b');
      }
    }
  }

  /** Connecting leaves the event lists alone, keeps every analog
      connection already recorded, and keeps a book keyed by receive name
      keyed. */
  lemma {:induction false} ConnectKeeps(subs: map<string, SubDynamics>, conns: seq<ConnArg>, b: Book)
    requires Connect(subs, conns, b).Ok?
    ensures var r := Connect(subs, conns, b).value;
      r.events == b.events &&
      forall k :: k in b.analog ==> k in r.analog && r.analog[k] == b.analog[k]
    ensures Keyed(b) ==> Keyed(Connect(subs, conns, b).value)
    decreases |conns|
  {
    if conns != [] {
      var lc := Localize(subs, conns[0]).value;
      RecordOneFacts(b, lc);
      ConnectKeeps(subs, conns[1..], RecordOne(b, lc).value);
    }
  }

  /** After connecting, every analog connection was either there before
      or is filed under some argument's receive name. */
  lemma {:induction false} ConnectAddsOnly(subs: map<string, SubDynamics>, conns: seq<ConnArg>, b: Book)
    requires Connect(subs, conns, b).Ok?
    ensures var r := Connect(subs, conns, b).value;
      forall k :: k in r.analog ==> k in b.analog || k in ReceiveNames(conns)
    decreases |conns|
  {
    if conns != [] {
      var lc := Localize(subs, conns[0]).value;
      var b' := RecordOne(b, lc).value;
      RecordOneFacts(b, lc);
      ConnectAddsOnly(subs, conns[1..], b');
      var r := Connect(subs, conns, b).value;
      assert ReceiveNames(conns)[0] == lc.ReceiveName();
      forall k | k in r.analog ensures k in b.analog || k in ReceiveNames(conns) {
        if k !in b.analog && k != lc.ReceiveName() {
          var j :| 0 <= j < |ReceiveNames(conns[1..])| && ReceiveNames(conns[1..])[j] == k;
          assert ReceiveNames(conns)[j + 1] == k;
        }
      }
    }
  }

  /** After connecting, the analog map holds each argument's connection
      under its receive name. */
  lemma {:induction false} ConnectRecords(subs: map<string, SubDynamics>, conns: seq<ConnArg>, b: Book)
    requires Connect(subs, conns, b).Ok?
    ensures var r := Connect(subs, conns, b).value;
      forall i :: 0 <= i < |conns| ==>
         var c := conns[i];
         InNamespace(c.receivePort, c.receiverId) in r.analog &&
         r.analog[InNamespace(c.receivePort, c.receiverId)] ==
           LocalConnection(LocalAnalog, c.senderId, c.receiverId, c.sendPort, c.receivePort)
    decreases |conns|
  {
    if conns != [] {
      var lc := Localize(subs, conns[0]).value;
      var b' := RecordOne(b, lc).value;
      RecordOneFacts(b, lc);
      ConnectRecords(subs, conns[1..], b');
      ConnectKeeps(subs, conns[1..], b');
      var r := Connect(subs, conns, b).value;
      forall i | 0 <= i < |conns|
        ensures InNamespace(conns[i].receivePort, conns[i].receiverId) in r.analog
        ensures r.analog[InNamespace(conns[i].receivePort, conns[i].receiverId)] ==
                LocalConnection(LocalAnalog, conns[i].senderId, conns[i].receiverId, conns[i].sendPort, conns[i].receivePort)
      {
        if i > 0 {
          assert conns[1..][i - 1] == conns[i];
        }
      }
    }
  }

  /** The loop of `MultiDynamics.__init__` over its connection arguments. */
  method ConnectAll(subs: map<string, SubDynamics>, conns: seq<ConnArg>, b0: Book) returns (r: Result<Book>)
    ensures r == Connect(subs, conns, b0)
  {
    var book := b0;
    var i := 0;
    while i < |conns|
      invariant 0 <= i <= |conns|
      invariant Connect(subs, conns, b0) == Connect(subs, conns[i..], book)
    {
      assert conns[i..][1..] == conns[i + 1..];
      var lc := Localize(subs, conns[i]);
      if lc.Err? {
        return Err(lc.error);
      }
      var next := RecordOne(book, lc.value);
      if next.Err? {
        return Err(next.error);
      }
      book := next.value;
      i := i + 1;
    }
    assert conns[i..] == [];
    r := Ok(book);
  }

  // ---------------------------------------------------------------------
  // The empty connection lists
  // ---------------------------------------------------------------------

  /** The namespaced names of a sub-component's ports of one kind. */
  function SubPortKeys(s: SubDynamics, kind: PortKind): set<string>
  {
    set n | n in s.component.ports && s.component.ports[n].kind == kind :: InNamespace(s.component.ports[n].name, s.name)
  }

  /** The namespaced names of all the sub-components' ports of one kind. */
  function PortKeys(subs: seq<SubDynamics>, kind: PortKind): set<string>
  {
    if subs == [] then {} else PortKeys(subs[..|subs| - 1], kind) + SubPortKeys(subs[|subs| - 1], kind)
  }

  /** A name is a port key exactly when some sub-component has a port of
      that kind whose namespaced name it is. */
  lemma {:induction false} PortKeysMembers(subs: seq<SubDynamics>, kind: PortKind, k: string)
    ensures k in PortKeys(subs, kind) <==> exists i :: 0 <= i < |subs| && k in SubPortKeys(subs[i], kind)
    decreases |subs|
  {
    if subs != [] {
      var init := subs[..|subs| - 1];
      PortKeysMembers(init, kind, k);
      if k in PortKeys(init, kind) {
        var i :| 0 <= i < |init| && k in SubPortKeys(init[i], kind);
        assert subs[i] == init[i];
      }
      if exists i :: 0 <= i < |subs| && k in SubPortKeys(subs[i], kind) {
        var i :| 0 <= i < |subs| && k in SubPortKeys(subs[i], kind);
        if i < |subs| - 1 {
          assert init[i] == subs[i];
        }
      }
    }
  }

  /** An empty connection list under every namespaced port name of a kind. */
  function EmptyLists(subs: seq<SubDynamics>, kind: PortKind): map<string, seq<LocalConnection>>
  {
    map k | k in PortKeys(subs, kind) :: []
  }

  /** The loop that gives every event receive and reduce port of every
      sub-component an empty connection list under its namespaced name. */
  method InitConnectionLists(subs: seq<SubDynamics>)
    returns (events: map<string, seq<LocalConnection>>, reduces: map<string, seq<LocalConnection>>)
    ensures events == EmptyLists(subs, EventReceive)
    ensures reduces == EmptyLists(subs, AnalogReduce)
  {
    events := map[];
    reduces := map[];
    for i := 0 to |subs|
      invariant events == EmptyLists(subs[..i], EventReceive)
      invariant reduces == EmptyLists(subs[..i], AnalogReduce)
    {
      assert subs[..i + 1][..i] == subs[..i];
      events := events + map k | k in SubPortKeys(subs[i], EventReceive) :: [];
      reduces := reduces + map k | k in SubPortKeys(subs[i], AnalogReduce) :: [];
    }
    assert subs[..|subs|] == subs;
  }

  /** The list initialisation as written: it asks each `SubDynamics` for
      `event_receive_ports`, which that class does not define, so the
      constructor raises `AttributeError` at the first sub-component. */
  function InitConnectionListsAsWritten(subs: seq<SubDynamics>): (r: Result<(map<string, seq<LocalConnection>>, map<string, seq<LocalConnection>>)>)
    ensures r.Ok? <==> subs == []
    ensures r.Err? ==> r.error == AttributeError
    ensures r.Ok? ==> r.value.0 == EmptyLists(subs, EventReceive) && r.value.1 == EmptyLists(subs, AnalogReduce)
  {
    if subs == [] then Ok((map[], map[])) else Err(AttributeError)
  }

  /** A sub-component with an event receive port `spike` gets an empty list
      under `spike_cell` as intended, and makes the written code raise. */
  lemma InitAsWrittenFails()
    ensures var s := SubDynamics("cell", Dynamics("C", map["spike" := Port(EventReceive, "spike", "", "", false)], [], [], []));
            InitConnectionListsAsWritten([s]) == Err(AttributeError) &&
            EmptyLists([s], EventReceive) == map[InNamespace("spike", "cell") := []]
  {
    var s := SubDynamics("cell", Dynamics("C", map["spike" := Port(EventReceive, "spike", "", "", false)], [], [], []));
    assert [s][..0] == [];
    assert s.component.ports["spike"].name == "spike";
    assert InNamespace("spike", "cell") in SubPortKeys(s, EventReceive);
    assert forall k :: k in SubPortKeys(s, EventReceive) ==> k == InNamespace("spike", "cell");
    assert SubPortKeys(s, EventReceive) == {InNamespace("spike", "cell")};
  }

  // ---------------------------------------------------------------------
  // Aliases from connections
  // ---------------------------------------------------------------------

  /** One alias per direct analog connection: the receive name is set to the
      send name. */
  function AnalogAliases(analog: map<string, LocalConnection>): map<string, Expr>
  {
    map k | k in analog :: Sym(analog[k].SendName())
  }

  /** Each recorded analog connection yields the alias
      `receive_name := Symbol(send_name)`. */
  lemma AnalogAliasFacts(b: Book)
    requires Keyed(b)
    ensures AnalogAliases(b.analog).Keys == b.analog.Keys
    ensures forall lc :: lc in b.analog.Values ==>
              lc.ReceiveName() in AnalogAliases(b.analog) &&
              AnalogAliases(b.analog)[lc.ReceiveName()] == Sym(lc.SendName())
  {
    forall lc | lc in b.analog.Values
      ensures lc.ReceiveName() in AnalogAliases(b.analog)
      ensures AnalogAliases(b.analog)[lc.ReceiveName()] == Sym(lc.SendName())
    {
      var k :| k in b.analog && b.analog[k] == lc;
    }
  }

  /** The send names of a list of connections. */
  function SendNames(lcs: seq<LocalConnection>): seq<string>
  {
    seq(|lcs|, i requires 0 <= i < |lcs| => lcs[i].SendName())
  }

  /** `rhs = 0; for each sender: rhs += Symbol(send_name)`. */
  method ReduceRhs(senders: seq<LocalConnection>) returns (rhs: Expr)
    ensures rhs == SumOf(SendNames(senders))
    ensures forall x :: x in FreeSymbols(rhs) <==> exists l :: l in senders && l.SendName() == x
    ensures senders == [] ==> rhs == Num(0)
  {
    rhs := Num(0);
    for i := 0 to |senders|
      invariant rhs == SumOf(SendNames(senders[..i]))
    {
      assert SendNames(senders[..i + 1])[..i] == SendNames(senders[..i]);
      rhs := Bin("+", rhs, Sym(senders[i].SendName()));
    }
    assert senders[..|senders|] == senders;
    SumOfFree(SendNames(senders));
    forall x ensures x in FreeSymbols(rhs) <==> exists l :: l in senders && l.SendName() == x {
      if x in SendNames(senders) {
        var j :| 0 <= j < |senders| && SendNames(senders)[j] == x;
        assert senders[j] in senders;
      }
      if exists l :: l in senders && l.SendName() == x {
        var l :| l in senders && l.SendName() == x;
        var j :| 0 <= j < |senders| && senders[j] == l;
        assert SendNames(senders)[j] == x;
      }
    }
  }

  /** The reduce aliases: under each reduce name, the sum of its senders. */
  method ReduceAliases(reduces: map<string, seq<LocalConnection>>) returns (aliases: map<string, Expr>)
    ensures aliases.Keys == reduces.Keys
    ensures forall k :: k in reduces ==> aliases[k] == SumOf(SendNames(reduces[k]))
  {
    aliases := map[];
    var todo := reduces.Keys;
    while todo != {}
      invariant todo <= reduces.Keys
      invariant aliases.Keys == reduces.Keys - todo
      invariant forall k :: k in aliases ==> aliases[k] == SumOf(SendNames(reduces[k]))
      decreases |todo|
    {
      var k :| k in todo;
      var rhs := ReduceRhs(reduces[k]);
      aliases := aliases[k := rhs];
      todo := todo - {k};
    }
  }

  /** The two alias loops as written: each key of the connection maps is a
      namespaced string, which is unpacked as the pair `(rcv_id, port_name)`
      (so a key of any length but two raises `ValueError`, and one of
      length two is split into its two characters), and each connection is
      read for `send_id`, which connections do not have (`AttributeError`).
      Only maps whose keys are all two characters long and whose lists are
      all empty get through, each key giving an alias to zero. */
  method RemapAsWritten(conns: map<string, seq<LocalConnection>>) returns (r: Result<map<string, Expr>>)
    ensures r.Ok? <==> forall k :: k in conns ==> |k| == 2 && conns[k] == []
    ensures r.Err? ==> r.error in {ValueError, AttributeError}
    ensures (forall k :: k in conns ==> conns[k] == []) && r.Err? ==> r.error == ValueError
    ensures (forall k :: k in conns ==> |k| == 2) && r.Err? ==> r.error == AttributeError
    ensures r.Ok? ==> forall k :: k in conns ==>
              InNamespace([k[1]], [k[0]]) in r.value && r.value[InNamespace([k[1]], [k[0]])] == Num(0)
  {
    var aliases := map[];
    var todo := conns.Keys;
    while todo != {}
      invariant todo <= conns.Keys
      invariant forall k :: k in conns.Keys - todo ==> |k| == 2 && conns[k] == []
      invariant forall k :: k in conns.Keys - todo ==>
                  InNamespace([k[1]], [k[0]]) in aliases && aliases[InNamespace([k[1]], [k[0]])] == Num(0)
      decreases |todo|
    {
      var k :| k in todo;
      if |k| != 2 {
        return Err(ValueError);
      }
      if conns[k] != [] {
        return Err(AttributeError);
      }
      aliases := aliases[InNamespace([k[1]], [k[0]]) := Num(0)];
      todo := todo - {k};
    }
    return Ok(aliases);
  }

  /** A reduce port with a non-empty name in a sub-component with a
      non-empty name has a key in the reduce map that is not two characters
      long, so building the composite as written raises `ValueError`. */
  lemma ReduceKeyNotPair(subs: seq<SubDynamics>, i: nat, n: string)
    requires 0 <= i < |subs| && subs[i].name != ""
    requires n in subs[i].component.ports && subs[i].component.ports[n].kind == AnalogReduce
    requires subs[i].component.ports[n].name != ""
    ensures var k := InNamespace(subs[i].component.ports[n].name, subs[i].name);
            k in EmptyLists(subs, AnalogReduce) && |k| != 2
  {
    var k := InNamespace(subs[i].component.ports[n].name, subs[i].name);
    assert k in SubPortKeys(subs[i], AnalogReduce);
    PortKeysMembers(subs, AnalogReduce, k);
  }

  // ---------------------------------------------------------------------
  // The composite
  // ---------------------------------------------------------------------

  /** What `MultiDynamics(name, sub_components, port_exposures,
      port_connections)` builds. */
  datatype Composite = Composite(
    name: string,
    subComponents: map<string, SubDynamics>,
    analogConnections: map<string, LocalConnection>,
    eventConnections: map<string, seq<LocalConnection>>,
    reduceConnections: map<string, seq<LocalConnection>>,
    regimes: seq<MultiRegime>,
    aliases: seq<AliasDef>,
    analogAliases: map<string, Expr>,
    reduceAliases: map<string, Expr>,
    stateVariables: seq<string>)

  /** The connections of a composite, recorded from empty maps. */
  function Connected(subs: seq<SubDynamics>, conns: seq<ConnArg>): Result<Book>
  {
    Connect(SubsByName(subs), conns, Book(map[], EmptyLists(subs, EventReceive)))
  }

  /** `MultiDynamics.__init__`: connection errors first, then any port
      exposure raises `NotImplementedError`. */
  method NewMultiDynamics(name: string, subs: seq<SubDynamics>, exposures: seq<string>, conns: seq<ConnArg>)
    returns (r: Result<Composite>)
    ensures Connected(subs, conns).Err? ==> r == Err(Connected(subs, conns).error)
    ensures Connected(subs, conns).Ok? && exposures != [] ==> r == Err(NotImplemented)
    ensures r.Ok? <==> Connected(subs, conns).Ok? && exposures == []
    ensures r.Ok? ==>
      r.value.name == name && r.value.subComponents == SubsByName(subs) &&
      r.value.analogConnections == Connected(subs, conns).value.analog &&
      r.value.eventConnections == EmptyLists(subs, EventReceive) &&
      r.value.reduceConnections == EmptyLists(subs, AnalogReduce) &&
      r.value.regimes == MultiRegimes(subs) &&
      r.value.aliases == Chain(seq(|subs|, i requires 0 <= i < |subs| => SubAliases(subs[i]))) &&
      r.value.analogAliases == AnalogAliases(r.value.analogConnections) &&
      r.value.reduceAliases.Keys == PortKeys(subs, AnalogReduce) &&
      (forall k :: k in r.value.reduceAliases ==> r.value.reduceAliases[k] == Num(0)) &&
      r.value.stateVariables == Chain(seq(|subs|, i requires 0 <= i < |subs| => SubStateVariables(subs[i])))
  {
    var byName := SubsByName(subs);
    var events, reduces := InitConnectionLists(subs);
    var book := ConnectAll(byName, conns, Book(map[], events));
    if book.Err? {
      return Err(book.error);
    }
    ConnectKeeps(byName, conns, Book(map[], events));
    var regimes := MultiRegimes(subs);
    var aliases := Chain(seq(|subs|, i requires 0 <= i < |subs| => SubAliases(subs[i])));
    var analogAliases := AnalogAliases(book.value.analog);
    var reduceAliases := ReduceAliases(reduces);
    if exposures != [] {
      return Err(NotImplemented);
    }
    var stateVariables := Chain(seq(|subs|, i requires 0 <= i < |subs| => SubStateVariables(subs[i])));
    r := Ok(Composite(name, byName, book.value.analog, book.value.events, reduces, regimes, aliases,
                      analogAliases, reduceAliases, stateVariables));
  }

  /** In a built composite, every connection argument is an analog
      connection between existing, connectable ports, no two arguments share
      a receive port, and each argument's alias sets its namespaced receive
      port to its namespaced send port. */
  lemma CompositeConnections(subs: seq<SubDynamics>, conns: seq<ConnArg>)
    requires Connected(subs, conns).Ok?
    ensures Distinct(ReceiveNames(conns))
    ensures var b := Connected(subs, conns).value;
      forall i :: 0 <= i < |conns| ==>
        var c := conns[i];
        InNamespace(c.receivePort, c.receiverId) in AnalogAliases(b.analog) &&
        AnalogAliases(b.analog)[InNamespace(c.receivePort, c.receiverId)] == Sym(InNamespace(c.sendPort, c.senderId))
    ensures forall i :: 0 <= i < |conns| ==> Localize(SubsByName(subs), conns[i]).Ok?
  {
    var b0 := Book(map[], EmptyLists(subs, EventReceive));
    ConnectLocalizes(SubsByName(subs), conns, b0);
    ConnectDuplicates(SubsByName(subs), conns, b0);
    ConnectRecords(SubsByName(subs), conns, b0);
  }

  /** A successful connect made a local connection of every argument. */
  lemma {:induction false} ConnectLocalizes(subs: map<string, SubDynamics>, conns: seq<ConnArg>, b: Book)
    requires Connect(subs, conns, b).Ok?
    ensures forall i :: 0 <= i < |conns| ==> Localize(subs, conns[i]).Ok?
    decreases |conns|
  {
    if conns != [] {
      var b' := RecordOne(b, Localize(subs, conns[0]).value).value;
      ConnectLocalizes(subs, conns[1..], b');
      forall i | 0 < i < |conns| ensures Localize(subs, conns[i]).Ok? {
        assert conns[1..][i - 1] == conns[i];
      }
    }
  }
}
