/** Port exposures of a multi-component dynamics: a port of a sub-component
    made a port of the whole, under a name of its own, with the alias that
    links the exposed name to the namespaced name inside. */
module PortExposures {
  import opened Wrappers
  import opened Strings
  import opened Expressions
  import opened Ports
  import opened Namespace

  /** `AnalogReducePortExposure.SUFFIX`. */
  const ReduceSuffix: string := "__reduce"

  /** `_default_name()`: the port name namespaced by the sub-component, with
      `'__reduce'` appended for a reduce port. */
  function DefaultName(kind: PortKind, subComponent: string, portName: string): string
  {
    var base := AppendNamespace(portName, subComponent);
    if kind == AnalogReduce then base + ReduceSuffix else base
  }

  /** The default name of a non-reduce exposure splits back into the port
      name and the sub-component. */
  lemma DefaultNameSplits(kind: PortKind, subComponent: string, portName: string)
    requires kind != AnalogReduce
    requires !EndsWithUnderscore(portName) && !StartsWithUnderscore(subComponent)
    ensures SplitNamespace(DefaultName(kind, subComponent, portName)) == (portName, subComponent)
  {
    SplitAppendRoundTrip(portName, subComponent);
  }

  /** A reduce exposure's default name is the non-reduce one namespaced once
      more, by `reduce`, and splits off only that. */
  lemma ReduceDefaultNameSplits(subComponent: string, portName: string)
    requires !EndsWithUnderscore(portName)
    requires subComponent != [] && !StartsWithUnderscore(subComponent) && !EndsWithUnderscore(subComponent)
    ensures DefaultName(AnalogReduce, subComponent, portName) == AppendNamespace(AppendNamespace(portName, subComponent), "reduce")
    ensures SplitNamespace(DefaultName(AnalogReduce, subComponent, portName)) == (AppendNamespace(portName, subComponent), "reduce")
  {
    ReduceSuffixNamespaces(AppendNamespace(portName, subComponent));
    NestedSplitsOutermost(portName, subComponent, "reduce");
  }

  /** Appending `'__reduce'` is namespacing by `reduce`. */
  lemma ReduceSuffixNamespaces(base: string)
    ensures base + ReduceSuffix == AppendNamespace(base, "reduce")
  {
    EscapePlain("reduce");
    assert base + "__" + "reduce" == base + ReduceSuffix;
  }

  /** A sub-component's component class, as its ports by name. */
  type ComponentClass = map<string, Port>

  /** The multi-dynamics an exposure is bound to: its sub-components'
      component classes by sub-component name. */
  type Parent = map<string, ComponentClass>

  /** The alias of an analog exposure. */
  datatype Alias = Alias(lhs: string, rhs: Expr)

  /** The alias of an analog exposure: a send exposure sets the exposed name
      from the namespaced port inside; a receive or reduce exposure sets the
      namespaced port inside from the exposed name.  Event exposures have
      none. */
  function ExposureAlias(kind: PortKind, name: string, subComponent: string, portName: string): Option<Alias>
  {
    match kind
    case AnalogSend => Some(Alias(name, Sym(AppendNamespace(portName, subComponent))))
    case AnalogReceive => Some(Alias(AppendNamespace(portName, subComponent), Sym(name)))
    case AnalogReduce => Some(Alias(AppendNamespace(portName, subComponent), Sym(name)))
    case _ => None
  }

  /** The two directions of the alias: what one side assigns, the other
      reads, and only analog exposures have an alias. */
  lemma AliasDirection(kind: PortKind, name: string, subComponent: string, portName: string)
    ensures ExposureAlias(kind, name, subComponent, portName).Some? <==> IsAnalog(kind)
    ensures kind == AnalogSend ==>
      var a := ExposureAlias(kind, name, subComponent, portName).value;
      a.lhs == name && FreeSymbols(a.rhs) == {AppendNamespace(portName, subComponent)}
    ensures kind == AnalogReceive || kind == AnalogReduce ==>
      var a := ExposureAlias(kind, name, subComponent, portName).value;
      a.lhs == AppendNamespace(portName, subComponent) && FreeSymbols(a.rhs) == {name}
  {
  }

  /** `lhs_name_transform_inplace` of an analog exposure always raises. */
  function RenameAliasLhs(kind: PortKind): (r: Result<()>)
    requires IsAnalog(kind)
    ensures r == Err(ImmutableError)
  {
    Err(ImmutableError)
  }

  class PortExposure {
    /** Which of the five exposure classes this is: the kind of port it
        exposes. */
    const kind: PortKind
    const subComponentName: string
    const portName: string
    const name: string
    var parent: Option<Parent>

    constructor (kind: PortKind, subComponentName: string, portName: string, name: string)
      ensures this.kind == kind && this.subComponentName == subComponentName
      ensures this.portName == portName && this.name == name
      ensures parent == None
    {
      this.kind := kind;
      this.subComponentName := subComponentName;
      this.portName := portName;
      this.name := name;
      parent := None;
    }

    /** `local_port_name`: the port's namespaced name inside, whatever the
        exposure is called. */
    function LocalPortName(): (r: string)
      ensures !EndsWithUnderscore(portName) && !StartsWithUnderscore(subComponentName) ==>
                SplitNamespace(r) == (portName, subComponentName)
    {
      if !EndsWithUnderscore(portName) && !StartsWithUnderscore(subComponentName) then
        SplitAppendRoundTrip(portName, subComponentName);
        AppendNamespace(portName, subComponentName)
      else AppendNamespace(portName, subComponentName)
    }

    /** `sub_component`: raises `NineMLNotBoundException` until bound and
        `NineMLTargetMissingError` when the sub-component has gone. */
    function SubComponent(): (r: Result<ComponentClass>)
      reads this
      ensures parent.None? ==> r == Err(NotBound)
      ensures parent.Some? ==> (r.Ok? <==> subComponentName in parent.value)
      ensures parent.Some? && r.Err? ==> r.error == TargetMissing
      ensures r.Ok? ==> r.value == parent.value[subComponentName]
    {
      if parent.None? then Err(NotBound)
      else if subComponentName !in parent.value then Err(TargetMissing)
      else Ok(parent.value[subComponentName])
    }

    /** `port`: the exposed port, with the same errors, and
        `NineMLTargetMissingError` when the port has gone. */
    function Port(): (r: Result<Port>)
      reads this
      ensures parent.None? ==> r == Err(NotBound)
      ensures r.Ok? <==> parent.Some? && subComponentName in parent.value &&
                         portName in parent.value[subComponentName]
      ensures parent.Some? && r.Err? ==> r.error == TargetMissing
      ensures r.Ok? ==> r.value == parent.value[subComponentName][portName]
    {
      var sub :- SubComponent();
      if portName !in sub then Err(TargetMissing) else Ok(sub[portName])
    }

    /** `dimension` of an analog exposure: that of the exposed port. */
    function Dimension(): (r: Result<string>)
      reads this
      requires IsAnalog(kind)
      ensures r.Ok? <==> Port().Ok?
      ensures r.Ok? ==> r.value == Port().value.dimension
    {
      var p :- Port();
      Ok(p.dimension)
    }

    /** `operator` of a reduce exposure: that of the exposed port. */
    function Operator(): (r: Result<string>)
      reads this
      requires kind == AnalogReduce
      ensures r.Ok? <==> Port().Ok?
      ensures r.Ok? ==> r.value == Port().value.reduceOp
    {
      var p :- Port();
      Ok(p.reduceOp)
    }

    /** `alias`, which needs the sub-component and so raises until bound. */
    function AliasOf(): (r: Result<Alias>)
      reads this
      requires IsAnalog(kind)
      ensures r.Ok? <==> SubComponent().Ok?
      ensures r.Ok? ==> Some(r.value) == ExposureAlias(kind, name, subComponentName, portName)
    {
      var _ :- SubComponent();
      Ok(ExposureAlias(kind, name, subComponentName, portName).value)
    }

    /** `bind(container)`: sets the parent, then looks the port up, which
        raises when it is missing; the parent stays set either way. */
    method Bind(container: Parent) returns (r: Result<()>)
      modifies this
      ensures parent == Some(container)
      ensures r.Ok? <==> subComponentName in container && portName in container[subComponentName]
      ensures r.Err? ==> r.error == TargetMissing
      ensures r.Ok? ==> Port() == Ok(container[subComponentName][portName])
    {
      parent := Some(container);
      var p := Port();
      if p.Err? {
        return Err(p.error);
      }
      r := Ok(());
    }
  }

  /** The exposure's constructor: the given name, or the default one, must be
      a valid identifier. */
  method NewPortExposure(kind: PortKind, subComponentName: string, portName: string, name: Option<string>)
    returns (r: Result<PortExposure>)
    ensures var n := if name.Some? then name.value else DefaultName(kind, subComponentName, portName);
      (r.Ok? <==> ValidIdentifier(n)) && (r.Ok? ==> r.value.name == n)
    ensures r.Err? ==> r.error == UsageError
    ensures r.Ok? ==> fresh(r.value) && r.value.parent == None && r.value.kind == kind
    ensures r.Ok? ==> r.value.subComponentName == subComponentName && r.value.portName == portName
  {
    var n := if name.Some? then name.value else DefaultName(kind, subComponentName, portName);
    if !ValidIdentifier(n) {
      return Err(UsageError);
    }
    var e := new PortExposure(kind, subComponentName, portName, n);
    r := Ok(e);
  }

  /** Without an explicit name, a non-reduce exposure is named after its
      local port name. */
  lemma DefaultNameIsLocal(kind: PortKind, subComponentName: string, portName: string)
    requires kind != AnalogReduce
    ensures DefaultName(kind, subComponentName, portName) == AppendNamespace(portName, subComponentName)
  {
  }

  /** `from_port(port, component_name, name)`: the exposure class matching
      the port's kind, exposing the port under its own name. */
  method FromPort(port: Port, componentName: string, name: Option<string>) returns (r: Result<PortExposure>)
    ensures var n := if name.Some? then name.value else DefaultName(port.kind, componentName, port.name);
      (r.Ok? <==> ValidIdentifier(n)) && (r.Ok? ==> r.value.name == n)
    ensures r.Ok? ==> fresh(r.value) && r.value.kind == port.kind && r.value.parent == None
    ensures r.Ok? ==> r.value.portName == port.name && r.value.subComponentName == componentName
  {
    r := NewPortExposure(port.kind, componentName, port.name, name);
  }

  /** `from_tuple((component_name, port_name[, name]), container)`: looks
      the port up in the container's sub-component first. */
  method FromTuple(container: Parent, componentName: string, portName: string, name: Option<string>)
    returns (r: Result<PortExposure>)
    ensures componentName !in container || portName !in container[componentName] ==> r == Err(NameError)
    ensures r.Ok? ==> componentName in container && portName in container[componentName]
    ensures r.Ok? ==> fresh(r.value) && r.value.kind == container[componentName][portName].kind
    ensures r.Ok? ==> r.value.portName == container[componentName][portName].name
  {
    if componentName !in container || portName !in container[componentName] {
      return Err(NameError);
    }
    r := FromPort(container[componentName][portName], componentName, name);
  }

  /** An output event of the multi-dynamics standing for an event send
      exposure: its port is the exposure, and its port name and key are the
      exposure's name. */
  datatype ExposedOutputEvent = ExposedOutputEvent(exposure: PortExposure)
  {
    function PortName(): string
    {
      exposure.name
    }

    function Key(): string
    {
      PortName()
    }

    function Port(): PortExposure
    {
      exposure
    }
  }
}
