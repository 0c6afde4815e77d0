/** User-layer components (nineml/user_layer/components/base.py): a component
    names a component class either directly, through a `Definition`, or by
    taking another component as its `Prototype`, whose properties it inherits
    and may override.  References are resolved when they are built, so a
    reference holds the object it refers to. */
module Components {
  import opened Wrappers

  /** A property or initial value: a value and its unit. */
  datatype Property = Property(value: real, units: string)

  /** A component class, as far as components see it: its name and the
      names of its parameters. */
  datatype ComponentClass = ComponentClass(name: string, parameters: set<string>)

  /** `Definition` refers to a component class, `Prototype` to a component. */
  datatype Definition = Definition(componentClass: ComponentClass) | Prototype(component: Component)

  datatype Component = Component(name: string, definition: Definition,
                                 localProperties: map<string, Property>,
                                 initialValues: map<string, Property>)

  // ---------------------------------------------------------------------
  // The prototype chain

  /** The component class a definition leads to. */
  function ClassOfDefinition(d: Definition): ComponentClass
    decreases d
  {
    match d
    case Definition(cls) => cls
    case Prototype(p) => ClassOfDefinition(p.definition)
  }

  function ClassOf(c: Component): ComponentClass
  {
    ClassOfDefinition(c.definition)
  }

  /** The component, its prototype, the prototype's prototype, and so on. */
  function Chain(c: Component): (s: seq<Component>)
    ensures s != [] && s[0] == c
    decreases c
  {
    match c.definition
    case Definition(_) => [c]
    case Prototype(p) => [c] + Chain(p)
  }

  /** Each link of the chain is the prototype of the one before it, only the
      last one has a `Definition`, and its component class is the one every
      component along the chain has. */
  lemma {:induction false} ChainMeaning(c: Component)
    ensures forall i :: 0 <= i < |Chain(c)| - 1 ==> Chain(c)[i].definition == Prototype(Chain(c)[i + 1])
    ensures Chain(c)[|Chain(c)| - 1].definition.Definition?
    ensures forall i :: 0 <= i < |Chain(c)| ==> ClassOf(Chain(c)[i]) == ClassOf(c)
    ensures ClassOf(c) == Chain(c)[|Chain(c)| - 1].definition.componentClass
    decreases c
  {
    match c.definition
    case Definition(_) =>
    case Prototype(p) =>
      ChainMeaning(p);
      var s := Chain(c);
      assert s == [c] + Chain(p);
      assert forall i :: 1 <= i < |s| ==> s[i] == Chain(p)[i - 1];
  }

  /** `component_class`: walk from definition to prototype's definition until
      a `Definition` is reached. */
  method ComponentClassOf(c: Component) returns (cls: ComponentClass)
    ensures cls == ClassOf(c)
  {
    var defn := c.definition;
    while !defn.Definition?
      invariant ClassOfDefinition(defn) == ClassOf(c)
      decreases defn
    {
      defn := defn.component.definition;
    }
    cls := defn.componentClass;
  }

  // ---------------------------------------------------------------------
  // Properties

  /** `properties`: the prototype's properties, updated with the local ones. */
  function Properties(c: Component): map<string, Property>
    decreases c
  {
    match c.definition
    case Definition(_) => c.localProperties
    case Prototype(p) => Properties(p) + c.localProperties
  }

  /** A local property overrides the prototype's; every other property comes
      from the prototype. */
  lemma PropertiesOverride(c: Component, name: string)
    ensures name in c.localProperties ==> name in Properties(c) && Properties(c)[name] == c.localProperties[name]
    ensures name !in c.localProperties && c.definition.Prototype? ==>
              (name in Properties(c) <==> name in Properties(c.definition.component)) &&
              (name in Properties(c) ==> Properties(c)[name] == Properties(c.definition.component)[name])
    ensures name !in c.localProperties && c.definition.Definition? ==> name !in Properties(c)
  {
  }

  /** The property names of a component are the local names of every
      component along its prototype chain. */
  lemma {:induction false} PropertyNamesAlongChain(c: Component, name: string)
    ensures name in Properties(c) <==> exists i :: 0 <= i < |Chain(c)| && name in Chain(c)[i].localProperties
    decreases c
  {
    var s := Chain(c);
    match c.definition
    case Definition(_) =>
      assert s == [c];
      if name in c.localProperties {
        assert name in s[0].localProperties;
      }
    case Prototype(p) =>
      PropertyNamesAlongChain(p, name);
      assert s == [c] + Chain(p);
      assert Properties(c) == Properties(p) + c.localProperties;
      if name in c.localProperties {
        assert name in Chain(c)[0].localProperties;
        assert name in Properties(c);
      } else if name in Properties(p) {
        var i :| 0 <= i < |Chain(p)| && name in Chain(p)[i].localProperties;
        assert s[i + 1] == Chain(p)[i];
        assert name in Chain(c)[i + 1].localProperties;
        assert name in Properties(c);
      } else {
        forall i | 0 <= i < |s|
          ensures name !in s[i].localProperties
        {
          if i > 0 {
            assert s[i] == Chain(p)[i - 1];
          }
        }
      }
  }

  /** The value of a property comes from the first component along the
      prototype chain that sets it locally. */
  lemma {:induction false} PropertyValueAlongChain(c: Component, name: string, i: nat)
    requires i < |Chain(c)| && name in Chain(c)[i].localProperties
    requires forall j :: 0 <= j < i ==> name !in Chain(c)[j].localProperties
    ensures name in Properties(c) && Properties(c)[name] == Chain(c)[i].localProperties[name]
    decreases c
  {
    match c.definition
    case Definition(_) =>
    case Prototype(p) =>
      assert Properties(c) == Properties(p) + c.localProperties;
      var s := Chain(c);
      assert s == [c] + Chain(p);
      if i > 0 {
        assert name !in s[0].localProperties;
        forall j | 0 <= j < i - 1
          ensures name !in Chain(p)[j].localProperties
        {
          assert Chain(p)[j] == s[j + 1];
        }
        assert Chain(p)[i - 1] == s[i];
        PropertyValueAlongChain(p, name, i - 1);
      }
  }

  // ---------------------------------------------------------------------
  // Checking properties against the component class

  /** A line of the `check_properties` message. */
  datatype Complaint = NotInDefinition(names: set<string>) | NotInProperties(names: set<string>)

  /** The lines of the `check_properties` message: first the properties the
      component class has no parameter for, then the parameters no property
      is given for; a line appears only when its set is not empty. */
  function Complaints(c: Component): seq<Complaint>
  {
    var properties := Properties(c).Keys;
    var parameters := ClassOf(c).parameters;
    (if properties - parameters != {} then [NotInDefinition(properties - parameters)] else []) +
    (if parameters - properties != {} then [NotInProperties(parameters - properties)] else [])
  }

  /** `check_properties`: raises when there is anything to complain about. */
  function CheckProperties(c: Component): Result<()>
  {
    if Complaints(c) == [] then Ok(()) else Err(PlainException)
  }

  /** `check_properties` passes exactly when the property names are the parameter
      names; otherwise every name on one side only is reported, on the line
      for its side. */
  lemma CheckPropertiesMeaning(c: Component, n: string)
    ensures CheckProperties(c).Ok? <==> Properties(c).Keys == ClassOf(c).parameters
    ensures CheckProperties(c).Err? ==> CheckProperties(c).error == PlainException
    ensures n in Properties(c) && n !in ClassOf(c).parameters ==>
              exists k :: 0 <= k < |Complaints(c)| && Complaints(c)[k].NotInDefinition? && n in Complaints(c)[k].names
    ensures n !in Properties(c) && n in ClassOf(c).parameters ==>
              exists k :: 0 <= k < |Complaints(c)| && Complaints(c)[k].NotInProperties? && n in Complaints(c)[k].names
    ensures forall k :: 0 <= k < |Complaints(c)| ==>
              forall m :: m in Complaints(c)[k].names ==>
                (m in Properties(c) <==> Complaints(c)[k].NotInDefinition?) &&
                (m in ClassOf(c).parameters <==> Complaints(c)[k].NotInProperties?)
  {
    var properties := Properties(c).Keys;
    var parameters := ClassOf(c).parameters;
    if properties != parameters {
      var m :| (m in properties && m !in parameters) || (m !in properties && m in parameters);
      if m in properties {
        assert m in properties - parameters;
      } else {
        assert m in parameters - properties;
      }
    }
    if n in Properties(c) && n !in parameters {
      assert n in properties - parameters;
      assert Complaints(c)[0] == NotInDefinition(properties - parameters);
    }
    if n !in Properties(c) && n in parameters {
      assert n in parameters - properties;
      var k := |Complaints(c)| - 1;
      assert Complaints(c)[k] == NotInProperties(parameters - properties);
    }
  }

  // ---------------------------------------------------------------------
  // Construction

  /** What `BaseComponent.__init__` may be handed as its definition. */
  datatype DefinitionArgument = GivenDefinition(definition: Definition) | NotADefinition

  /** What it may be handed as properties or initial values: the matching set
      class, a plain dict, or anything else. */
  datatype SetArgument = GivenSet(set_: map<string, Property>) | GivenDict(dict: map<string, Property>) | NotASet

  function Entries(arg: SetArgument): map<string, Property>
    requires !arg.NotASet?
  {
    if arg.GivenSet? then arg.set_ else arg.dict
  }

  /** `BaseComponent.__init__`: the definition must be a `Definition` or a
      `Prototype` (`ValueError`), the properties and the initial values a set
      or a dict (`TypeError`), and the properties must then pass
      `check_properties`. */
  function NewComponent(name: string, definition: DefinitionArgument,
                        properties: SetArgument, initialValues: SetArgument): (r: Result<Component>)
    ensures definition.NotADefinition? ==> r == Err(ValueError)
    ensures definition.GivenDefinition? && (properties.NotASet? || initialValues.NotASet?) ==> r == Err(TypeError)
    ensures definition.GivenDefinition? && !properties.NotASet? && !initialValues.NotASet? ==>
              var c := Component(name, definition.definition, Entries(properties), Entries(initialValues));
              (r.Ok? <==> Properties(c).Keys == ClassOf(c).parameters) &&
              (r.Ok? ==> r.value == c) &&
              (r.Err? ==> r.error == PlainException)
  {
    if definition.NotADefinition? then Err(ValueError)
    else if properties.NotASet? then Err(TypeError)
    else if initialValues.NotASet? then Err(TypeError)
    else
      var c := Component(name, definition.definition, Entries(properties), Entries(initialValues));
      CheckPropertiesMeaning(c, "");
      if CheckProperties(c).Err? then Err(PlainException) else Ok(c)
  }

  // ---------------------------------------------------------------------
  // Comparison

  /** `__eq__`: same name, same component class, same properties. */
  predicate Equal(a: Component, b: Component)
  {
    a.name == b.name && ClassOf(a) == ClassOf(b) && Properties(a) == Properties(b)
  }

  /** A line of `diff`. */
  datatype Difference = NameDiffers | DefinitionDiffers | PropertiesDiffer

  /** `diff`: one line for each of name, definition and properties that
      differ, in that order. */
  function Diff(a: Component, b: Component): seq<Difference>
  {
    (if a.name != b.name then [NameDiffers] else []) +
    (if a.definition != b.definition then [DefinitionDiffers] else []) +
    (if Properties(a) != Properties(b) then [PropertiesDiffer] else [])
  }

  /** The diff is empty exactly when name, definition and properties all
      agree; then the components are equal, and the diff is symmetric. */
  lemma DiffMeaning(a: Component, b: Component)
    ensures Diff(a, b) == [] <==> a.name == b.name && a.definition == b.definition && Properties(a) == Properties(b)
    ensures Diff(a, b) == [] ==> Equal(a, b)
    ensures Diff(a, b) == Diff(b, a)
    ensures NameDiffers in Diff(a, b) <==> a.name != b.name
    ensures PropertiesDiffer in Diff(a, b) <==> Properties(a) != Properties(b)
  {
  }

  /** Equal components need not have an empty diff: two prototypes leading to
      the same class with the same properties differ in definition only. */
  lemma EqualWithoutEmptyDiff()
    ensures var cls := ComponentClass("C", {});
            var base := Component("base", Definition(cls), map[], map[]);
            var a := Component("x", Definition(cls), map[], map[]);
            var b := Component("x", Prototype(base), map[], map[]);
            Equal(a, b) && Diff(a, b) == [DefinitionDiffers]
  {
    var cls := ComponentClass("C", {});
    var base := Component("base", Definition(cls), map[], map[]);
    var a := Component("x", Definition(cls), map[], map[]);
    var b := Component("x", Prototype(base), map[], map[]);
    assert Properties(base) == map[];
    assert Properties(b) == map[];
    assert Properties(a) == map[];
  }
}
