/** Multi-component and multi-compartment containers
    (nineml/user/multicomponent.py; `MultiCompartment`, `Tree` and `Mapping`
    are repeated verbatim in nineml/user/multi_dynamics.py).  Constructor
    arguments are Python values, so the `isinstance` checks of the source are
    modelled over a small universe of dynamic values. */
module MultiComponents {
  import opened Wrappers
  import opened Strings

  /** The Python values an argument may hold, as far as the type tests see. */
  datatype PyValue = PyInt(i: int) | PyStr(s: string) | PyOther

  // ---------------------------------------------------------------------
  // Storage by name (`dict((x.name, x) for x in items)`, see Strings.ByKey)

  /** A sub-component: its name, the dynamics it holds (by name) and the
      number of port connections it carries. */
  datatype SubComponent = SubComponent(name: string, dynamics: string, connections: nat)

  /** A port exposure: its name and the component and port it exposes. */
  datatype PortExposure = PortExposure(name: string, component: string, port: string)

  datatype MultiComponent = MultiComponent(name: string,
                                           subcomponents: map<string, SubComponent>,
                                           portExposures: map<string, PortExposure>)

  /** `MultiComponent.__init__`. */
  function NewMultiComponent(name: string, cs: seq<SubComponent>, es: seq<PortExposure>): MultiComponent
  {
    MultiComponent(name, ByKey(cs, (c: SubComponent) => c.name), ByKey(es, (e: PortExposure) => e.name))
  }

  /** `subcomponent(name)`: a dictionary lookup, `KeyError` when absent. */
  function SubComponentNamed(mc: MultiComponent, name: string): Result<SubComponent>
  {
    if name in mc.subcomponents then Ok(mc.subcomponents[name]) else Err(KeyError)
  }

  /** `port_exposure(name)`: a dictionary lookup, `KeyError` when absent. */
  function PortExposureNamed(mc: MultiComponent, name: string): Result<PortExposure>
  {
    if name in mc.portExposures then Ok(mc.portExposures[name]) else Err(KeyError)
  }

  /** A constructed multi-component finds exactly the sub-component names it
      was given; under a repeated name it holds the last one. */
  lemma NewSubComponentLookup(name: string, cs: seq<SubComponent>, es: seq<PortExposure>, n: string)
    ensures SubComponentNamed(NewMultiComponent(name, cs, es), n).Ok? <==> exists i :: 0 <= i < |cs| && cs[i].name == n
    ensures forall i :: 0 <= i < |cs| && cs[i].name == n && (forall j :: i < j < |cs| ==> cs[j].name != n) ==>
              SubComponentNamed(NewMultiComponent(name, cs, es), n) == Ok(cs[i])
  {
    var key := (c: SubComponent) => c.name;
    forall i | 0 <= i < |cs| && cs[i].name == n && (forall j :: i < j < |cs| ==> cs[j].name != n)
      ensures ByKey(cs, key)[n] == cs[i]
    {
      ByKeyLast(cs, key, i);
    }
  }

  /** The same for port exposures. */
  lemma NewPortExposureLookup(name: string, cs: seq<SubComponent>, es: seq<PortExposure>, n: string)
    ensures PortExposureNamed(NewMultiComponent(name, cs, es), n).Ok? <==> exists i :: 0 <= i < |es| && es[i].name == n
    ensures forall i :: 0 <= i < |es| && es[i].name == n && (forall j :: i < j < |es| ==> es[j].name != n) ==>
              PortExposureNamed(NewMultiComponent(name, cs, es), n) == Ok(es[i])
  {
    var key := (e: PortExposure) => e.name;
    forall i | 0 <= i < |es| && es[i].name == n && (forall j :: i < j < |es| ==> es[j].name != n)
      ensures ByKey(es, key)[n] == es[i]
    {
      ByKeyLast(es, key, i);
    }
  }

  // ---------------------------------------------------------------------
  // Tree and Mapping

  /** `Tree`: the compartments' parent indices. */
  datatype Tree = Tree(indices: seq<int>)

  function Ints(vs: seq<PyValue>): (r: seq<int>)
    requires forall k :: 0 <= k < |vs| ==> vs[k].PyInt?
    ensures |r| == |vs| && forall k :: 0 <= k < |vs| ==> r[k] == vs[k].i
  {
    seq(|vs|, k requires 0 <= k < |vs| && vs[k].PyInt? => vs[k].i)
  }

  /** `Tree.__init__`: any index that is not an int is rejected. */
  function NewTree(indices: seq<PyValue>): (r: Result<Tree>)
    ensures r.Ok? <==> forall k :: 0 <= k < |indices| ==> indices[k].PyInt?
    ensures r.Ok? ==> |r.value.indices| == |indices| &&
                      forall k :: 0 <= k < |indices| ==> indices[k] == PyInt(r.value.indices[k])
    ensures r.Err? ==> r.error == RuntimeError
  {
    if exists k :: 0 <= k < |indices| && !indices[k].PyInt? then Err(RuntimeError)
    else Ok(Tree(Ints(indices)))
  }

  /** `Mapping`: domain names by key, and each compartment's key. */
  datatype Mapping = Mapping(keys: map<int, string>, indices: seq<int>)

  /** `Mapping.__init__`: the keys must all be ints, then every index must be
      one of the keys. */
  function NewMapping(keys: map<PyValue, string>, indices: seq<PyValue>): (r: Result<Mapping>)
    ensures r.Ok? <==> (forall k :: k in keys ==> k.PyInt?) &&
                       (forall k :: 0 <= k < |indices| ==> indices[k] in keys)
    ensures r.Ok? ==> |r.value.indices| == |indices| &&
                      (forall k :: 0 <= k < |indices| ==> indices[k] == PyInt(r.value.indices[k])) &&
                      (forall i :: i in r.value.keys <==> PyInt(i) in keys) &&
                      (forall i :: i in r.value.keys ==> r.value.keys[i] == keys[PyInt(i)])
    ensures r.Err? ==> r.error == RuntimeError
  {
    if exists k :: k in keys && !k.PyInt? then Err(RuntimeError)
    else if exists k :: 0 <= k < |indices| && indices[k] !in keys then Err(RuntimeError)
    else
      var ks := map k | k in keys :: k.i := keys[k];
      assert forall i :: i in ks ==> PyInt(i) in keys;
      Ok(Mapping(ks, Ints(indices)))
  }

  /** Every index of a mapping is one of its keys. */
  predicate ValidMapping(m: Mapping)
  {
    forall k :: 0 <= k < |m.indices| ==> m.indices[k] in m.keys
  }

  /** Python list indexing: a negative position counts from the end. */
  function ListIndex<T>(s: seq<T>, index: int): Result<T>
  {
    if 0 <= index < |s| then Ok(s[index])
    else if -|s| <= index < 0 then Ok(s[index + |s|])
    else Err(IndexError)
  }

  /** `Mapping.domain_name`: the name of the domain compartment `index`
      belongs to. */
  function DomainName(m: Mapping, index: int): Result<string>
  {
    var key :- ListIndex(m.indices, index);
    if key in m.keys then Ok(m.keys[key]) else Err(KeyError)
  }

  /** A constructed mapping is valid. */
  lemma NewMappingValid(keys: map<PyValue, string>, indices: seq<PyValue>)
    requires NewMapping(keys, indices).Ok?
    ensures ValidMapping(NewMapping(keys, indices).value)
  {
    var m := NewMapping(keys, indices).value;
    forall k | 0 <= k < |m.indices|
      ensures m.indices[k] in m.keys
    {
      assert indices[k] == PyInt(m.indices[k]);
    }
  }

  /** On a valid mapping, `domain_name` is defined at every position, counted
      from either end, and names the domain of that position's key; any other
      position is an `IndexError`. */
  lemma DomainNameDefined(m: Mapping, index: int)
    requires ValidMapping(m)
    ensures var n := |m.indices|;
            (DomainName(m, index).Ok? <==> -n <= index < n) &&
            (0 <= index < n ==> DomainName(m, index) == Ok(m.keys[m.indices[index]])) &&
            (-n <= index < 0 ==> DomainName(m, index) == DomainName(m, index + n)) &&
            (DomainName(m, index).Err? ==> DomainName(m, index).error == IndexError)
  {
  }

  // ---------------------------------------------------------------------
  // MultiCompartment

  /** A domain is a sub-component found by name. */
  type Domain = SubComponent

  /** What `MultiCompartment.__init__` may be handed as its tree: a `Tree`,
      something iterable, or neither (then no tree is stored at all). */
  datatype TreeArgument = GivenTree(tree: Tree) | Iterable(items: seq<PyValue>) | NotIterable

  datatype MultiCompartment = MultiCompartment(name: string, tree: Option<Tree>, mapping: Mapping,
                                               domains: map<string, Domain>)

  /** `MultiCompartment.__init__`: domains are stored by name and a list of
      indices is turned into a `Tree`, which may reject it. */
  function NewMultiCompartment(name: string, tree: TreeArgument, mapping: Mapping,
                               ds: seq<Domain>): (r: Result<MultiCompartment>)
    ensures r.Ok? <==> !tree.Iterable? || NewTree(tree.items).Ok?
    ensures r.Err? ==> r.error == RuntimeError
    ensures r.Ok? ==> r.value.mapping == mapping && r.value.domains == ByKey(ds, (d: Domain) => d.name) &&
                      r.value.tree == match tree
                                      case GivenTree(t) => Some(t)
                                      case Iterable(items) => Some(NewTree(items).value)
                                      case NotIterable => None
  {
    var domains := ByKey(ds, (d: Domain) => d.name);
    match tree
    case GivenTree(t) => Ok(MultiCompartment(name, Some(t), mapping, domains))
    case Iterable(items) =>
      var t :- NewTree(items);
      Ok(MultiCompartment(name, Some(t), mapping, domains))
    case NotIterable => Ok(MultiCompartment(name, None, mapping, domains))
  }

  /** The `tree` property: the tree's indices, or `AttributeError` when no
      tree was stored. */
  function TreeIndices(mc: MultiCompartment): (r: Result<seq<int>>)
    ensures r.Ok? <==> mc.tree.Some?
    ensures r.Err? ==> r.error == AttributeError
  {
    match mc.tree
    case Some(t) => Ok(t.indices)
    case None => Err(AttributeError)
  }

  /** `MultiCompartment.domain`: an int is a compartment index resolved
      through the mapping, a string is a domain name, anything else is
      rejected; the name is then looked up among the domains. */
  function DomainOf(mc: MultiCompartment, nameOrIndex: PyValue): Result<Domain>
  {
    var name :- match nameOrIndex
                case PyInt(i) => DomainName(mc.mapping, i)
                case PyStr(s) => Ok(s)
                case PyOther => Err(RuntimeError);
    if name in mc.domains then Ok(mc.domains[name]) else Err(KeyError)
  }

  /** Looking a domain up by compartment index is looking it up by the name
      the mapping gives that compartment; values that are neither int nor
      string are rejected with `RuntimeError`. */
  lemma DomainOfMeaning(mc: MultiCompartment, v: PyValue)
    requires ValidMapping(mc.mapping)
    ensures v.PyOther? ==> DomainOf(mc, v) == Err(RuntimeError)
    ensures v.PyStr? ==> (DomainOf(mc, v).Ok? <==> v.s in mc.domains)
    ensures v.PyStr? && v.s in mc.domains ==> DomainOf(mc, v) == Ok(mc.domains[v.s])
    ensures v.PyInt? && 0 <= v.i < |mc.mapping.indices| ==>
              DomainOf(mc, v) == DomainOf(mc, PyStr(mc.mapping.keys[mc.mapping.indices[v.i]]))
    ensures v.PyInt? && !(-|mc.mapping.indices| <= v.i < |mc.mapping.indices|) ==>
              DomainOf(mc, v) == Err(IndexError)
  {
    if v.PyInt? {
      DomainNameDefined(mc.mapping, v.i);
    }
  }

  /** When every key of the mapping names a domain, every compartment of the
      mapping has a domain. */
  lemma EveryCompartmentHasDomain(mc: MultiCompartment, i: int)
    requires ValidMapping(mc.mapping)
    requires forall k :: k in mc.mapping.keys ==> mc.mapping.keys[k] in mc.domains
    requires -|mc.mapping.indices| <= i < |mc.mapping.indices|
    ensures DomainOf(mc, PyInt(i)).Ok?
  {
    DomainNameDefined(mc.mapping, i);
  }
}
