/** Selections of populations (nineml/user/selection.py): a selection
    concatenates populations and presents the ports they have in common.
    Populations are modelled by what the selection reads of them; the
    population class itself (nineml/user/population.py) is not part of this
    model. */
module Selections {
  import opened Wrappers
  import opened Ports
  import opened Indexed
  import Strings

  /** A population: its name, its key, its size and its ports by name. */
  datatype Population = Population(name: string, key: string, size: nat, ports: map<string, Port>)

  /** The per-kind port accessors a population offers (`port`, `send_port`,
      ..., `analog_reduce_port`) and the matching `..._ports` properties. */
  datatype Accessor = AnyPort | SendPort | ReceivePort | EventSendPort | EventReceivePort
                    | AnalogSendPort | AnalogReceivePort | AnalogReducePort

  predicate Admits(acc: Accessor, k: PortKind)
  {
    match acc
    case AnyPort => true
    case SendPort => IsSend(k)
    case ReceivePort => IsIncoming(k)
    case EventSendPort => k == EventSend
    case EventReceivePort => k == EventReceive
    case AnalogSendPort => k == AnalogSend
    case AnalogReceivePort => k == AnalogReceive
    case AnalogReducePort => k == AnalogReduce
  }

  /** A population's port of the accessor's kind, or `NameError`. */
  function PopulationPort(p: Population, acc: Accessor, name: string): Result<Port>
  {
    if name in p.ports && Admits(acc, p.ports[name].kind) then Ok(p.ports[name]) else Err(NameError)
  }

  /** A population's ports of the accessor's kind. */
  function PopulationPorts(p: Population, acc: Accessor): set<Port>
  {
    set n | n in p.ports && Admits(acc, p.ports[n].kind) :: p.ports[n]
  }

  /** The list comprehension of `combined_port_accessor`: every population's
      port, failing with `NameError` at the first population without it. */
  function PortOfEach(pops: seq<Population>, acc: Accessor, name: string): (r: Result<seq<Port>>)
    ensures r.Ok? <==> forall i :: 0 <= i < |pops| ==> PopulationPort(pops[i], acc, name).Ok?
    ensures r.Ok? ==> |r.value| == |pops| &&
                      forall i :: 0 <= i < |pops| ==> r.value[i] == PopulationPort(pops[i], acc, name).value
    ensures r.Err? ==> r.error == NameError
  {
    if pops == [] then Ok([])
    else
      var first :- PopulationPort(pops[0], acc, name);
      var rest :- PortOfEach(pops[1..], acc, name);
      Ok([first] + rest)
  }

  /** `combined_port_accessor`: the port every population has, provided all
      their copies are equal. */
  function CombinedPort(pops: seq<Population>, acc: Accessor, name: string): (r: Result<Port>)
    ensures r.Ok? <==> pops != [] && forall i :: 0 <= i < |pops| ==> PopulationPort(pops[i], acc, name) == PopulationPort(pops[0], acc, name) && PopulationPort(pops[i], acc, name).Ok?
    ensures r.Ok? ==> forall i :: 0 <= i < |pops| ==> PopulationPort(pops[i], acc, name) == Ok(r.value)
    ensures r.Err? ==> r.error == (if pops == [] && PortOfEach(pops, acc, name).Ok? then IndexError else NameError)
  {
    var ports :- PortOfEach(pops, acc, name);
    if ports == [] then Err(IndexError)
    else if exists i :: 0 <= i < |ports| && ports[i] != ports[0] then Err(NameError)
    else Ok(ports[0])
  }

  /** `reduce(and_, ...)` over the populations' port sets, left to right;
      with no population there is nothing to reduce (`TypeError`). */
  function CombinedPorts(pops: seq<Population>, acc: Accessor): (r: Result<set<Port>>)
    ensures r.Err? <==> pops == []
    ensures r.Err? ==> r.error == TypeError
    ensures r.Ok? ==> forall p :: p in r.value <==> forall i :: 0 <= i < |pops| ==> p in PopulationPorts(pops[i], acc)
  {
    if pops == [] then Err(TypeError)
    else if |pops| == 1 then Ok(PopulationPorts(pops[0], acc))
    else
      var init := CombinedPorts(pops[..|pops| - 1], acc);
      Ok(init.value * PopulationPorts(pops[|pops| - 1], acc))
  }

  /** A port in the combined set is what the combined accessor returns for
      its name, when every population keys its ports by name. */
  lemma CombinedPortsAgree(pops: seq<Population>, acc: Accessor, p: Port)
    requires forall i :: 0 <= i < |pops| ==> KeyedByName(pops[i].ports)
    requires CombinedPorts(pops, acc).Ok? && p in CombinedPorts(pops, acc).value
    ensures CombinedPort(pops, acc, p.name) == Ok(p)
  {
    forall i | 0 <= i < |pops|
      ensures PopulationPort(pops[i], acc, p.name) == Ok(p)
    {
      assert p in PopulationPorts(pops[i], acc);
    }
  }

  /** The `..._port_names` properties: the names of the combined ports. */
  function CombinedPortNames(pops: seq<Population>, acc: Accessor): (r: Result<set<string>>)
    ensures r.Err? <==> pops == []
    ensures r.Ok? ==> forall n :: n in r.value <==> exists p :: p in CombinedPorts(pops, acc).value && p.name == n
  {
    var ports :- CombinedPorts(pops, acc);
    Ok(set p | p in ports :: p.name)
  }

  /** The `num_..._ports` properties as intended: how many ports the
      accessor's own combined set holds. */
  function NumCombinedPorts(pops: seq<Population>, acc: Accessor): Result<nat>
  {
    var ports :- CombinedPorts(pops, acc);
    Ok(|ports|)
  }

  /** The accessor whose ports each `num_..._ports` property counts as
      written: `num_analog_receive_ports` counts the reduce ports and
      `num_event_send_ports` the event receive ports. */
  function CountedAsWritten(acc: Accessor): Accessor
  {
    match acc
    case AnalogReceivePort => AnalogReducePort
    case EventSendPort => EventReceivePort
    case _ => acc
  }

  function NumCombinedPortsAsWritten(pops: seq<Population>, acc: Accessor): Result<nat>
  {
    NumCombinedPorts(pops, CountedAsWritten(acc))
  }

  /** Distinct combined ports carry distinct names when every population
      keys its ports by name. */
  lemma CombinedNamesInjective(pops: seq<Population>, acc: Accessor, p: Port, q: Port)
    requires forall i :: 0 <= i < |pops| ==> KeyedByName(pops[i].ports)
    requires CombinedPorts(pops, acc).Ok?
    requires p in CombinedPorts(pops, acc).value && q in CombinedPorts(pops, acc).value
    requires p.name == q.name
    ensures p == q
  {
    assert p in PopulationPorts(pops[0], acc);
    assert q in PopulationPorts(pops[0], acc);
  }

  /** A set of ports and the set of their names have the same size when no
      two of the ports share a name. */
  lemma {:induction false} NamesCardinality(ports: set<Port>)
    requires forall p, q :: p in ports && q in ports && p.name == q.name ==> p == q
    ensures |set p | p in ports :: p.name| == |ports|
    decreases |ports|
  {
    if ports != {} {
      var p :| p in ports;
      var rest := ports - {p};
      NamesCardinality(rest);
      var names := set x | x in ports :: x.name;
      var restNames := set x | x in rest :: x.name;
      assert p.name !in restNames;
      assert names == restNames + {p.name};
    }
  }

  /** As intended, each `num_..._ports` property is the number of names the
      matching `..._port_names` property yields. */
  lemma NumCombinedPortsCountsNames(pops: seq<Population>, acc: Accessor)
    requires forall i :: 0 <= i < |pops| ==> KeyedByName(pops[i].ports)
    ensures NumCombinedPorts(pops, acc).Ok? <==> CombinedPortNames(pops, acc).Ok?
    ensures NumCombinedPorts(pops, acc).Ok? ==>
              NumCombinedPorts(pops, acc).value == |CombinedPortNames(pops, acc).value|
  {
    if pops != [] {
      var ports := CombinedPorts(pops, acc).value;
      forall p, q | p in ports && q in ports && p.name == q.name
        ensures p == q
      {
        CombinedNamesInjective(pops, acc, p, q);
      }
      NamesCardinality(ports);
    }
  }

  /** As written, a selection of one population whose only port is an
      analog receive port `I` reports no analog receive port, while
      `analog_receive_port_names` lists `I`. */
  lemma NumAnalogReceiveAsWrittenMiscounts()
    ensures var pop := Population("p", "p", 1, map["I" := Port(AnalogReceive, "I", "current", "", false)]);
            NumCombinedPortsAsWritten([pop], AnalogReceivePort) == Ok(0) &&
            CombinedPortNames([pop], AnalogReceivePort) == Ok({"I"})
  {
    var port := Port(AnalogReceive, "I", "current", "", false);
    var pop := Population("p", "p", 1, map["I" := port]);
    assert pop.ports["I"] == port;
    assert port in PopulationPorts(pop, AnalogReceivePort);
    assert PopulationPorts(pop, AnalogReducePort) == {};
    assert PopulationPorts(pop, AnalogReceivePort) == {port};
    assert (set p | p in {port} :: p.name) == {"I"};
    assert CombinedPortNames([pop], AnalogReceivePort).value == {"I"};
  }

  /** As written, a selection of one population whose only port is an event
      send port `spike` reports no event send port, while
      `event_send_port_names` lists `spike`. */
  lemma NumEventSendAsWrittenMiscounts()
    ensures var pop := Population("p", "p", 1, map["spike" := Port(EventSend, "spike", "", "", false)]);
            NumCombinedPortsAsWritten([pop], EventSendPort) == Ok(0) &&
            CombinedPortNames([pop], EventSendPort) == Ok({"spike"})
  {
    var port := Port(EventSend, "spike", "", "", false);
    var pop := Population("p", "p", 1, map["spike" := port]);
    assert pop.ports["spike"] == port;
    assert port in PopulationPorts(pop, EventSendPort);
    assert PopulationPorts(pop, EventReceivePort) == {};
    assert PopulationPorts(pop, EventSendPort) == {port};
    assert (set p | p in {port} :: p.name) == {"spike"};
    assert CombinedPortNames([pop], EventSendPort).value == {"spike"};
  }

  /** The sum of the populations' sizes. */
  function Size(pops: seq<Population>): nat
  {
    if pops == [] then 0 else Size(pops[..|pops| - 1]) + pops[|pops| - 1].size
  }

  /** Sizes add up over concatenated populations. */
  lemma {:induction false} SizeAppend(a: seq<Population>, b: seq<Population>)
    ensures Size(a + b) == Size(a) + Size(b)
    decreases |b|
  {
    if b != [] {
      assert (a + b)[..|a + b| - 1] == a + b[..|b| - 1];
      assert (a + b)[|a + b| - 1] == b[|b| - 1];
      SizeAppend(a, b[..|b| - 1]);
      assert Size(a + b) == Size(a + b[..|b| - 1]) + b[|b| - 1].size;
    } else {
      assert a + b == a;
    }
  }

  /** Every population counts towards the size. */
  lemma {:induction false} SizeCovers(pops: seq<Population>, i: nat)
    requires i < |pops|
    ensures pops[i].size <= Size(pops)
    decreases |pops|
  {
    if i < |pops| - 1 {
      SizeCovers(pops[..|pops| - 1], i);
    }
  }

  /** `Concatenate`: an ordered list of populations. */
  datatype Concatenate = Concatenate(items: seq<Population>)

  /** `Selection`: a named concatenation. */
  datatype Selection = Selection(name: string, operation: Concatenate)

  function Populations(s: Selection): seq<Population>
  {
    s.operation.items
  }

  function SelectionSize(s: Selection): nat
  {
    Size(Populations(s))
  }

  function Keys(items: seq<Population>): (ks: seq<string>)
    ensures |ks| == |items|
    ensures forall i :: 0 <= i < |items| ==> ks[i] == items[i].key
  {
    if items == [] then [] else [items[0].key] + Keys(items[1..])
  }

  /** `Concatenate.key`: the first ten items' keys joined by '_'. */
  function ConcatenateKey(c: Concatenate): string
  {
    var shown := if |c.items| <= 10 then c.items else c.items[..10];
    Strings.Join("_", Keys(shown))
  }

  /** The key names the first ten items, recoverable by splitting on '_'
      when their keys hold no '_'; items after the tenth do not affect it. */
  lemma ConcatenateKeyMeaning(c: Concatenate, extra: seq<Population>)
    requires c.items != []
    requires forall i :: 0 <= i < |c.items| ==> '_' !in c.items[i].key
    ensures var n := if |c.items| <= 10 then |c.items| else 10;
            Strings.SplitOn(ConcatenateKey(c), '_') == Keys(c.items[..n])
    ensures |c.items| >= 10 ==> ConcatenateKey(Concatenate(c.items + extra)) == ConcatenateKey(c)
  {
    var n := if |c.items| <= 10 then |c.items| else 10;
    assert (if |c.items| <= 10 then c.items else c.items[..10]) == c.items[..n];
    Strings.SplitOnJoin(Keys(c.items[..n]), '_');
    if |c.items| >= 10 {
      var all := c.items + extra;
      assert all[..10] == c.items[..10];
      if |c.items| == 10 {
        assert c.items[..10] == c.items;
      }
      if |all| <= 10 {
        assert all == c.items;
      }
    }
  }

  /** Index validation of `Concatenate.from_xml`: the items, sorted by their
      `index` attribute, must carry distinct indices running from 0 to n-1. */
  function ConcatenateFromIndexed(items: seq<(int, Population)>): (r: Result<Concatenate>)
    ensures r.Err? ==> r.error == ValueError
  {
    if items == [] then Err(ValueError)
    else
      var sorted := SortByIndex(items);
      var indices := Indices(sorted);
      if DistinctCount(indices) != |indices| then Err(ValueError)
      else if indices[0] != 0 then Err(ValueError)
      else if indices[|indices| - 1] != |indices| - 1 then Err(ValueError)
      else Ok(Concatenate(Payloads(sorted)))
  }

  /** The items are accepted exactly when their indices are 0..n-1, each
      once, and then every item sits at its own index. */
  lemma ConcatenateFromIndexedMeaning(items: seq<(int, Population)>)
    ensures ConcatenateFromIndexed(items).Ok? <==> items != [] && IsIndexPermutation(Indices(items))
    ensures ConcatenateFromIndexed(items).Ok? ==>
              var out := ConcatenateFromIndexed(items).value.items;
              |out| == |items| &&
              forall k :: 0 <= k < |items| ==> 0 <= items[k].0 < |out| && out[items[k].0] == items[k].1
  {
    if items != [] {
      DistinctCountFull(Indices(SortByIndex(items)));
      SortedIndexCheck(items);
    }
  }
}
