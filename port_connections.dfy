/** Port connections between the components of a container: each end names
    its component by role or by name, the connection is bound to the
    components and their ports, and the ports are checked for kind and
    dimension. */
module PortConnections {
  import opened Wrappers
  import opened Strings
  import opened Ports
  import opened Namespace

  /** `AnalogPortConnection` or `EventPortConnection`. */
  datatype ConnKind = Analog | Event

  /** How one end of a connection identifies its component: by the role it
      plays in the container, or by its name. */
  datatype Ident = Ident(role: Option<string>, name: Option<string>)

  /** Exactly one of role and name is given. */
  predicate Identified(id: Ident)
  {
    id.role.Some? != id.name.Some?
  }

  /** The constructor's check of one end: giving both a role and a name, or
      neither, raises `NineMLRuntimeError`. */
  function CheckIdent(id: Ident): (r: Result<()>)
    ensures r.Ok? <==> Identified(id)
    ensures r.Err? ==> r.error == RuntimeError
  {
    if id.role.Some? then
      if id.name.Some? then Err(RuntimeError) else Ok(())
    else if id.name.None? then Err(RuntimeError)
    else Ok(())
  }

  /** The role if there is one, otherwise the name. */
  function Key(id: Ident): string
    requires Identified(id)
  {
    if id.role.Some? then id.role.value else id.name.value
  }

  /** `name`: sender, send port, receiver and receive port joined by `'_'`. */
  function ConnectionName(sender: Ident, sendPort: string, receiver: Ident, receivePort: string): string
    requires Identified(sender) && Identified(receiver)
  {
    Join("_", [Key(sender), sendPort, Key(receiver), receivePort])
  }

  /** When no part holds an underscore, the name splits back into its four
      parts, in order. */
  lemma ConnectionNameParts(sender: Ident, sendPort: string, receiver: Ident, receivePort: string)
    requires Identified(sender) && Identified(receiver)
    requires '_' !in Key(sender) && '_' !in sendPort && '_' !in Key(receiver) && '_' !in receivePort
    ensures SplitOn(ConnectionName(sender, sendPort, receiver, receivePort), '_') ==
            [Key(sender), sendPort, Key(receiver), receivePort]
  {
    SplitOnJoin([Key(sender), sendPort, Key(receiver), receivePort], '_');
  }

  /** `sender_role` / `receiver_role`: raise when the end was given by name. */
  function RoleOf(id: Ident): (r: Result<string>)
    ensures r.Ok? <==> id.role.Some?
    ensures r.Ok? ==> r.value == id.role.value
    ensures r.Err? ==> r.error == RuntimeError
  {
    if id.role.None? then Err(RuntimeError) else Ok(id.role.value)
  }

  /** `sender_name` / `receiver_name`: raise when the end was given by role. */
  function NameOf(id: Ident): (r: Result<string>)
    ensures r.Ok? <==> id.name.Some?
    ensures r.Ok? ==> r.value == id.name.value
    ensures r.Err? ==> r.error == RuntimeError
  {
    if id.name.None? then Err(RuntimeError) else Ok(id.name.value)
  }

  /** `role_map[role]` for the role of one end. */
  function MappedRole(id: Ident, roleMap: map<string, string>): (r: Result<string>)
    ensures r.Ok? <==> id.role.Some? && id.role.value in roleMap
    ensures r.Ok? ==> r.value == roleMap[id.role.value]
    ensures r.Err? ==> (r.error == RuntimeError <==> id.role.None?)
    ensures r.Err? ==> r.error == RuntimeError || r.error == KeyError
  {
    var role :- RoleOf(id);
    if role in roleMap then Ok(roleMap[role]) else Err(KeyError)
  }

  /** The ends of `assign_names_from_roles`: each role is replaced by the
      name `role_map` gives it. */
  function NamesFromRoles(sender: Ident, receiver: Ident, roleMap: map<string, string>): (r: Result<(Ident, Ident)>)
    ensures r.Ok? <==> MappedRole(sender, roleMap).Ok? && MappedRole(receiver, roleMap).Ok?
    ensures r.Ok? ==> r.value.0 == Ident(None, Some(roleMap[sender.role.value]))
    ensures r.Ok? ==> r.value.1 == Ident(None, Some(roleMap[receiver.role.value]))
    ensures r.Ok? ==> Identified(r.value.0) && Identified(r.value.1)
    ensures MappedRole(sender, roleMap).Err? ==> r == Err(MappedRole(sender, roleMap).error)
  {
    var s :- MappedRole(sender, roleMap);
    var t :- MappedRole(receiver, roleMap);
    Ok((Ident(None, Some(s)), Ident(None, Some(t))))
  }

  /** The port names of `append_namespace_from_roles`: each port name is
      namespaced by the name its end's role maps to. */
  function NamespacedPortNames(sendPort: string, receivePort: string, sender: Ident, receiver: Ident,
                               roleMap: map<string, string>): (r: Result<(string, string)>)
    ensures r.Ok? <==> MappedRole(sender, roleMap).Ok? && MappedRole(receiver, roleMap).Ok?
    ensures r.Ok? ==> r.value.0 == AppendNamespace(sendPort, roleMap[sender.role.value])
    ensures r.Ok? ==> r.value.1 == AppendNamespace(receivePort, roleMap[receiver.role.value])
    ensures MappedRole(sender, roleMap).Err? ==> r == Err(MappedRole(sender, roleMap).error)
  {
    var s :- MappedRole(sender, roleMap);
    var t :- MappedRole(receiver, roleMap);
    Ok((AppendNamespace(sendPort, s), AppendNamespace(receivePort, t)))
  }

  /** The namespaced port names split back into the port names and the
      sub-component names they were namespaced with. */
  lemma NamespacedPortNamesSplit(sendPort: string, receivePort: string, sender: Ident, receiver: Ident,
                                 roleMap: map<string, string>)
    requires NamespacedPortNames(sendPort, receivePort, sender, receiver, roleMap).Ok?
    requires !EndsWithUnderscore(sendPort) && !EndsWithUnderscore(receivePort)
    requires forall role :: role in roleMap ==> !StartsWithUnderscore(roleMap[role])
    ensures SplitNamespace(NamespacedPortNames(sendPort, receivePort, sender, receiver, roleMap).value.0) ==
            (sendPort, roleMap[sender.role.value])
    ensures SplitNamespace(NamespacedPortNames(sendPort, receivePort, sender, receiver, roleMap).value.1) ==
            (receivePort, roleMap[receiver.role.value])
  {
    SplitAppendRoundTrip(sendPort, roleMap[sender.role.value]);
    SplitAppendRoundTrip(receivePort, roleMap[receiver.role.value]);
  }

  /** The ports a connection of the given kind may join. */
  predicate Connectable(kind: ConnKind, send: Port, receive: Port)
  {
    match kind
    case Analog =>
      send.kind == AnalogSend && (receive.kind == AnalogReceive || receive.kind == AnalogReduce) &&
      send.dimension == receive.dimension
    case Event => send.kind == EventSend && receive.kind == EventReceive
  }

  /** `_check_ports`: a wrong port kind raises `NineMLRuntimeError`; analog
      ports of different dimensions raise `NineMLDimensionError`. */
  function CheckPorts(kind: ConnKind, send: Port, receive: Port): (r: Result<()>)
    ensures r.Ok? <==> Connectable(kind, send, receive)
    ensures (r.Err? && kind == Analog && send.kind == AnalogSend &&
             (receive.kind == AnalogReceive || receive.kind == AnalogReduce)) ==> r.error == DimensionError
    ensures r.Err? && kind == Event ==> r.error == RuntimeError
  {
    match kind
    case Analog =>
      if send.kind != AnalogSend then Err(RuntimeError)
      else if receive.kind != AnalogReceive && receive.kind != AnalogReduce then Err(RuntimeError)
      else if send.dimension != receive.dimension then Err(DimensionError)
      else Ok(())
    case Event =>
      if send.kind != EventSend then Err(RuntimeError)
      else if receive.kind != EventReceive then Err(RuntimeError)
      else Ok(())
  }

  /** A connection runs from a send port to an incoming port of the same
      family (analog or event), the family of the connection. */
  lemma ConnectableDirection(kind: ConnKind, send: Port, receive: Port)
    requires CheckPorts(kind, send, receive).Ok?
    ensures ModeOf(send.kind) == Send && IsIncoming(receive.kind)
    ensures IsAnalog(send.kind) == IsAnalog(receive.kind) == (kind == Analog)
  {
  }

  /** `EventPortConnection.delay`: always zero. */
  function EventDelay(): (d: real)
    ensures d == 0.0
  {
    0.0
  }

  /** A component of a container, with its ports by name and, for a role,
      the component classes of the populations playing it. */
  datatype Component = Component(name: string, ports: map<string, Port>, componentClasses: seq<map<string, Port>>)

  /** The components of a container by role and by name. */
  datatype Container = Container(name: string, roles: map<string, Component>, members: map<string, Component>)

  /** `send_port(name)`: the named port if it is a send port. */
  function SendPortOf(c: Component, name: string): (r: Result<Port>)
    ensures r.Ok? <==> name in c.ports && IsSend(c.ports[name].kind)
    ensures r.Ok? ==> r.value == c.ports[name]
    ensures r.Err? ==> r.error == NameError
  {
    if name in c.ports && IsSend(c.ports[name].kind) then Ok(c.ports[name]) else Err(NameError)
  }

  /** `receive_port(name)`: the named port if it is a receive or reduce
      port. */
  function ReceivePortOf(c: Component, name: string): (r: Result<Port>)
    ensures r.Ok? <==> name in c.ports && IsIncoming(c.ports[name].kind)
    ensures r.Ok? ==> r.value == c.ports[name]
    ensures r.Err? ==> r.error == NameError
  {
    if name in c.ports && IsIncoming(c.ports[name].kind) then Ok(c.ports[name]) else Err(NameError)
  }

  /** The component one end refers to: `getattr(container, role)` when
      binding to roles, `container[name]` otherwise. */
  function LookUp(c: Container, id: Ident, toRoles: bool): (r: Result<Component>)
    ensures toRoles ==> (r.Ok? <==> id.role.Some? && id.role.value in c.roles)
    ensures !toRoles ==> (r.Ok? <==> id.name.Some? && id.name.value in c.members)
    ensures r.Ok? && toRoles ==> r.value == c.roles[id.role.value]
    ensures r.Ok? && !toRoles ==> r.value == c.members[id.name.value]
  {
    if toRoles then
      var role :- RoleOf(id);
      if role in c.roles then Ok(c.roles[role]) else Err(AttributeError)
    else
      var name :- NameOf(id);
      if name in c.members then Ok(c.members[name]) else Err(KeyError)
  }

  /** What `bind` resolves: both components, then both ports, then the port
      check. */
  datatype Bound = Bound(sender: Component, receiver: Component, sendPort: Port, receivePort: Port)

  function Binding(kind: ConnKind, sender: Ident, receiver: Ident, sendName: string, receiveName: string,
                   c: Container, toRoles: bool): Result<Bound>
  {
    var s :- LookUp(c, sender, toRoles);
    var t :- LookUp(c, receiver, toRoles);
    var sp :- SendPortOf(s, sendName);
    var rp :- ReceivePortOf(t, receiveName);
    var _ :- CheckPorts(kind, sp, rp);
    Ok(Bound(s, t, sp, rp))
  }

  /** A successful binding connects the named send port of the sender to the
      named incoming port of the receiver, and they are connectable; a
      missing port raises `NineMLNameError`. */
  lemma BindingFacts(kind: ConnKind, sender: Ident, receiver: Ident, sendName: string, receiveName: string,
                     c: Container, toRoles: bool)
    ensures var b := Binding(kind, sender, receiver, sendName, receiveName, c, toRoles);
      b.Ok? ==> b.value.sendPort == b.value.sender.ports[sendName] &&
                b.value.receivePort == b.value.receiver.ports[receiveName] &&
                Connectable(kind, b.value.sendPort, b.value.receivePort)
    ensures var b := Binding(kind, sender, receiver, sendName, receiveName, c, toRoles);
      (LookUp(c, sender, toRoles).Ok? && LookUp(c, receiver, toRoles).Ok? &&
       SendPortOf(LookUp(c, sender, toRoles).value, sendName).Err?) ==> b == Err(NameError)
    ensures var b := Binding(kind, sender, receiver, sendName, receiveName, c, toRoles);
      (LookUp(c, sender, toRoles).Ok? && LookUp(c, receiver, toRoles).Ok? &&
       ReceivePortOf(LookUp(c, receiver, toRoles).value, receiveName).Err?) ==> b.Err?
  {
  }

  /** How a port is given to the constructor: by name or as a port. */
  datatype PortArg = PortNamed(name: string) | PortGiven(port: Port)

  class PortConnection {
    const kind: ConnKind
    const sender: Ident
    const receiver: Ident
    var sendPortName: Option<string>
    var sendPort: Option<Port>
    var receivePortName: Option<string>
    var receivePort: Option<Port>
    var senderObj: Option<Component>
    var receiverObj: Option<Component>

    predicate Valid()
      reads this
    {
      Identified(sender) && Identified(receiver) &&
      (sendPort.Some? || sendPortName.Some?) && (receivePort.Some? || receivePortName.Some?)
    }

    constructor (kind: ConnKind, send: PortArg, receive: PortArg, sender: Ident, receiver: Ident)
      requires Identified(sender) && Identified(receiver)
      ensures Valid() && !IsBound()
      ensures this.kind == kind && this.sender == sender && this.receiver == receiver
      ensures send.PortNamed? ==> sendPortName == Some(send.name) && sendPort == None
      ensures send.PortGiven? ==> sendPort == Some(send.port) && sendPortName == None
      ensures receive.PortNamed? ==> receivePortName == Some(receive.name) && receivePort == None
      ensures receive.PortGiven? ==> receivePort == Some(receive.port) && receivePortName == None
      ensures receiverObj == None
    {
      this.kind := kind;
      this.sender := sender;
      this.receiver := receiver;
      if send.PortNamed? {
        sendPortName, sendPort := Some(send.name), None;
      } else {
        sendPortName, sendPort := None, Some(send.port);
      }
      if receive.PortNamed? {
        receivePortName, receivePort := Some(receive.name), None;
      } else {
        receivePortName, receivePort := None, Some(receive.port);
      }
      senderObj, receiverObj := None, None;
    }

    /** `send_port_name`: the bound port's name, or the given name. */
    function SendPortName(): string
      reads this
      requires Valid()
    {
      if sendPort.Some? then sendPort.value.name else sendPortName.value
    }

    function ReceivePortName(): string
      reads this
      requires Valid()
    {
      if receivePort.Some? then receivePort.value.name else receivePortName.value
    }

    function Name(): string
      reads this
      requires Valid()
    {
      ConnectionName(sender, SendPortName(), receiver, ReceivePortName())
    }

    /** `is_bound()`: the sender has been set. */
    predicate IsBound()
      reads this
    {
      senderObj.Some?
    }

    /** `sender`, which raises while unbound. */
    function Sender(): (r: Result<Component>)
      reads this
      ensures r.Ok? <==> IsBound()
      ensures r.Err? ==> r.error == RuntimeError
    {
      if !IsBound() then Err(RuntimeError) else Ok(senderObj.value)
    }

    /** `receiver`, which raises while unbound. */
    function Receiver(): (r: Result<Option<Component>>)
      reads this
      ensures r.Ok? <==> IsBound()
      ensures r.Err? ==> r.error == RuntimeError
    {
      if !IsBound() then Err(RuntimeError) else Ok(receiverObj)
    }

    /** `send_port`, which raises while unbound. */
    function SendPort(): (r: Result<Option<Port>>)
      reads this
      ensures r.Ok? <==> IsBound()
      ensures r.Err? ==> r.error == RuntimeError
    {
      if !IsBound() then Err(RuntimeError) else Ok(sendPort)
    }

    /** `receive_port`, which raises while unbound. */
    function ReceivePort(): (r: Result<Option<Port>>)
      reads this
      ensures r.Ok? <==> IsBound()
      ensures r.Err? ==> r.error == RuntimeError
    {
      if !IsBound() then Err(RuntimeError) else Ok(receivePort)
    }

    /** `bind(container, to_roles)`: sets the sender and receiver, then looks
        up the send and receive ports, then checks them.  Each step is kept
        when a later one raises, so a connection whose components were found
        reports `is_bound()` even when a port was missing. */
    method Bind(c: Container, toRoles: bool) returns (r: Result<()>)
      requires Valid()
      modifies this
      ensures Valid()
      ensures var b := Binding(kind, sender, receiver, old(SendPortName()), old(ReceivePortName()), c, toRoles);
        (r.Ok? <==> b.Ok?) && (r.Err? ==> r.error == b.error)
      ensures var b := Binding(kind, sender, receiver, old(SendPortName()), old(ReceivePortName()), c, toRoles);
        r.Ok? ==> IsBound() && senderObj == Some(b.value.sender) && receiverObj == Some(b.value.receiver) &&
                  sendPort == Some(b.value.sendPort) && receivePort == Some(b.value.receivePort)
      ensures LookUp(c, sender, toRoles).Ok? ==> IsBound()
      ensures LookUp(c, sender, toRoles).Err? ==> unchanged(this)
      ensures sendPortName == old(sendPortName) && receivePortName == old(receivePortName)
      ensures LookUp(c, sender, toRoles).Ok? ==> senderObj == Some(LookUp(c, sender, toRoles).value)
      ensures LookUp(c, sender, toRoles).Ok? && LookUp(c, receiver, toRoles).Err? ==>
                receiverObj == old(receiverObj) && sendPort == old(sendPort) && receivePort == old(receivePort)
      ensures LookUp(c, sender, toRoles).Ok? && LookUp(c, receiver, toRoles).Ok? ==>
                receiverObj == Some(LookUp(c, receiver, toRoles).value)
    {
      var sendName := SendPortName();
      var receiveName := ReceivePortName();
      var s := LookUp(c, sender, toRoles);
      if s.Err? {
        return Err(s.error);
      }
      senderObj := Some(s.value);
      var t := LookUp(c, receiver, toRoles);
      if t.Err? {
        return Err(t.error);
      }
      receiverObj := Some(t.value);
      var sp := SendPortOf(s.value, sendName);
      if sp.Err? {
        return Err(sp.error);
      }
      sendPort := Some(sp.value);
      var rp := ReceivePortOf(t.value, receiveName);
      if rp.Err? {
        return Err(rp.error);
      }
      receivePort := Some(rp.value);
      r := CheckPorts(kind, sp.value, rp.value);
    }
  }

  /** `PortConnection(send_port, receive_port, sender_role, receiver_role,
      sender_name, receiver_name)`. */
  method NewPortConnection(kind: ConnKind, send: PortArg, receive: PortArg, sender: Ident, receiver: Ident)
    returns (r: Result<PortConnection>)
    ensures r.Ok? <==> Identified(sender) && Identified(receiver)
    ensures r.Err? ==> r.error == RuntimeError
    ensures r.Ok? ==> fresh(r.value) && r.value.Valid() && !r.value.IsBound()
    ensures r.Ok? ==> r.value.kind == kind && r.value.sender == sender && r.value.receiver == receiver
    ensures r.Ok? && send.PortNamed? ==> r.value.SendPortName() == send.name
    ensures r.Ok? && receive.PortNamed? ==> r.value.ReceivePortName() == receive.name
  {
    var ok := CheckIdent(sender);
    if ok.Err? {
      return Err(ok.error);
    }
    ok := CheckIdent(receiver);
    if ok.Err? {
      return Err(ok.error);
    }
    var pc := new PortConnection(kind, send, receive, sender, receiver);
    r := Ok(pc);
  }

  /** `assign_names_from_roles(role_map)`: a new connection of the same
      kind between the same port names, whose ends are the names the roles
      map to. */
  method AssignNamesFromRoles(pc: PortConnection, roleMap: map<string, string>) returns (r: Result<PortConnection>)
    requires pc.Valid()
    ensures var n := NamesFromRoles(pc.sender, pc.receiver, roleMap);
      (r.Ok? <==> n.Ok?) && (r.Err? ==> r.error == n.error)
    ensures r.Ok? ==> fresh(r.value) && r.value.Valid() && r.value.kind == pc.kind
    ensures r.Ok? ==> r.value.SendPortName() == pc.SendPortName() && r.value.ReceivePortName() == pc.ReceivePortName()
    ensures r.Ok? ==> r.value.sender == Ident(None, Some(roleMap[pc.sender.role.value]))
    ensures r.Ok? ==> r.value.receiver == Ident(None, Some(roleMap[pc.receiver.role.value]))
  {
    var n := NamesFromRoles(pc.sender, pc.receiver, roleMap);
    if n.Err? {
      return Err(n.error);
    }
    var c := new PortConnection(pc.kind, PortNamed(pc.SendPortName()), PortNamed(pc.ReceivePortName()), n.value.0, n.value.1);
    r := Ok(c);
  }

  /** `append_namespace_from_roles(role_map)`: a new connection of the same
      kind with the same roles, whose port names are namespaced by the names
      the roles map to. */
  method AppendNamespaceFromRoles(pc: PortConnection, roleMap: map<string, string>) returns (r: Result<PortConnection>)
    requires pc.Valid()
    ensures var n := NamespacedPortNames(pc.SendPortName(), pc.ReceivePortName(), pc.sender, pc.receiver, roleMap);
      (r.Ok? <==> n.Ok?) && (r.Err? ==> r.error == n.error)
    ensures r.Ok? ==> fresh(r.value) && r.value.Valid() && r.value.kind == pc.kind
    ensures r.Ok? ==> r.value.sender == Ident(pc.sender.role, None) && r.value.receiver == Ident(pc.receiver.role, None)
    ensures r.Ok? ==> r.value.SendPortName() == AppendNamespace(pc.SendPortName(), roleMap[pc.sender.role.value])
    ensures r.Ok? ==> r.value.ReceivePortName() == AppendNamespace(pc.ReceivePortName(), roleMap[pc.receiver.role.value])
  {
    var n := NamespacedPortNames(pc.SendPortName(), pc.ReceivePortName(), pc.sender, pc.receiver, roleMap);
    if n.Err? {
      return Err(n.error);
    }
    var c := new PortConnection(pc.kind, PortNamed(n.value.0), PortNamed(n.value.1),
                                Ident(pc.sender.role, None), Ident(pc.receiver.role, None));
    r := Ok(c);
  }

  // ---------------------------------------------------------------------
  // from_tuple

  /** The type of the named port common to the component classes, scanned
      in order from `acc`: a class without the port raises
      `NineMLNameError`, a class whose port has another type raises
      `NineMLRuntimeError`. */
  function CommonPortType(classes: seq<map<string, Port>>, name: string, acc: Option<string>): Result<Option<string>>
  {
    if |classes| == 0 then Ok(acc)
    else if name !in classes[0] then Err(NameError)
    else
      var pt := TypeName(classes[0][name]);
      if acc.Some? && acc.value != pt then Err(RuntimeError)
      else CommonPortType(classes[1..], name, Some(pt))
  }

  /** The scan succeeds with a type exactly when every class has the port
      and all of them have that type; with no classes it finds none. */
  lemma {:induction false} CommonPortTypeFacts(classes: seq<map<string, Port>>, name: string, t: string)
    ensures CommonPortType(classes, name, Some(t)) == Ok(Some(t)) <==>
      forall i :: 0 <= i < |classes| ==> name in classes[i] && TypeName(classes[i][name]) == t
    ensures CommonPortType(classes, name, Some(t)).Ok? ==> CommonPortType(classes, name, Some(t)) == Ok(Some(t))
  {
    if |classes| > 0 && name in classes[0] && TypeName(classes[0][name]) == t {
      CommonPortTypeFacts(classes[1..], name, t);
      assert forall i :: 1 <= i < |classes| ==> classes[i] == classes[1..][i - 1];
    }
  }

  /** The `for dyn in sender_dynamicss` loop of `from_tuple`. */
  method SendPortType(classes: seq<map<string, Port>>, name: string) returns (r: Result<Option<string>>)
    ensures r == CommonPortType(classes, name, None)
  {
    var portType: Option<string> := None;
    for i := 0 to |classes|
      invariant CommonPortType(classes, name, None) == CommonPortType(classes[i..], name, portType)
    {
      assert classes[i..][1..] == classes[i + 1..];
      if name !in classes[i] {
        return Err(NameError);
      }
      var pt := TypeName(classes[i][name]);
      if portType.None? {
        portType := Some(pt);
      } else if portType.value != pt {
        return Err(RuntimeError);
      }
    }
    assert classes[|classes|..] == [];
    r := Ok(portType);
  }

  /** The connection kind that a send port type selects. */
  function KindOfPortType(portType: Option<string>): (r: Result<ConnKind>)
    ensures r.Ok? ==> portType.Some?
    ensures r.Err? ==> r.error == AssertionFailed
  {
    if portType == Some("AnalogSendPort") || portType == Some("AnalogSendPortExposure") then Ok(Analog)
    else if portType == Some("EventSendPort") || portType == Some("EventSendPortExposure") then Ok(Event)
    else Err(AssertionFailed)
  }

  /** The kind chosen for a send port is the family of the port, and only a
      send port (or send port exposure) selects a kind. */
  lemma KindOfPortFacts(p: Port)
    ensures KindOfPortType(Some(TypeName(p))).Ok? <==> IsSend(p.kind)
    ensures p.kind == AnalogSend ==> KindOfPortType(Some(TypeName(p))) == Ok(Analog)
    ensures p.kind == EventSend ==> KindOfPortType(Some(TypeName(p))) == Ok(Event)
  {
    // The receive and reduce type names differ in length from the send ones.
    if !IsSend(p.kind) {
      var n := TypeName(p);
      assert |n| in {16, 17, 24, 25};
      assert n != "AnalogSendPort" && n != "AnalogSendPortExposure";
      assert n != "EventSendPort" && n != "EventSendPortExposure";
    } else if p.kind == AnalogSend {
      assert "AnalogSendPort" + "Exposure" == "AnalogSendPortExposure";
    } else {
      assert "EventSendPort" + "Exposure" == "EventSendPortExposure";
    }
  }

  /** One end of a tuple: a role of the container gives the component
      classes of its populations, a member name gives its one class; a name
      that is neither raises `NineMLRuntimeError`. */
  function TupleEnd(c: Container, end: string): (r: Result<(Ident, seq<map<string, Port>>)>)
    ensures r.Ok? <==> end in c.roles || end in c.members
    ensures r.Ok? ==> Identified(r.value.0) && Key(r.value.0) == end
    ensures r.Ok? && end in c.roles ==> r.value.0.role == Some(end)
    ensures r.Err? ==> r.error == RuntimeError
  {
    if end in c.roles then Ok((Ident(Some(end), None), c.roles[end].componentClasses))
    else if end in c.members then Ok((Ident(None, Some(end)), [c.members[end].ports]))
    else Err(RuntimeError)
  }

  /** `from_tuple((sender, send_port, receiver, receive_port), container)`. */
  method FromTuple(sender: string, sendPort: string, receiver: string, receivePort: string, c: Container)
    returns (r: Result<PortConnection>)
    ensures r.Ok? ==> TupleEnd(c, sender).Ok? && TupleEnd(c, receiver).Ok?
    ensures TupleEnd(c, sender).Err? || TupleEnd(c, receiver).Err? ==> r == Err(RuntimeError)
    ensures r.Ok? ==> var t := CommonPortType(TupleEnd(c, sender).value.1, sendPort, None);
      t.Ok? && KindOfPortType(t.value) == Ok(r.value.kind)
    ensures r.Ok? ==> fresh(r.value) && r.value.Valid() && !r.value.IsBound()
    ensures r.Ok? ==> r.value.sender == TupleEnd(c, sender).value.0 && r.value.receiver == TupleEnd(c, receiver).value.0
    ensures r.Ok? ==> r.value.SendPortName() == sendPort && r.value.ReceivePortName() == receivePort
  {
    var s := TupleEnd(c, sender);
    if s.Err? {
      return Err(s.error);
    }
    var t := TupleEnd(c, receiver);
    if t.Err? {
      return Err(t.error);
    }
    var portType := SendPortType(s.value.1, sendPort);
    if portType.Err? {
      return Err(portType.error);
    }
    var kind := KindOfPortType(portType.value);
    if kind.Err? {
      return Err(kind.error);
    }
    var pc := new PortConnection(kind.value, PortNamed(sendPort), PortNamed(receivePort), s.value.0, t.value.0);
    r := Ok(pc);
  }
}
