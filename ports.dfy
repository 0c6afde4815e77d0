/** Ports of a dynamics component class, shared by the connection, exposure,
    validation and modification code. */
module Ports {

  datatype PortKind = AnalogSend | AnalogReceive | AnalogReduce | EventSend | EventReceive

  /** A port: its kind, its name, its dimension (for analog ports), the
      operator of a reduce port, and whether it is a port exposure of a
      multi-component rather than a port of its own. */
  datatype Port = Port(kind: PortKind, name: string, dimension: string, reduceOp: string, exposure: bool)

  predicate IsAnalog(k: PortKind) { k == AnalogSend || k == AnalogReceive || k == AnalogReduce }
  predicate IsSend(k: PortKind) { k == AnalogSend || k == EventSend }

  /** `is_incoming()`: receive and reduce ports. */
  predicate IsIncoming(k: PortKind) { !IsSend(k) }

  datatype Mode = Send | Recv | Reduce

  /** The port's `mode`. */
  function ModeOf(k: PortKind): Mode
  {
    match k
    case AnalogSend => Send
    case EventSend => Send
    case AnalogReceive => Recv
    case EventReceive => Recv
    case AnalogReduce => Reduce
  }

  /** The `nineml_type` of a port or port exposure. */
  function TypeName(p: Port): string
  {
    var base := match p.kind
      case AnalogSend => "AnalogSendPort"
      case AnalogReceive => "AnalogReceivePort"
      case AnalogReduce => "AnalogReducePort"
      case EventSend => "EventSendPort"
      case EventReceive => "EventReceivePort";
    if p.exposure then base + "Exposure" else base
  }

  /** A port map is keyed by the ports' own names. */
  predicate KeyedByName(ports: map<string, Port>)
  {
    forall n :: n in ports ==> ports[n].name == n
  }
}
