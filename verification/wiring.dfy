/** The identifiers and records of the wire model that the core shares:
    signal identities, arena identifiers for entities, endpoints and
    networks, the per-endpoint wire state and the connection record.
    Entities, endpoints and networks live in an arena (see module Entities)
    and refer to one another by identifier, so cyclic wiring is expressible. */
module Wiring {
  import opened Wrappers

  /** A signal identity: the game's (type, name) pair. */
  datatype SignalId = SignalId(kind: string, name: string)

  /** The virtual signals the memory synthesiser and the optimiser name. */
  const SignalV := SignalId("virtual", "signal-V")
  const SignalC := SignalId("virtual", "signal-C")
  /** The wildcard "every signal" selector. */
  const Each := SignalId("virtual", "signal-each")

  type EntityId = nat
  type NetId = nat

  /** An endpoint is named by its entity and its port index. */
  datatype EndpointId = EndpointId(entity: EntityId, port: nat)

  datatype Color = Red | Green | Both

  /** The state of one endpoint: the network attached per wire colour (if any),
      the partner endpoints per colour, and the signals it is asserted to output. */
  datatype Endpoint = Endpoint(
    red: Option<NetId>,
    green: Option<NetId>,
    redP: set<EndpointId>,
    greenP: set<EndpointId>,
    outSignals: set<SignalId>)

  /** A fresh endpoint: nothing attached, asserting `signals`. */
  function Unwired(signals: set<SignalId>): Endpoint {
    Endpoint(None, None, {}, {}, signals)
  }

  /** A network: its member endpoints and the signals carried on it. */
  datatype Network = Network(points: set<EndpointId>, signals: set<SignalId>)

  /** One call of the connection primitive: a colour and the endpoints it links. */
  datatype Connection = Connection(color: Color, points: seq<EndpointId>)
}
