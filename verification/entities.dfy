/** The entity arena. Every combinator is an `Entity` value stored at its id in
    `Circuit.entities`; endpoints are named `(entity, port)`: a constant's
    single endpoint is port 1 and serves as input and output, while a decider
    or arithmetic combinator has input port 1 and a distinct output port 2.
    The constructors of src/entities/Decider.ts and src/entities/Constant.ts
    are the arena's `Add...` methods. */
module Entities {
  import opened Wrappers
  import opened Wiring
  import Decider
  import Constant

  /** The fields of an arithmetic combinator that the optimiser reads and
      rewrites; its first operand may be a literal instead of a signal. */
  datatype ArithmeticParams = ArithmeticParams(
    first_signal: Option<SignalId>,
    second_signal: Option<SignalId>,
    first_constant: Option<int>,
    second_constant: Option<int>,
    operation: string,
    output_signal: SignalId)

  /** The combinator variants, plus any other entity kind. */
  datatype Entity =
    | ConstantEntity(filters: seq<Constant.Filter>, isOn: bool)
    | DeciderEntity(params: Decider.DeciderParams)
    | ArithmeticEntity(arith: ArithmeticParams)
    | OtherEntity(name: string)

  function InputOf(k: EntityId, e: Entity): EndpointId {
    EndpointId(k, 1)
  }

  function OutputOf(k: EntityId, e: Entity): EndpointId {
    if e.ConstantEntity? then EndpointId(k, 1) else EndpointId(k, 2)
  }

  /** The two entities are of the same variant (so have the same endpoints). */
  predicate SameKind(e: Entity, f: Entity) {
    e.ConstantEntity? == f.ConstantEntity? && e.DeciderEntity? == f.DeciderEntity?
    && e.ArithmeticEntity? == f.ArithmeticEntity? && e.OtherEntity? == f.OtherEntity?
  }

  /** The signals an entity produces: a constant's filter signals in order, a
      decider's or arithmetic combinator's output signal. */
  function Produced(e: Entity): seq<SignalId> {
    match e
    case ConstantEntity(fs, _) => seq(|fs|, i requires 0 <= i < |fs| => fs[i].signal)
    case DeciderEntity(p) => [p.output_signal]
    case ArithmeticEntity(p) => [p.output_signal]
    case OtherEntity(_) => []
  }

  /** The endpoints entity k has: port 1, and port 2 unless it is a constant. */
  function EntityPorts(k: EntityId, e: Entity): set<EndpointId> {
    {InputOf(k, e), OutputOf(k, e)}
  }

  /** The endpoints of all entities of the arena. */
  function Ports(entities: seq<Entity>): set<EndpointId>
    decreases |entities|
  {
    if entities == [] then {}
    else Ports(entities[..|entities| - 1]) + EntityPorts(|entities| - 1, entities[|entities| - 1])
  }

  /** An endpoint belongs to the arena exactly when it names an existing entity
      and a port that entity has. */
  lemma {:induction false} PortsExact(entities: seq<Entity>, p: EndpointId)
    ensures p in Ports(entities) <==>
      p.entity < |entities| && (p.port == 1 || (p.port == 2 && !entities[p.entity].ConstantEntity?))
    decreases |entities|
  {
    if entities != [] {
      PortsExact(entities[..|entities| - 1], p);
    }
  }

  lemma PortsSnoc(entities: seq<Entity>, e: Entity)
    ensures Ports(entities + [e]) == Ports(entities) + EntityPorts(|entities|, e)
  {
    assert (entities + [e])[..|entities|] == entities;
  }

  /** Replacing an entity by one of the same kind keeps the arena's endpoints. */
  lemma {:induction false} PortsSameKind(entities: seq<Entity>, k: nat, e: Entity)
    requires k < |entities| && SameKind(entities[k], e)
    ensures Ports(entities[k := e]) == Ports(entities)
    decreases |entities|
  {
    var n := |entities|;
    var updated := entities[k := e];
    if k < n - 1 {
      assert updated[..n - 1] == entities[..n - 1][k := e];
      PortsSameKind(entities[..n - 1], k, e);
    } else {
      assert updated[..n - 1] == entities[..n - 1];
    }
  }

  /** The endpoint table holds exactly the endpoints of the arena's entities. */
  predicate WellFormed(entities: seq<Entity>, endpoints: map<EndpointId, Endpoint>) {
    endpoints.Keys == Ports(entities)
  }

  /** The arena: entities by id, endpoint state, network state and the log of
      connections made. */
  class Circuit {
    var entities: seq<Entity>
    var endpoints: map<EndpointId, Endpoint>
    var networks: map<NetId, Network>
    var connections: seq<Connection>

    predicate Valid()
      reads this`entities, this`endpoints
    {
      WellFormed(entities, endpoints)
    }

    constructor ()
      ensures Valid()
      ensures entities == [] && endpoints == map[] && networks == map[] && connections == []
    {
      entities, endpoints, networks, connections := [], map[], map[], [];
    }

    /** `new Decider(params)`: a decider whose input (port 1) asserts nothing and
        whose distinct output (port 2) asserts exactly the output signal. The
        condition must have exactly one of a second signal and a constant. */
    method AddDecider(params: Decider.DeciderParams) returns (r: Result<EntityId, string>)
      requires Valid()
      modifies this`entities, this`endpoints
      ensures Valid()
      ensures r.Success? <==> Decider.HasOneOperand(params)
      ensures r.Success? ==>
        && r.value == old(|entities|)
        && entities == old(entities) + [DeciderEntity(params)]
        && InputOf(r.value, DeciderEntity(params)) == EndpointId(r.value, 1)
        && OutputOf(r.value, DeciderEntity(params)) == EndpointId(r.value, 2)
        && endpoints == old(endpoints)[EndpointId(r.value, 1) := Unwired({})]
                                      [EndpointId(r.value, 2) := Unwired({params.output_signal})]
      ensures r.Failure? ==> entities == old(entities) && endpoints == old(endpoints)
    {
      if !Decider.HasOneOperand(params) {
        return Failure("decider condition needs exactly one of second_signal and constant");
      }
      var id := |entities|;
      PortsSnoc(entities, DeciderEntity(params));
      entities := entities + [DeciderEntity(params)];
      endpoints := endpoints[EndpointId(id, 1) := Unwired({})][EndpointId(id, 2) := Unwired({params.output_signal})];
      r := Success(id);
    }

    /** `new Constant(...filters)`: a constant, switched on, whose one endpoint
        (port 1) is both input and output and asserts the filters' signals. */
    method AddConstant(filters: seq<Constant.Filter>) returns (id: EntityId)
      requires Valid()
      modifies this`entities, this`endpoints
      ensures Valid()
      ensures id == old(|entities|)
      ensures entities == old(entities) + [ConstantEntity(filters, true)]
      ensures InputOf(id, entities[id]) == OutputOf(id, entities[id]) == EndpointId(id, 1)
      ensures endpoints == old(endpoints)[EndpointId(id, 1) := Unwired(Constant.FilterSignals(filters))]
    {
      id := |entities|;
      PortsSnoc(entities, ConstantEntity(filters, true));
      entities := entities + [ConstantEntity(filters, true)];
      endpoints := endpoints[EndpointId(id, 1) := Unwired(Constant.FilterSignals(filters))];
    }

    /** `Constant.simple(value)`: a constant with the single filter (V, value, 1). */
    method AddSimpleConstant(value: int) returns (id: EntityId)
      requires Valid()
      modifies this`entities, this`endpoints
      ensures Valid()
      ensures id == old(|entities|)
      ensures entities == old(entities) + [ConstantEntity([Constant.Filter(SignalV, value, 1)], true)]
      ensures endpoints == old(endpoints)[EndpointId(id, 1) := Unwired({SignalV})]
    {
      id := AddConstant(Constant.SimpleFilters(value));
      Constant.SimpleLookup(value, SignalV);
    }

    /** An arithmetic combinator (the pass-through transformer of a read port),
        with input port 1 and output port 2 asserting its output signal. */
    method AddArithmetic(params: ArithmeticParams) returns (id: EntityId)
      requires Valid()
      modifies this`entities, this`endpoints
      ensures Valid()
      ensures id == old(|entities|)
      ensures entities == old(entities) + [ArithmeticEntity(params)]
      ensures endpoints == old(endpoints)[EndpointId(id, 1) := Unwired({})]
                                         [EndpointId(id, 2) := Unwired({params.output_signal})]
    {
      id := |entities|;
      PortsSnoc(entities, ArithmeticEntity(params));
      entities := entities + [ArithmeticEntity(params)];
      endpoints := endpoints[EndpointId(id, 1) := Unwired({})][EndpointId(id, 2) := Unwired({params.output_signal})];
    }

    /** `makeConnection(color, ...points)`, recorded as a connection record;
        the network bookkeeping it performs is not modelled. */
    method MakeConnection(color: Color, points: seq<EndpointId>)
      modifies this`connections
      ensures connections == old(connections) + [Connection(color, points)]
    {
      connections := connections + [Connection(color, points)];
    }
  }
}
