/** Renaming one signal identity in the arena (the value-level meaning of
    `_changeSignal` and `GroupCollection.changeSignal` in
    src/optimization/groups.ts): in a combinator's fields, in a network's
    carried signals and in an endpoint's asserted signals. */
module Rename {
  import opened Wrappers
  import opened Wiring
  import opened Entities
  import Decider
  import Constant

  /** Why a rename aborts the compilation. */
  datatype RenameError =
    | OperandMismatch(point: EndpointId)  // an input endpoint whose operands do not name the old signal
    | OutputMismatch(point: EndpointId)   // an output endpoint whose output signal is not the old signal
    | UnknownKind(point: EndpointId)      // an endpoint of neither a decider, an arithmetic combinator nor a constant

  /** One constant filter with the old signal replaced. */
  function RenameFilter(f: Constant.Filter, from: SignalId, to: SignalId): Constant.Filter {
    if f.signal == from then f.(signal := to) else f
  }

  /** Every filter whose signal is `from` now carries `to`. */
  function RenameFilters(fs: seq<Constant.Filter>, from: SignalId, to: SignalId): (r: seq<Constant.Filter>)
    ensures |r| == |fs|
  {
    seq(|fs|, i requires 0 <= i < |fs| => RenameFilter(fs[i], from, to))
  }

  /** Renaming a constant's filters replaces `from` by `to` among the signals
      it asserts, keeps every count and slot index, and leaves the filters of
      other signals exactly as they were. */
  lemma RenameFiltersSignals(fs: seq<Constant.Filter>, from: SignalId, to: SignalId, i: nat)
    ensures Constant.FilterSignals(RenameFilters(fs, from, to))
         == if from in Constant.FilterSignals(fs) then Constant.FilterSignals(fs) - {from} + {to}
            else Constant.FilterSignals(fs)
    ensures i < |fs| ==>
      && RenameFilters(fs, from, to)[i].count == fs[i].count
      && RenameFilters(fs, from, to)[i].index == fs[i].index
      && RenameFilters(fs, from, to)[i].signal == (if fs[i].signal == from then to else fs[i].signal)
  {
    var r := RenameFilters(fs, from, to);
    var before, after := Constant.FilterSignals(fs), Constant.FilterSignals(r);
    forall s | s in after
      ensures s in (if from in before then before - {from} + {to} else before)
    {
      var j :| 0 <= j < |r| && r[j].signal == s;
      assert fs[j].signal in before;
    }
    forall s | s in (if from in before then before - {from} + {to} else before)
      ensures s in after
    {
      if s == to && from in before {
        var j :| 0 <= j < |fs| && fs[j].signal == from;
        assert r[j].signal == to;
      } else {
        var j :| 0 <= j < |fs| && fs[j].signal == s;
        assert r[j].signal == s;
      }
    }
  }

  /** The signals an endpoint of `e` names in its fields: the operands at the
      input (port 1), the output signal at the output (port 2). */
  function SignalsAt(e: Entity, port: nat): set<SignalId> {
    match e
    case DeciderEntity(d) =>
      if port == 1 then {d.first_signal} + (if d.second_signal.Some? then {d.second_signal.value} else {})
      else {d.output_signal}
    case ArithmeticEntity(a) =>
      if port == 1 then (if a.first_signal.Some? then {a.first_signal.value} else {})
                        + (if a.second_signal.Some? then {a.second_signal.value} else {})
      else {a.output_signal}
    case _ => {}
  }

  /** Both operands of `e`'s input name `s`. */
  predicate BothOperands(e: Entity, s: SignalId) {
    match e
    case DeciderEntity(d) => d.first_signal == s && d.second_signal == Some(s)
    case ArithmeticEntity(a) => a.first_signal == Some(s) && a.second_signal == Some(s)
    case _ => false
  }

  /** `_changeSignal(p, from, to)` on the entity `e` that owns endpoint `p`: a
      decider's or arithmetic combinator's input renames its first operand if
      that is `from`, else its second; its output renames the output signal,
      which must be `from`; a constant renames its matching filters; any other
      kind is refused. */
  function RenameAt(e: Entity, p: EndpointId, from: SignalId, to: SignalId): Result<Entity, RenameError> {
    match e
    case DeciderEntity(d) =>
      if p.port == 1 then
        if d.first_signal == from then Success(DeciderEntity(d.(first_signal := to)))
        else if d.second_signal == Some(from) then Success(DeciderEntity(d.(second_signal := Some(to))))
        else Failure(OperandMismatch(p))
      else if d.output_signal == from then Success(DeciderEntity(d.(output_signal := to)))
      else Failure(OutputMismatch(p))
    case ArithmeticEntity(a) =>
      if p.port == 1 then
        if a.first_signal == Some(from) then Success(ArithmeticEntity(a.(first_signal := Some(to))))
        else if a.second_signal == Some(from) then Success(ArithmeticEntity(a.(second_signal := Some(to))))
        else Failure(OperandMismatch(p))
      else if a.output_signal == from then Success(ArithmeticEntity(a.(output_signal := to)))
      else Failure(OutputMismatch(p))
    case ConstantEntity(fs, on) => Success(ConstantEntity(RenameFilters(fs, from, to), on))
    case OtherEntity(_) => Failure(UnknownKind(p))
  }

  /** A rename succeeds exactly on a constant, or on a combinator whose fields
      at that endpoint name `from`. On success the kind, the on-flag and the
      fields at the other endpoint are kept; `to` replaces `from` among the
      signals named at the endpoint, except that an input whose operands both
      name `from` has only its first operand renamed. */
  lemma {:induction false} RenameAtMeaning(e: Entity, p: EndpointId, from: SignalId, to: SignalId, q: nat)
    requires q != p.port && (p.port == 1 || q == 1)
    ensures RenameAt(e, p, from, to).Success?
        <==> e.ConstantEntity? || ((e.DeciderEntity? || e.ArithmeticEntity?) && from in SignalsAt(e, p.port))
    ensures RenameAt(e, p, from, to).Failure? ==> RenameAt(e, p, from, to).error.point == p
    ensures RenameAt(e, p, from, to).Success? ==>
      var e' := RenameAt(e, p, from, to).value;
      && SameKind(e, e')
      && (e.ConstantEntity? ==> e'.isOn == e.isOn && e'.filters == RenameFilters(e.filters, from, to))
      && SignalsAt(e', q) == SignalsAt(e, q)
      && (!e.ConstantEntity? && !BothOperands(e, from) ==> SignalsAt(e', p.port) == SignalsAt(e, p.port) - {from} + {to})
      && (BothOperands(e, from) && p.port == 1 ==> SignalsAt(e', p.port) == {to, from})
  {
    match e
    case DeciderEntity(d) =>
    case ArithmeticEntity(a) =>
    case ConstantEntity(fs, on) =>
    case OtherEntity(_) =>
  }

  /** Renaming at an entity's input and at its output touch different fields:
      whether one succeeds does not depend on whether the other was done
      first, and either order gives the same entity. */
  lemma RenameCommutes(e: Entity, p1: EndpointId, p2: EndpointId, from: SignalId, to: SignalId)
    requires p1.port == 1 && p2.port == 2
    ensures RenameAt(e, p1, from, to).Success? ==>
      (RenameAt(RenameAt(e, p1, from, to).value, p2, from, to).Success? <==> RenameAt(e, p2, from, to).Success?)
    ensures RenameAt(e, p2, from, to).Success? ==>
      (RenameAt(RenameAt(e, p2, from, to).value, p1, from, to).Success? <==> RenameAt(e, p1, from, to).Success?)
    ensures RenameAt(e, p1, from, to).Success? && RenameAt(e, p2, from, to).Success? ==>
      RenameAt(RenameAt(e, p1, from, to).value, p2, from, to)
      == RenameAt(RenameAt(e, p2, from, to).value, p1, from, to)
  {
  }

  /** A network after the rename: it carries `to` instead of `from`. */
  function RenameNet(n: Network, from: SignalId, to: SignalId): Network {
    n.(signals := n.signals - {from} + {to})
  }

  /** An endpoint after the rename: it asserts `to` instead of `from`. */
  function RenameEndpoint(e: Endpoint, from: SignalId, to: SignalId): Endpoint {
    e.(outSignals := e.outSignals - {from} + {to})
  }

  /** The network table with the networks `ns` renamed. */
  function RenameNets(networks: map<NetId, Network>, ns: set<NetId>, from: SignalId, to: SignalId)
    : map<NetId, Network>
  {
    map n | n in networks :: if n in ns then RenameNet(networks[n], from, to) else networks[n]
  }

  /** The endpoint table with the endpoints `ps` renamed. */
  function RenameEndpoints(endpoints: map<EndpointId, Endpoint>, ps: set<EndpointId>, from: SignalId, to: SignalId)
    : map<EndpointId, Endpoint>
  {
    map p | p in endpoints :: if p in ps then RenameEndpoint(endpoints[p], from, to) else endpoints[p]
  }

  /** Entity k after renaming at those of its endpoints that are in `ps`, input
      first (either order gives the same, see RenameCommutes). */
  function RenameEntity(e: Entity, k: EntityId, ps: set<EndpointId>, from: SignalId, to: SignalId)
    : Result<Entity, RenameError>
  {
    var r := if EndpointId(k, 1) in ps then RenameAt(e, EndpointId(k, 1), from, to) else Success(e);
    if r.Success? && EndpointId(k, 2) in ps then RenameAt(r.value, EndpointId(k, 2), from, to) else r
  }

  /** The entities after renaming at every endpoint of `ps` (entities whose
      rename fails are left as they were; see RenameFails). */
  function RenameEntities(entities: seq<Entity>, ps: set<EndpointId>, from: SignalId, to: SignalId)
    : (r: seq<Entity>)
    ensures |r| == |entities|
  {
    seq(|entities|, k requires 0 <= k < |entities| =>
      var x := RenameEntity(entities[k], k, ps, from, to);
      if x.Success? then x.value else entities[k])
  }

  /** Some endpoint of `ps` names an entity whose rename there is refused. */
  predicate RenameFails(entities: seq<Entity>, ps: set<EndpointId>, from: SignalId, to: SignalId) {
    exists p :: p in ps && p.entity < |entities| && RenameAt(entities[p.entity], p, from, to).Failure?
  }

  /** After a rename, every renamed network and endpoint carries `to` and no
      longer carries `from` (unless the two are the same signal), and the
      others are unchanged. */
  lemma RenameLeavesNoTrace(networks: map<NetId, Network>, ns: set<NetId>,
                            endpoints: map<EndpointId, Endpoint>, ps: set<EndpointId>,
                            from: SignalId, to: SignalId, n: NetId, p: EndpointId)
    ensures RenameNets(networks, ns, from, to).Keys == networks.Keys
    ensures RenameEndpoints(endpoints, ps, from, to).Keys == endpoints.Keys
    ensures n in networks && n in ns ==>
      var s := RenameNets(networks, ns, from, to)[n].signals;
      to in s && (from != to ==> from !in s) && s - {to} == networks[n].signals - {from, to}
    ensures n in networks && n !in ns ==> RenameNets(networks, ns, from, to)[n] == networks[n]
    ensures p in endpoints && p in ps ==>
      var s := RenameEndpoints(endpoints, ps, from, to)[p].outSignals;
      to in s && (from != to ==> from !in s) && s - {to} == endpoints[p].outSignals - {from, to}
    ensures p in endpoints && p !in ps ==> RenameEndpoints(endpoints, ps, from, to)[p] == endpoints[p]
  {
  }

  /** Points on an entity's input or output. */
  predicate OnPorts(ps: set<EndpointId>) {
    forall q :: q in ps ==> q.port == 1 || q.port == 2
  }

  /** The renames at the endpoints of `ps` each succeed on the original entities. */
  predicate AllRenamable(entities: seq<Entity>, ps: set<EndpointId>, from: SignalId, to: SignalId) {
    forall q :: q in ps ==> q.entity < |entities| && RenameAt(entities[q.entity], q, from, to).Success?
  }

  /** Renaming at one more endpoint p, on the entities already renamed at
      `done`: it fails exactly when it fails on the original entity, and
      otherwise the result is the rename at `done + {p}`. This is what lets
      `changeSignal` visit its endpoints in any order. */
  lemma RenameEntitiesStep(e0: seq<Entity>, done: set<EndpointId>, p: EndpointId, from: SignalId, to: SignalId)
    requires p !in done && p.entity < |e0| && OnPorts(done + {p})
    requires AllRenamable(e0, done, from, to)
    ensures var cur := RenameEntities(e0, done, from, to);
      && (RenameAt(cur[p.entity], p, from, to).Success? <==> RenameAt(e0[p.entity], p, from, to).Success?)
      && (RenameAt(e0[p.entity], p, from, to).Success? ==>
            RenameEntities(e0, done + {p}, from, to)
            == cur[p.entity := RenameAt(cur[p.entity], p, from, to).value])
  {
    var k := p.entity;
    var cur := RenameEntities(e0, done, from, to);
    var in1, out2 := EndpointId(k, 1), EndpointId(k, 2);
    RenameCommutes(e0[k], in1, out2, from, to);
    if in1 in done { assert RenameAt(e0[k], in1, from, to).Success?; }
    if out2 in done { assert RenameAt(e0[k], out2, from, to).Success?; }
    assert RenameEntity(e0[k], k, done, from, to).Success?;
    if RenameAt(e0[k], p, from, to).Success? {
      var next := RenameEntities(e0, done + {p}, from, to);
      forall j | 0 <= j < |e0|
        ensures next[j] == cur[k := RenameAt(cur[k], p, from, to).value][j]
      {
        if j != k {
          assert EndpointId(j, 1) in done + {p} <==> EndpointId(j, 1) in done;
          assert EndpointId(j, 2) in done + {p} <==> EndpointId(j, 2) in done;
        }
      }
    }
  }

  /** Renaming one more endpoint p of the table, after those of `done`. */
  lemma RenameEndpointsStep(endpoints0: map<EndpointId, Endpoint>, done: set<EndpointId>, p: EndpointId,
                            from: SignalId, to: SignalId)
    requires p in endpoints0 && p !in done
    ensures var cur := RenameEndpoints(endpoints0, done, from, to);
      RenameEndpoints(endpoints0, done + {p}, from, to) == cur[p := RenameEndpoint(cur[p], from, to)]
  {
  }
}
