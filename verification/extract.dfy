/** `extractSignalGroups` (src/optimization/groups.ts): one GroupCollection
    per signal identity, built in two passes over the entities. Phase 1
    seeds, for every signal an entity produces, a group holding its output
    endpoint and the networks on that output. Phase 2 merges, per operand
    signal of every decider and arithmetic combinator, the groups of the
    networks on its input, and joins a pass-through decider's input and
    output groups. The value-level meaning is `Extracted`; the methods
    update GroupCollection objects and are proved to compute it. */
module Extract {
  import opened Wrappers
  import opened Wiring
  import opened Entities
  import opened Groups

  /** Why extraction aborts (the source fails with a type error). */
  datatype ExtractError =
    | MissingSignal(signal: SignalId)  // an operand signal for which no collection exists
    | MissingGroup(entity: EntityId)   // a pass-through decider whose output has no group

  /** The collections by signal, as values. */
  type Signals = map<SignalId, Collection>

  predicate AllAllocated(m: Signals) {
    forall s :: s in m ==> Allocated(m[s])
  }

  predicate AllCoherent(m: Signals) {
    forall s :: s in m ==> Coherent(m[s])
  }

  /** The red and green networks at endpoint p (none for an absent endpoint). */
  function NetsAt(endpoints: map<EndpointId, Endpoint>, p: EndpointId): (Option<NetId>, Option<NetId>) {
    if p in endpoints then (endpoints[p].red, endpoints[p].green) else (None, None)
  }

  /** The operand signals of a decider's or arithmetic combinator's input. */
  function Operands(e: Entity): (Option<SignalId>, Option<SignalId>) {
    match e
    case DeciderEntity(d) => (Some(d.first_signal), d.second_signal)
    case ArithmeticEntity(a) => (a.first_signal, a.second_signal)
    case _ => (None, None)
  }

  // ---------------------------------------------------------------- Phase 1

  /** The group `processSignal` seeds in collection c for networks red and
      green: the merge of their groups when both have one, else the one
      found, else a new group. */
  function SeedTarget(c: Collection, red: Option<NetId>, green: Option<NetId>): (r: (Collection, GroupId))
    requires Allocated(c)
    ensures Allocated(r.0) && r.1 < |r.0.store|
  {
    var rg, gg := Find(c, red), Find(c, green);
    if rg.Some? && gg.Some? then Merged(c, rg.value, gg.value)
    else if rg.Some? then (c, rg.value)
    else if gg.Some? then (c, gg.value)
    else WithNewGroup(c)
  }

  /** `processSignal` for output endpoint `out` with networks red and green,
      in collection c: the seeded group receives the endpoint and both
      networks. */
  function Seeded(c: Collection, out: EndpointId, red: Option<NetId>, green: Option<NetId>): (r: Collection)
    requires Allocated(c)
    ensures Allocated(r)
  {
    var (c1, g) := SeedTarget(c, red, green);
    WithNet(WithNet(WithPoint(c1, g, out), g, red), g, green)
  }

  /** `processSignal(s)`: `getGroup(s)` then Seeded. */
  function Produce(m: Signals, s: SignalId, out: EndpointId, red: Option<NetId>, green: Option<NetId>): (r: Signals)
    requires AllAllocated(m)
    ensures AllAllocated(r) && r.Keys == m.Keys + {s}
  {
    m[s := Seeded(if s in m then m[s] else NoGroups, out, red, green)]
  }

  /** processSignal for each of `sigs`, in order. */
  function ProduceAll(m: Signals, sigs: seq<SignalId>, out: EndpointId, red: Option<NetId>, green: Option<NetId>)
    : (r: Signals)
    requires AllAllocated(m)
    ensures AllAllocated(r)
    decreases |sigs|
  {
    if sigs == [] then m
    else Produce(ProduceAll(m, sigs[..|sigs| - 1], out, red, green), sigs[|sigs| - 1], out, red, green)
  }

  /** The collections after phase 1 has visited the first k entities. */
  function Phase1(entities: seq<Entity>, endpoints: map<EndpointId, Endpoint>, k: nat): (r: Signals)
    requires k <= |entities|
    ensures AllAllocated(r)
  {
    if k == 0 then map[]
    else
      var e := entities[k - 1];
      var out := OutputOf(k - 1, e);
      var (red, green) := NetsAt(endpoints, out);
      ProduceAll(Phase1(entities, endpoints, k - 1), Produced(e), out, red, green)
  }

  // ---------------------------------------------------------------- Phase 2

  /** `mergeInput` on collection c for an input with networks red and green:
      the merge of both groups when both networks have one, else the group
      of the one that has, else none. */
  function InputMerged(c: Collection, red: Option<NetId>, green: Option<NetId>): (r: (Collection, Option<GroupId>))
    requires Allocated(c)
    ensures Allocated(r.0) && (r.1.Some? ==> r.1.value < |r.0.store|)
  {
    var rg, gg := Find(c, red), Find(c, green);
    if rg.Some? && gg.Some? then
      var (c1, g) := Merged(c, rg.value, gg.value);
      (c1, Some(g))
    else (c, if rg.Some? then rg else gg)
  }

  /** One concrete operand signal: mergeInput in its collection, then the
      input endpoint joins the resulting group. No collection for it aborts. */
  function OperandMerged(m: Signals, s: Option<SignalId>, input: EndpointId, red: Option<NetId>, green: Option<NetId>)
    : (r: Result<Signals, ExtractError>)
    requires AllAllocated(m)
    ensures r.Success? ==> AllAllocated(r.value) && r.value.Keys == m.Keys
  {
    if s.None? then Success(m)
    else if s.value !in m then Failure(MissingSignal(s.value))
    else
      var (c, g) := InputMerged(m[s.value], red, green);
      Success(m[s.value := if g.Some? then WithPoint(c, g.value, input) else c])
  }

  /** A decider that copies its input count: mergeInput in the collection of
      its output signal, then the group found there is merged with the group
      of its output network (red if wired, else green); no output group then
      aborts. */
  function PassedThrough(m: Signals, k: EntityId, e: Entity, red: Option<NetId>, green: Option<NetId>,
                         out: Option<NetId>): (r: Result<Signals, ExtractError>)
    requires AllAllocated(m)
    ensures r.Success? ==> AllAllocated(r.value) && r.value.Keys == m.Keys
  {
    if !(e.DeciderEntity? && e.params.copy_count_from_input) then Success(m)
    else
      var s := e.params.output_signal;
      if s !in m then Failure(MissingSignal(s))
      else
        var (c, g) := InputMerged(m[s], red, green);
        var why := Find(c, out);
        if g.None? then Success(m[s := c])
        else if why.None? then Failure(MissingGroup(k))
        else Success(m[s := Merged(c, why.value, g.value).0])
  }

  /** A wildcard operand: mergeInput in every collection. */
  function EveryMerged(m: Signals, red: Option<NetId>, green: Option<NetId>): (r: Signals)
    requires AllAllocated(m)
    ensures AllAllocated(r) && r.Keys == m.Keys
  {
    map s | s in m :: InputMerged(m[s], red, green).0
  }

  /** Phase 2 on entity k. */
  function InputsMerged(m: Signals, k: EntityId, e: Entity, endpoints: map<EndpointId, Endpoint>)
    : (r: Result<Signals, ExtractError>)
    requires AllAllocated(m)
    ensures r.Success? ==> AllAllocated(r.value) && r.value.Keys == m.Keys
  {
    if !(e.DeciderEntity? || e.ArithmeticEntity?) then Success(m)
    else
      var input := InputOf(k, e);
      var (red, green) := NetsAt(endpoints, input);
      var (first, second) := Operands(e);
      if first == Some(Each) || second == Some(Each) then Success(EveryMerged(m, red, green))
      else OperandsMerged(m, k, e, endpoints)
  }

  /** Phase 2 on entity k when no operand is the wildcard: each operand in
      turn, then the pass-through join. */
  function OperandsMerged(m: Signals, k: EntityId, e: Entity, endpoints: map<EndpointId, Endpoint>)
    : (r: Result<Signals, ExtractError>)
    requires AllAllocated(m)
    ensures r.Success? ==> AllAllocated(r.value) && r.value.Keys == m.Keys
  {
    var input := InputOf(k, e);
    var (red, green) := NetsAt(endpoints, input);
    var (first, second) := Operands(e);
    var r1 := OperandMerged(m, first, input, red, green);
    if r1.Failure? then r1
    else
      var r2 := OperandMerged(r1.value, second, input, red, green);
      if r2.Failure? then r2
      else
        var (ored, ogreen) := NetsAt(endpoints, OutputOf(k, e));
        PassedThrough(r2.value, k, e, red, green, if ored.Some? then ored else ogreen)
  }

  /** The collections after phase 2 has visited the first k entities,
      starting from m; the first failure aborts. */
  function Phase2(m: Signals, entities: seq<Entity>, endpoints: map<EndpointId, Endpoint>, k: nat)
    : (r: Result<Signals, ExtractError>)
    requires AllAllocated(m) && k <= |entities|
    ensures r.Success? ==> AllAllocated(r.value) && r.value.Keys == m.Keys
  {
    if k == 0 then Success(m)
    else
      var r := Phase2(m, entities, endpoints, k - 1);
      if r.Failure? then r else InputsMerged(r.value, k - 1, entities[k - 1], endpoints)
  }

  /** The whole pass. */
  function Extracted(entities: seq<Entity>, endpoints: map<EndpointId, Endpoint>): Result<Signals, ExtractError> {
    var m := Phase1(entities, endpoints, |entities|);
    Phase2(m, entities, endpoints, |entities|)
  }

  // ---------------------------------------------------------------- Methods

  /** The collection objects hold the states m, signal by signal. */
  ghost predicate Models(groups: map<SignalId, GroupCollection>, m: Signals)
    reads set s | s in groups :: groups[s]
  {
    groups.Keys == m.Keys && forall s :: s in groups ==> groups[s].State() == m[s]
  }

  /** When only collection s has changed, the objects hold m with s's new state. */
  lemma ModelsUpdate(groups: map<SignalId, GroupCollection>, m: Signals, s: SignalId)
    requires s in groups && groups.Keys == m.Keys
    requires forall t :: t in groups && t != s ==> groups[t].State() == m[t]
    ensures Models(groups, m[s := groups[s].State()])
  {
  }

  /** Distinct signals have distinct collections. */
  ghost predicate Separate(groups: map<SignalId, GroupCollection>) {
    forall s, t :: s in groups && t in groups && s != t ==> groups[s] != groups[t]
  }

  /** `processSignal`'s body on the collection c it got. */
  method ProcessSignal(c: GroupCollection, out: EndpointId, red: Option<NetId>, green: Option<NetId>)
    requires Allocated(c.State())
    modifies c
    ensures c.State() == Seeded(old(c.State()), out, red, green)
  {
    var rGroup := c.Lookup(red);
    var gGroup := c.Lookup(green);
    var g: GroupId;
    if rGroup.Some? && gGroup.Some? {
      g := c.Merge(rGroup.value, gGroup.value);
    } else if rGroup.Some? {
      g := rGroup.value;
    } else if gGroup.Some? {
      g := gGroup.value;
    } else {
      g := c.NewGroup();
    }
    c.AddPoint(g, out);
    c.AddNet(g, red);
    c.AddNet(g, green);
  }

  /** `getGroup(s)` then processSignal: the collection of s, created empty if
      missing, is seeded with the output endpoint. */
  method ProduceSignal(groups: map<SignalId, GroupCollection>, ghost m: Signals, s: SignalId, out: EndpointId,
                       red: Option<NetId>, green: Option<NetId>)
    returns (groups': map<SignalId, GroupCollection>)
    requires Separate(groups) && Models(groups, m) && AllAllocated(m)
    modifies set t | t in groups :: groups[t]
    ensures Separate(groups') && Models(groups', Produce(m, s, out, red, green))
    ensures forall t :: t in groups' ==> (t in groups && groups'[t] == groups[t]) || fresh(groups'[t])
  {
    var c: GroupCollection;
    if s in groups {
      c := groups[s];
      groups' := groups;
    } else {
      c := new GroupCollection();
      groups' := groups[s := c];
    }
    ProcessSignal(c, out, red, green);
    forall t | t in groups' && t != s
      ensures groups'[t].State() == m[t]
    {
      assert groups'[t] == groups[t] != c;
    }
  }

  /** The state of phase 1 after the first k entities. */
  ghost predicate SeededTo(groups: map<SignalId, GroupCollection>, circuit: Circuit, k: nat)
    requires k <= |circuit.entities|
    reads circuit, set s | s in groups :: groups[s]
  {
    Separate(groups) && Models(groups, Phase1(circuit.entities, circuit.endpoints, k))
  }

  /** Phase 1: every entity's produced signals, in order. */
  method SeedGroups(circuit: Circuit) returns (groups: map<SignalId, GroupCollection>)
    ensures forall s :: s in groups ==> fresh(groups[s])
    ensures SeededTo(groups, circuit, |circuit.entities|)
  {
    groups := map[];
    for k := 0 to |circuit.entities|
      invariant forall s :: s in groups ==> fresh(groups[s])
      invariant SeededTo(groups, circuit, k)
    {
      groups := SeedEntity(circuit, groups, k);
    }
  }

  /** Phase 1 on entity k: processSignal for each signal it produces (a
      constant's filter signals in order, a decider's or arithmetic
      combinator's output signal). */
  method SeedEntity(circuit: Circuit, groups: map<SignalId, GroupCollection>, k: nat)
    returns (groups': map<SignalId, GroupCollection>)
    requires k < |circuit.entities| && SeededTo(groups, circuit, k)
    modifies set t | t in groups :: groups[t]
    ensures forall t :: t in groups' ==> (t in groups && groups'[t] == groups[t]) || fresh(groups'[t])
    ensures SeededTo(groups', circuit, k + 1)
  {
    var e := circuit.entities[k];
    var out := OutputOf(k, e);
    var (red, green) := NetsAt(circuit.endpoints, out);
    var sigs := Produced(e);
    ghost var m0 := Phase1(circuit.entities, circuit.endpoints, k);
    assert sigs[..0] == [];
    groups' := groups;
    for i := 0 to |sigs|
      invariant Separate(groups') && Models(groups', ProduceAll(m0, sigs[..i], out, red, green))
      invariant forall t :: t in groups' ==> (t in groups && groups'[t] == groups[t]) || fresh(groups'[t])
    {
      groups' := SeedNext(groups', m0, sigs, i, out, red, green);
    }
    assert sigs[..|sigs|] == sigs;
    assert Phase1(circuit.entities, circuit.endpoints, k + 1) == ProduceAll(m0, sigs, out, red, green);
  }

  /** processSignal for the produced signal i of an entity with output
      endpoint `out` on networks red and green. */
  method SeedNext(groups: map<SignalId, GroupCollection>, ghost m0: Signals, sigs: seq<SignalId>, i: nat,
                  out: EndpointId, red: Option<NetId>, green: Option<NetId>)
    returns (groups': map<SignalId, GroupCollection>)
    requires i < |sigs| && AllAllocated(m0)
    requires Separate(groups) && Models(groups, ProduceAll(m0, sigs[..i], out, red, green))
    modifies set t | t in groups :: groups[t]
    ensures Separate(groups') && Models(groups', ProduceAll(m0, sigs[..i + 1], out, red, green))
    ensures forall t :: t in groups' ==> (t in groups && groups'[t] == groups[t]) || fresh(groups'[t])
  {
    ghost var m := ProduceAll(m0, sigs[..i], out, red, green);
    assert sigs[..i + 1][..i] == sigs[..i];
    assert ProduceAll(m0, sigs[..i + 1], out, red, green) == Produce(m, sigs[i], out, red, green);
    groups' := ProduceSignal(groups, m, sigs[i], out, red, green);
  }

  /** `mergeInput`'s body on the collection c of its signal. */
  method MergeInput(c: GroupCollection, red: Option<NetId>, green: Option<NetId>) returns (g: Option<GroupId>)
    requires Allocated(c.State())
    modifies c
    ensures (c.State(), g) == InputMerged(old(c.State()), red, green)
  {
    var rGroup := c.Lookup(red);
    var gGroup := c.Lookup(green);
    if rGroup.Some? && gGroup.Some? {
      var merged := c.Merge(rGroup.value, gGroup.value);
      g := Some(merged);
    } else {
      g := if rGroup.Some? then rGroup else gGroup;
    }
  }

  /** The wildcard branch: mergeInput in the collection of every signal. */
  method MergeEvery(groups: map<SignalId, GroupCollection>, ghost m: Signals, red: Option<NetId>, green: Option<NetId>)
    requires Separate(groups) && Models(groups, m) && AllAllocated(m)
    modifies set t | t in groups :: groups[t]
    ensures Models(groups, EveryMerged(m, red, green))
  {
    var left := groups.Keys;
    while left != {}
      invariant left <= groups.Keys
      invariant forall s :: s in groups ==> groups[s].State() == if s in left then m[s] else InputMerged(m[s], red, green).0
      decreases left
    {
      var s :| s in left;
      label Step:
      var g := MergeInput(groups[s], red, green);
      forall t | t in groups
        ensures groups[t].State() == if t in left - {s} then m[t] else InputMerged(m[t], red, green).0
      {
        if t != s {
          assert groups[t] != groups[s];
          assert groups[t].State() == old@Step(groups[t].State());
        }
      }
      left := left - {s};
    }
  }

  /** One concrete operand: mergeInput, then `?.points.add(input)`. */
  method MergeOperand(groups: map<SignalId, GroupCollection>, ghost m: Signals, s: Option<SignalId>,
                      input: EndpointId, red: Option<NetId>, green: Option<NetId>) returns (r: Outcome<ExtractError>)
    requires Separate(groups) && Models(groups, m) && AllAllocated(m)
    modifies set t | t in groups :: groups[t]
    ensures var x := OperandMerged(m, s, input, red, green);
      && (r.Pass? <==> x.Success?)
      && (r.Pass? ==> Models(groups, x.value))
      && (r.Fail? ==> r.error == x.error)
  {
    if s.None? {
      return Pass;
    }
    if s.value !in groups {
      return Fail(MissingSignal(s.value));
    }
    var c := groups[s.value];
    ghost var merged := InputMerged(m[s.value], red, green);
    var g := MergeInput(c, red, green);
    assert (c.State(), g) == merged;
    if g.Some? {
      c.AddPoint(g.value, input);
    }
    forall t | t in groups && t != s.value
      ensures groups[t].State() == m[t]
    {
      assert groups[t] != c;
    }
    assert OperandMerged(m, s, input, red, green) == Success(m[s.value := c.State()]);
    ModelsUpdate(groups, m, s.value);
    r := Pass;
  }

  /** The pass-through branch for a decider that copies its input count. */
  method MergePassThrough(groups: map<SignalId, GroupCollection>, ghost m: Signals, k: EntityId, e: Entity,
                          red: Option<NetId>, green: Option<NetId>, out: Option<NetId>)
    returns (r: Outcome<ExtractError>)
    requires Separate(groups) && Models(groups, m) && AllAllocated(m)
    modifies set t | t in groups :: groups[t]
    ensures var x := PassedThrough(m, k, e, red, green, out);
      && (r.Pass? <==> x.Success?)
      && (r.Pass? ==> Models(groups, x.value))
      && (r.Fail? ==> r.error == x.error)
  {
    if !(e.DeciderEntity? && e.params.copy_count_from_input) {
      return Pass;
    }
    var s := e.params.output_signal;
    if s !in groups {
      return Fail(MissingSignal(s));
    }
    var c := groups[s];
    var g := MergeInput(c, red, green);
    var why := c.Lookup(out);
    if g.Some? {
      if why.None? {
        return Fail(MissingGroup(k));
      }
      var merged := c.Merge(why.value, g.value);
    }
    forall t | t in groups && t != s
      ensures groups[t].State() == m[t]
    {
      assert groups[t] != c;
    }
    ModelsUpdate(groups, m, s);
    r := Pass;
  }

  /** Phase 2 on entity k. */
  method MergeEntityInputs(circuit: Circuit, groups: map<SignalId, GroupCollection>, ghost m: Signals, k: nat)
    returns (r: Outcome<ExtractError>)
    requires k < |circuit.entities|
    requires Separate(groups) && Models(groups, m) && AllAllocated(m)
    modifies set t | t in groups :: groups[t]
    ensures var x := InputsMerged(m, k, circuit.entities[k], circuit.endpoints);
      && (r.Pass? <==> x.Success?)
      && (r.Pass? ==> Models(groups, x.value))
      && (r.Fail? ==> r.error == x.error)
  {
    var e := circuit.entities[k];
    if !(e.DeciderEntity? || e.ArithmeticEntity?) {
      return Pass;
    }
    var input := InputOf(k, e);
    var (red, green) := NetsAt(circuit.endpoints, input);
    var (first, second) := Operands(e);
    if first == Some(Each) || second == Some(Each) {
      MergeEvery(groups, m, red, green);
      return Pass;
    }
    r := MergeOperands(circuit, groups, m, k);
  }

  /** Phase 2 on entity k when no operand is the wildcard. */
  method MergeOperands(circuit: Circuit, groups: map<SignalId, GroupCollection>, ghost m: Signals, k: nat)
    returns (r: Outcome<ExtractError>)
    requires k < |circuit.entities|
    requires Separate(groups) && Models(groups, m) && AllAllocated(m)
    modifies set t | t in groups :: groups[t]
    ensures var x := OperandsMerged(m, k, circuit.entities[k], circuit.endpoints);
      && (r.Pass? <==> x.Success?)
      && (r.Pass? ==> Models(groups, x.value))
      && (r.Fail? ==> r.error == x.error)
  {
    var e := circuit.entities[k];
    var input := InputOf(k, e);
    var (red, green) := NetsAt(circuit.endpoints, input);
    var (first, second) := Operands(e);
    r := MergeOperand(groups, m, first, input, red, green);
    if r.Fail? {
      return;
    }
    ghost var m1 := OperandMerged(m, first, input, red, green).value;
    r := MergeOperand(groups, m1, second, input, red, green);
    if r.Fail? {
      return;
    }
    ghost var m2 := OperandMerged(m1, second, input, red, green).value;
    var (ored, ogreen) := NetsAt(circuit.endpoints, OutputOf(k, e));
    r := MergePassThrough(groups, m2, k, e, red, green, if ored.Some? then ored else ogreen);
  }

  /** The state of phase 2, started from m, after the first k entities. */
  ghost predicate MergedTo(groups: map<SignalId, GroupCollection>, m: Signals, circuit: Circuit, k: nat)
    requires AllAllocated(m) && k <= |circuit.entities|
    reads circuit, set s | s in groups :: groups[s]
  {
    var r := Phase2(m, circuit.entities, circuit.endpoints, k);
    Separate(groups) && r.Success? && Models(groups, r.value)
  }

  /** Phase 2 on entity k, as a step of the whole pass: a failure here is
      the failure of the pass. */
  method MergeStep(circuit: Circuit, groups: map<SignalId, GroupCollection>, ghost m: Signals, k: nat)
    returns (r: Outcome<ExtractError>)
    requires AllAllocated(m) && k < |circuit.entities| && MergedTo(groups, m, circuit, k)
    modifies set t | t in groups :: groups[t]
    ensures r.Pass? ==> MergedTo(groups, m, circuit, k + 1)
    ensures var x := Phase2(m, circuit.entities, circuit.endpoints, |circuit.entities|);
      r.Fail? ==> x.Failure? && r.error == x.error
  {
    r := MergeEntityInputs(circuit, groups, Phase2(m, circuit.entities, circuit.endpoints, k).value, k);
    if r.Fail? {
      FailureStays(m, circuit.entities, circuit.endpoints, k + 1);
    }
  }

  /** `extractSignalGroups(entities)`: phase 1, then phase 2; a failure aborts. */
  method ExtractSignalGroups(circuit: Circuit) returns (r: Result<map<SignalId, GroupCollection>, ExtractError>)
    ensures r.Success? <==> Extracted(circuit.entities, circuit.endpoints).Success?
    ensures r.Success? ==> Models(r.value, Extracted(circuit.entities, circuit.endpoints).value)
    ensures r.Failure? ==> r.error == Extracted(circuit.entities, circuit.endpoints).error
  {
    var groups := SeedGroups(circuit);
    ghost var m := Phase1(circuit.entities, circuit.endpoints, |circuit.entities|);
    for k := 0 to |circuit.entities|
      invariant forall s :: s in groups ==> fresh(groups[s])
      invariant MergedTo(groups, m, circuit, k)
    {
      var step := MergeStep(circuit, groups, m, k);
      if step.Fail? {
        return Failure(step.error);
      }
    }
    r := Success(groups);
  }

  /** Once phase 2 fails, it stays failed with the same error. */
  lemma {:induction false} FailureStays(m: Signals, entities: seq<Entity>, endpoints: map<EndpointId, Endpoint>, k: nat)
    requires AllAllocated(m) && k <= |entities| && Phase2(m, entities, endpoints, k).Failure?
    ensures Phase2(m, entities, endpoints, |entities|).Failure?
    ensures Phase2(m, entities, endpoints, |entities|).error == Phase2(m, entities, endpoints, k).error
    decreases |entities| - k
  {
    if k < |entities| {
      FailureStays(m, entities, endpoints, k + 1);
    }
  }
}
