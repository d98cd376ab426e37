/** The per-signal grouping structure of the optimiser
    (src/optimization/groups.ts): a `Group` gathers the endpoints and
    networks that interact through one signal identity, and a
    `GroupCollection` holds the live groups of one signal with a map from
    each network to its current group. Groups are kept in a per-collection
    store and named by their index there, so that a superseded group keeps
    its identity but is no longer live. */
module Groups {
  import opened Wrappers
  import opened Wiring
  import opened Entities
  import opened Rename

  type GroupId = nat

  /** A group: its member endpoints and its member networks. */
  datatype Group = Group(points: set<EndpointId>, nets: set<NetId>)

  /** `Group.merge(a, b)`: a new group holding both groups' members. */
  function MergeGroups(a: Group, b: Group): Group {
    Group(a.points + b.points, a.nets + b.nets)
  }

  /** A merged group loses no member and gains none; merging is symmetric and
      a group merged with itself is unchanged. */
  lemma MergeGroupsMembers(a: Group, b: Group, p: EndpointId, n: NetId)
    ensures p in MergeGroups(a, b).points <==> p in a.points || p in b.points
    ensures n in MergeGroups(a, b).nets <==> n in a.nets || n in b.nets
    ensures MergeGroups(a, b) == MergeGroups(b, a) && MergeGroups(a, a) == a
  {
  }

  /** The state of one collection: every group created so far (by id), the
      live ids, and the group each network currently belongs to. */
  datatype Collection = Collection(store: seq<Group>, live: set<GroupId>, nets: map<NetId, GroupId>)

  const NoGroups := Collection([], {}, map[])

  /** Every network maps to a group that exists. */
  predicate Allocated(c: Collection) {
    forall n :: n in c.nets ==> c.nets[n] < |c.store|
  }

  /** The collection's invariant: live groups exist, every mapped network
      points at a live group that lists it, and every network a live group
      lists is mapped to that group (so live groups share no network). */
  predicate Coherent(c: Collection) {
    && (forall g :: g in c.live ==> g < |c.store|)
    && (forall n :: n in c.nets ==> c.nets[n] in c.live && n in c.store[c.nets[n]].nets)
    && (forall g, n :: g < |c.store| && g in c.live && n in c.store[g].nets ==> n in c.nets && c.nets[n] == g)
  }

  lemma CoherentAllocated(c: Collection)
    requires Coherent(c)
    ensures Allocated(c)
  {
  }

  /** `nets.get(n)`, none for an absent network. */
  function Find(c: Collection, n: Option<NetId>): Option<GroupId> {
    if n.Some? && n.value in c.nets then Some(c.nets[n.value]) else None
  }

  /** The network map with every network of `ns` pointing at g. */
  function Repoint(nets: map<NetId, GroupId>, ns: set<NetId>, g: GroupId): map<NetId, GroupId> {
    map n | n in nets.Keys + ns :: if n in ns then g else nets[n]
  }

  /** `GroupCollection.merge(a, b)`: the same group when a is b; otherwise a
      and b stop being live, and a new live group holding both is appended
      and every network of either is pointed at it. Returns the collection
      and the resulting group. */
  function Merged(c: Collection, a: GroupId, b: GroupId): (r: (Collection, GroupId))
    requires Allocated(c) && a < |c.store| && b < |c.store|
    ensures Allocated(r.0) && r.1 < |r.0.store| && |c.store| <= |r.0.store|
    ensures c.store <= r.0.store
  {
    if a == b then (c, a)
    else
      var m := MergeGroups(c.store[a], c.store[b]);
      var g := |c.store|;
      (Collection(c.store + [m], c.live - {a, b} + {g}, Repoint(c.nets, m.nets, g)), g)
  }

  /** Merging a group with itself changes nothing. */
  lemma MergeSelf(c: Collection, a: GroupId)
    requires Allocated(c) && a < |c.store|
    ensures Merged(c, a, a) == (c, a)
  {
  }

  /** Merging two distinct live groups of a coherent collection: neither stays
      live, the new group is live and holds exactly the union of their
      endpoints and networks, each of their networks now maps to it, every
      other network keeps its group, and no network is added or lost. */
  lemma {:induction false} MergeOutcome(c: Collection, a: GroupId, b: GroupId, n: NetId)
    requires Coherent(c) && a in c.live && b in c.live && a != b
    ensures
      var (c', g) := Merged(c, a, b);
      && c'.live == c.live - {a, b} + {g}
      && a !in c'.live && b !in c'.live && g in c'.live
      && c'.store[g].points == c.store[a].points + c.store[b].points
      && c'.store[g].nets == c.store[a].nets + c.store[b].nets
      && c'.nets.Keys == c.nets.Keys
      && (n in c.store[a].nets || n in c.store[b].nets ==> c'.nets[n] == g)
      && (n in c.nets && n !in c.store[a].nets && n !in c.store[b].nets ==> c'.nets[n] == c.nets[n])
  {
    var (c', g) := Merged(c, a, b);
    var m := MergeGroups(c.store[a], c.store[b]);
    assert m.nets <= c.nets.Keys by {
      forall x | x in m.nets ensures x in c.nets {
        if x in c.store[a].nets { assert c.nets[x] == a; } else { assert c.nets[x] == b; }
      }
    }
    assert c'.nets.Keys == c.nets.Keys + m.nets;
  }

  /** Merging two live groups keeps the collection coherent. */
  lemma {:induction false} MergeCoherent(c: Collection, a: GroupId, b: GroupId)
    requires Coherent(c) && a in c.live && b in c.live
    ensures Coherent(Merged(c, a, b).0)
    ensures Merged(c, a, b).1 in Merged(c, a, b).0.live
  {
    if a != b {
      var (c', g) := Merged(c, a, b);
      var m := MergeGroups(c.store[a], c.store[b]);
      assert c'.store[g] == m;
      forall n | n in c'.nets
        ensures c'.nets[n] in c'.live && n in c'.store[c'.nets[n]].nets
      {
        if n !in m.nets {
          var h := c.nets[n];
          assert h != a && h != b;
          assert c'.store[h] == c.store[h];
        }
      }
      forall h, n | h < |c'.store| && h in c'.live && n in c'.store[h].nets
        ensures n in c'.nets && c'.nets[n] == h
      {
        if h != g {
          assert c'.store[h] == c.store[h];
          assert c.nets[n] == h;
          assert n !in c.store[a].nets && n !in c.store[b].nets;
        }
      }
    }
  }

  /** Two networks in the same group stay in the same group after a merge,
      and after merging distinct groups a and b, a network of a and a network
      of b are in the same group. */
  lemma {:induction false} MergeJoins(c: Collection, a: GroupId, b: GroupId, x: NetId, y: NetId)
    requires Coherent(c) && a in c.live && b in c.live
    ensures x in c.nets && y in c.nets && c.nets[x] == c.nets[y] ==>
      var c' := Merged(c, a, b).0; x in c'.nets && y in c'.nets && c'.nets[x] == c'.nets[y]
    ensures x in c.store[a].nets && y in c.store[b].nets ==>
      var c' := Merged(c, a, b).0; x in c'.nets && y in c'.nets && c'.nets[x] == c'.nets[y]
  {
    if a != b {
      MergeOutcome(c, a, b, x);
      MergeOutcome(c, a, b, y);
      if x in c.nets && y in c.nets && c.nets[x] == c.nets[y] {
        var h := c.nets[x];
        assert x in c.store[h].nets && y in c.store[h].nets;
        assert x in c.store[a].nets <==> h == a;
        assert x in c.store[b].nets <==> h == b;
        assert y in c.store[a].nets <==> h == a;
        assert y in c.store[b].nets <==> h == b;
      }
    }
  }

  /** `new Group()` added to `groups`: a new empty live group. */
  function WithNewGroup(c: Collection): (r: (Collection, GroupId))
    ensures r.1 == |c.store| && |r.0.store| == |c.store| + 1
  {
    (Collection(c.store + [Group({}, {})], c.live + {|c.store|}, c.nets), |c.store|)
  }

  /** `g.points.add(p)`. */
  function WithPoint(c: Collection, g: GroupId, p: EndpointId): Collection
    requires g < |c.store|
  {
    c.(store := c.store[g := c.store[g].(points := c.store[g].points + {p})])
  }

  /** `nets.set(n, g)` and `g.nets.add(n)`, when the network is present. */
  function WithNet(c: Collection, g: GroupId, n: Option<NetId>): Collection
    requires g < |c.store|
  {
    if n.None? then c
    else Collection(c.store[g := c.store[g].(nets := c.store[g].nets + {n.value})], c.live, c.nets[n.value := g])
  }

  /** One collection of the optimiser, updated in place. */
  class GroupCollection {
    var store: seq<Group>
    var groups: set<GroupId>
    var nets: map<NetId, GroupId>

    function State(): Collection
      reads this
    {
      Collection(store, groups, nets)
    }

    /** The collection's invariant (see Coherent). */
    predicate Valid()
      reads this
    {
      Coherent(State())
    }

    constructor ()
      ensures State() == NoGroups && Valid()
    {
      store, groups, nets := [], {}, map[];
    }

    /** `nets.get(n)`. */
    function Lookup(n: Option<NetId>): (r: Option<GroupId>)
      reads this
      ensures r.None? <==> n.None? || n.value !in nets
      ensures Valid() && r.Some? ==> r.value in groups && r.value < |store| && n.value in store[r.value].nets
    {
      if n.Some? && n.value in nets then Some(nets[n.value]) else None
    }

    /** `merge(a, b)`: the bookkeeping of Merged, pointing the merged group's
        networks at it one at a time. */
    method Merge(a: GroupId, b: GroupId) returns (g: GroupId)
      requires Allocated(State()) && a < |store| && b < |store|
      modifies this
      ensures (State(), g) == Merged(old(State()), a, b)
    {
      if a == b {
        return a;
      }
      groups := groups - {a} - {b};
      var m := MergeGroups(store[a], store[b]);
      g := |store|;
      store := store + [m];
      ghost var nets0 := nets;
      var left := m.nets;
      while left != {}
        invariant left <= m.nets && store == old(store) + [m] && groups == old(groups) - {a} - {b}
        invariant nets == Repoint(nets0, m.nets - left, g)
        decreases left
      {
        var n :| n in left;
        nets := nets[n := g];
        left := left - {n};
      }
      assert m.nets - left == m.nets;
      groups := groups + {g};
      assert groups == old(groups) - {a, b} + {g};
      assert nets == Repoint(nets0, m.nets, g);
      assert State() == Merged(old(State()), a, b).0;
    }

    /** `g = new Group(); groups.add(g)`. */
    method NewGroup() returns (g: GroupId)
      modifies this
      ensures (State(), g) == WithNewGroup(old(State()))
    {
      g := |store|;
      store := store + [Group({}, {})];
      groups := groups + {g};
    }

    /** `g.points.add(p)`. */
    method AddPoint(g: GroupId, p: EndpointId)
      requires g < |store|
      modifies this
      ensures State() == WithPoint(old(State()), g, p)
    {
      store := store[g := store[g].(points := store[g].points + {p})];
    }

    /** `nets.set(n, g); g.nets.add(n)` for a present network. */
    method AddNet(g: GroupId, n: Option<NetId>)
      requires g < |store|
      modifies this
      ensures State() == WithNet(old(State()), g, n)
    {
      if n.Some? {
        nets := nets[n.value := g];
        store := store[g := store[g].(nets := store[g].nets + {n.value})];
      }
    }

    /** `changeSignal(group, from, to)`: the group stops being live and its
        networks leave the map; each of its networks then carries `to`
        instead of `from`, and each of its endpoints asserts `to` instead of
        `from` and has its entity's fields renamed (`_changeSignal`). A
        refused entity rename aborts with that endpoint's error. */
    method ChangeSignal(circuit: Circuit, group: GroupId, from: SignalId, to: SignalId)
      returns (r: Outcome<RenameError>)
      requires group < |store| && circuit.Valid()
      requires store[group].nets <= circuit.networks.Keys && store[group].points <= circuit.endpoints.Keys
      modifies this`groups, this`nets, circuit`networks, circuit`endpoints, circuit`entities
      ensures circuit.Valid()
      ensures groups == old(groups) - {group} && nets == old(nets) - store[group].nets
      ensures circuit.networks == RenameNets(old(circuit.networks), store[group].nets, from, to)
      ensures r.Fail? <==> RenameFails(old(circuit.entities), store[group].points, from, to)
      ensures r.Fail? ==>
        && r.error.point in store[group].points && r.error.point.entity < |old(circuit.entities)|
        && RenameAt(old(circuit.entities)[r.error.point.entity], r.error.point, from, to).Failure?
      ensures r.Pass? ==>
        && circuit.endpoints == RenameEndpoints(old(circuit.endpoints), store[group].points, from, to)
        && circuit.entities == RenameEntities(old(circuit.entities), store[group].points, from, to)
    {
      var g := store[group];
      groups := groups - {group};
      ghost var nets0, networks0 := nets, circuit.networks;
      var left := g.nets;
      while left != {}
        invariant left <= g.nets && store == old(store) && groups == old(groups) - {group}
        invariant circuit.entities == old(circuit.entities) && circuit.endpoints == old(circuit.endpoints)
        invariant nets == nets0 - (g.nets - left)
        invariant circuit.networks == RenameNets(networks0, g.nets - left, from, to)
        decreases left
      {
        var n :| n in left;
        nets := nets - {n};
        circuit.networks := circuit.networks[n := RenameNet(circuit.networks[n], from, to)];
        left := left - {n};
      }
      assert g.nets - left == g.nets;
      r := RenamePoints(circuit, g.points, from, to);
    }
  }

  /** The endpoint loop of `changeSignal`: each endpoint asserts `to` instead
      of `from`, then its entity is renamed; the first refused rename aborts. */
  method RenamePoints(circuit: Circuit, ps: set<EndpointId>, from: SignalId, to: SignalId)
    returns (r: Outcome<RenameError>)
    requires circuit.Valid() && ps <= circuit.endpoints.Keys
    modifies circuit`endpoints, circuit`entities
    ensures circuit.Valid()
    ensures r.Fail? <==> RenameFails(old(circuit.entities), ps, from, to)
    ensures r.Fail? ==>
      r.error.point in ps && r.error.point.entity < |old(circuit.entities)|
      && RenameAt(old(circuit.entities)[r.error.point.entity], r.error.point, from, to).Failure?
    ensures r.Pass? ==>
      && circuit.endpoints == RenameEndpoints(old(circuit.endpoints), ps, from, to)
      && circuit.entities == RenameEntities(old(circuit.entities), ps, from, to)
  {
    ghost var endpoints0, entities0 := circuit.endpoints, circuit.entities;
    forall q | q in ps ensures q.entity < |entities0| && (q.port == 1 || q.port == 2) {
      PortsExact(entities0, q);
    }
    var left := ps;
    while left != {}
      invariant left <= ps
      invariant PointsRenamed(circuit, endpoints0, entities0, ps, ps - left, from, to)
      decreases left
    {
      var p :| p in left;
      r := RenamePoint(circuit, endpoints0, entities0, ps, ps - left, p, from, to);
      if r.Fail? {
        return;
      }
      assert ps - (left - {p}) == (ps - left) + {p};
      left := left - {p};
    }
    r := Pass;
  }

  /** The circuit after renaming at the endpoints `done` of `ps`, each of which succeeded. */
  ghost predicate PointsRenamed(circuit: Circuit, endpoints0: map<EndpointId, Endpoint>, entities0: seq<Entity>,
                                ps: set<EndpointId>, done: set<EndpointId>, from: SignalId, to: SignalId)
    reads circuit
  {
    && circuit.Valid()
    && ps <= endpoints0.Keys
    && (forall q :: q in ps ==> q.entity < |entities0| && (q.port == 1 || q.port == 2))
    && done <= ps
    && circuit.endpoints == RenameEndpoints(endpoints0, done, from, to)
    && circuit.entities == RenameEntities(entities0, done, from, to)
    && AllRenamable(entities0, done, from, to)
  }

  /** One turn of the endpoint loop of `changeSignal`, at endpoint p. */
  method RenamePoint(circuit: Circuit, ghost endpoints0: map<EndpointId, Endpoint>, ghost entities0: seq<Entity>,
                     ghost ps: set<EndpointId>, ghost done: set<EndpointId>, p: EndpointId, from: SignalId, to: SignalId)
    returns (r: Outcome<RenameError>)
    requires PointsRenamed(circuit, endpoints0, entities0, ps, done, from, to)
    requires p in ps && p !in done
    modifies circuit`endpoints, circuit`entities
    ensures circuit.Valid()
    ensures r.Fail? ==> RenameAt(entities0[p.entity], p, from, to).Failure? && r.error.point == p
    ensures r.Pass? ==> PointsRenamed(circuit, endpoints0, entities0, ps, done + {p}, from, to)
  {
    RenameEntitiesStep(entities0, done, p, from, to);
    RenameEndpointsStep(endpoints0, done, p, from, to);
    circuit.endpoints := circuit.endpoints[p := RenameEndpoint(circuit.endpoints[p], from, to)];
    r := ChangeEntitySignal(circuit, p, from, to);
  }

  /** `_changeSignal(p, from, to)` on the entity owning endpoint p, in place. */
  method ChangeEntitySignal(circuit: Circuit, p: EndpointId, from: SignalId, to: SignalId)
    returns (r: Outcome<RenameError>)
    requires circuit.Valid() && p.entity < |circuit.entities|
    modifies circuit`entities
    ensures circuit.Valid()
    ensures r.Pass? <==> RenameAt(old(circuit.entities)[p.entity], p, from, to).Success?
    ensures r.Pass? ==>
      circuit.entities == old(circuit.entities)[p.entity := RenameAt(old(circuit.entities)[p.entity], p, from, to).value]
    ensures r.Fail? ==>
      circuit.entities == old(circuit.entities) && r.error == RenameAt(old(circuit.entities)[p.entity], p, from, to).error
  {
    var e := circuit.entities[p.entity];
    var renamed: Entity;
    match e {
      case DeciderEntity(d) =>
        if p.port == 1 {
          if d.first_signal == from {
            renamed := DeciderEntity(d.(first_signal := to));
          } else if d.second_signal == Some(from) {
            renamed := DeciderEntity(d.(second_signal := Some(to)));
          } else {
            return Fail(OperandMismatch(p));
          }
        } else {
          if d.output_signal != from {
            return Fail(OutputMismatch(p));
          }
          renamed := DeciderEntity(d.(output_signal := to));
        }
      case ArithmeticEntity(a) =>
        if p.port == 1 {
          if a.first_signal == Some(from) {
            renamed := ArithmeticEntity(a.(first_signal := Some(to)));
          } else if a.second_signal == Some(from) {
            renamed := ArithmeticEntity(a.(second_signal := Some(to)));
          } else {
            return Fail(OperandMismatch(p));
          }
        } else {
          if a.output_signal != from {
            return Fail(OutputMismatch(p));
          }
          renamed := ArithmeticEntity(a.(output_signal := to));
        }
      case ConstantEntity(fs, on) =>
        var filters := RenameEachFilter(fs, from, to);
        renamed := ConstantEntity(filters, on);
      case OtherEntity(_) =>
        return Fail(UnknownKind(p));
    }
    RenameAtMeaning(e, p, from, to, if p.port == 1 then 2 else 1);
    PortsSameKind(circuit.entities, p.entity, renamed);
    circuit.entities := circuit.entities[p.entity := renamed];
    r := Pass;
  }

  /** The constant branch of `_changeSignal`: every filter carrying `from` is
      given `to`, one filter at a time. */
  method RenameEachFilter(fs: seq<Constant.Filter>, from: SignalId, to: SignalId) returns (r: seq<Constant.Filter>)
    ensures r == RenameFilters(fs, from, to)
  {
    r := fs;
    for i := 0 to |fs|
      invariant |r| == |fs|
      invariant forall j :: 0 <= j < |fs| ==> r[j] == if j < i then RenameFilter(fs[j], from, to) else fs[j]
    {
      if r[i].signal == from {
        r := r[i := r[i].(signal := to)];
      }
    }
  }

  /** Dropping a live group from the live set and its networks from the map
      keeps a collection coherent: what `changeSignal` does to the collection. */
  lemma {:induction false} RetireCoherent(c: Collection, g: GroupId)
    requires Coherent(c) && g in c.live
    ensures Coherent(Collection(c.store, c.live - {g}, c.nets - c.store[g].nets))
  {
    var c' := Collection(c.store, c.live - {g}, c.nets - c.store[g].nets);
    forall n | n in c'.nets ensures c'.nets[n] in c'.live && n in c'.store[c'.nets[n]].nets {
      assert c.nets[n] != g;
    }
    forall h, n | h < |c'.store| && h in c'.live && n in c'.store[h].nets
      ensures n in c'.nets && c'.nets[n] == h
    {
      assert c.nets[n] == h;
      assert n !in c.store[g].nets;
    }
  }

  /** `addToSet(a, b)`: adds b's elements to a one at a time. */
  method AddToSet<T>(a: set<T>, b: set<T>) returns (r: set<T>)
    ensures r == a + b
  {
    r := a;
    var left := b;
    while left != {}
      invariant left <= b && r == a + (b - left)
      decreases left
    {
      var x :| x in left;
      r := r + {x};
      left := left - {x};
    }
  }

  /** The signals endpoint p contributes to a network's signals: those it
      asserts, and the output signal of a decider that copies its input
      count. */
  function PointSignals(entities: seq<Entity>, endpoints: map<EndpointId, Endpoint>, p: EndpointId): set<SignalId> {
    (if p in endpoints then endpoints[p].outSignals else {})
    + (if p.entity < |entities| && entities[p.entity].DeciderEntity? && entities[p.entity].params.copy_count_from_input
       then {entities[p.entity].params.output_signal} else {})
  }

  /** The signals the endpoints `ps` contribute. */
  function PointsSignals(entities: seq<Entity>, endpoints: map<EndpointId, Endpoint>, ps: set<EndpointId>)
    : set<SignalId>
  {
    set p, s | p in ps && s in PointSignals(entities, endpoints, p) :: s
  }

  /** `networkSignals` of a group whose networks are `ns`: the signals of
      every member endpoint of every one of those networks. */
  function NetsSignals(entities: seq<Entity>, endpoints: map<EndpointId, Endpoint>, networks: map<NetId, Network>,
                       ns: set<NetId>): set<SignalId>
  {
    set n, s | n in ns && n in networks && s in PointsSignals(entities, endpoints, networks[n].points) :: s
  }

  lemma PointsSignalsAdd(entities: seq<Entity>, endpoints: map<EndpointId, Endpoint>, ps: set<EndpointId>, p: EndpointId)
    ensures PointsSignals(entities, endpoints, ps + {p})
         == PointsSignals(entities, endpoints, ps) + PointSignals(entities, endpoints, p)
  {
  }

  lemma NetsSignalsAdd(entities: seq<Entity>, endpoints: map<EndpointId, Endpoint>, networks: map<NetId, Network>,
                       ns: set<NetId>, n: NetId)
    ensures NetsSignals(entities, endpoints, networks, ns + {n})
         == NetsSignals(entities, endpoints, networks, ns)
            + (if n in networks then PointsSignals(entities, endpoints, networks[n].points) else {})
  {
  }

  /** `Group.networkSignals`: every signal that appears on some network of
      the group, computed network by network and endpoint by endpoint. */
  method NetworkSignals(circuit: Circuit, g: Group) returns (signals: set<SignalId>)
    ensures signals == NetsSignals(circuit.entities, circuit.endpoints, circuit.networks, g.nets)
  {
    signals := {};
    var nets := g.nets;
    while nets != {}
      invariant nets <= g.nets
      invariant signals == NetsSignals(circuit.entities, circuit.endpoints, circuit.networks, g.nets - nets)
      decreases nets
    {
      var n :| n in nets;
      NetsSignalsAdd(circuit.entities, circuit.endpoints, circuit.networks, g.nets - nets, n);
      if n in circuit.networks {
        var fromNet := NetworkPointSignals(circuit, circuit.networks[n].points);
        signals := signals + fromNet;
      }
      assert g.nets - (nets - {n}) == (g.nets - nets) + {n};
      nets := nets - {n};
    }
  }

  /** The inner loop of `networkSignals`, over one network's endpoints. */
  method NetworkPointSignals(circuit: Circuit, ps: set<EndpointId>) returns (signals: set<SignalId>)
    ensures signals == PointsSignals(circuit.entities, circuit.endpoints, ps)
  {
    signals := {};
    var left := ps;
    while left != {}
      invariant left <= ps
      invariant signals == PointsSignals(circuit.entities, circuit.endpoints, ps - left)
      decreases left
    {
      var p :| p in left;
      PointsSignalsAdd(circuit.entities, circuit.endpoints, ps - left, p);
      if p in circuit.endpoints {
        signals := AddToSet(signals, circuit.endpoints[p].outSignals);
      }
      if p.entity < |circuit.entities| {
        var e := circuit.entities[p.entity];
        if e.DeciderEntity? && e.params.copy_count_from_input {
          signals := signals + {e.params.output_signal};
        }
      }
      assert ps - (left - {p}) == (ps - left) + {p};
      left := left - {p};
    }
  }
}
