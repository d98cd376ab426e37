/** What `extractSignalGroups` (src/optimization/groups.ts) guarantees:
    every collection it builds keeps the collection invariant (the network
    map points at live groups that list their networks), and after phase 1
    each producer's output endpoint belongs to the group of every network on
    that output, in the collection of every signal it produces. */
module ExtractFacts {
  import opened Wrappers
  import opened Wiring
  import opened Entities
  import opened Groups
  import opened Extract

  /** Network n is mapped, lists itself in its group, and endpoint p is in
      that group. */
  predicate InGroupOf(c: Collection, p: EndpointId, n: NetId) {
    && n in c.nets && c.nets[n] < |c.store|
    && p in c.store[c.nets[n]].points && n in c.store[c.nets[n]].nets
  }

  /** Networks x and y are mapped to the same group. */
  predicate Joined(c: Collection, x: NetId, y: NetId) {
    x in c.nets && y in c.nets && c.nets[x] == c.nets[y]
  }

  /** Output endpoint `out` with networks red and green is recorded in c: it
      is in the group of each network present, and the two share a group. */
  predicate Recorded(c: Collection, out: EndpointId, red: Option<NetId>, green: Option<NetId>) {
    && (red.Some? ==> InGroupOf(c, out, red.value))
    && (green.Some? ==> InGroupOf(c, out, green.value))
    && (red.Some? && green.Some? ==> Joined(c, red.value, green.value))
  }

  /** Collection s exists and records `out` with networks red and green. */
  predicate RecordedUnder(m: Signals, s: SignalId, out: EndpointId, red: Option<NetId>, green: Option<NetId>) {
    s in m && Recorded(m[s], out, red, green)
  }

  // ------------------------------------------------- the single steps

  lemma {:induction false} NewGroupCoherent(c: Collection)
    requires Coherent(c)
    ensures Coherent(WithNewGroup(c).0) && WithNewGroup(c).1 in WithNewGroup(c).0.live
  {
    var (c', g) := WithNewGroup(c);
    assert c'.store[g].nets == {};
    assert forall h :: 0 <= h < |c.store| ==> c'.store[h] == c.store[h];
  }

  lemma {:induction false} WithPointCoherent(c: Collection, g: GroupId, p: EndpointId)
    requires Coherent(c) && g < |c.store|
    ensures Coherent(WithPoint(c, g, p))
  {
    var c' := WithPoint(c, g, p);
    assert forall h :: 0 <= h < |c.store| ==> c'.store[h].nets == c.store[h].nets;
  }

  /** Recording network n in live group g keeps the invariant when n is
      unmapped or already maps to g. */
  lemma {:induction false} WithNetCoherent(c: Collection, g: GroupId, n: Option<NetId>)
    requires Coherent(c) && g in c.live
    requires n.Some? && n.value in c.nets ==> c.nets[n.value] == g
    ensures Coherent(WithNet(c, g, n))
  {
    if n.Some? {
      var c' := WithNet(c, g, n);
      forall h, m | h < |c'.store| && h in c'.live && m in c'.store[h].nets
        ensures m in c'.nets && c'.nets[m] == h
      {
        if m != n.value {
          assert m in c.store[h].nets;
        }
      }
    }
  }

  /** Group membership survives a merge of live groups. */
  lemma {:induction false} MergedKeeps(c: Collection, a: GroupId, b: GroupId, p: EndpointId, n: NetId)
    requires Coherent(c) && a in c.live && b in c.live && InGroupOf(c, p, n)
    ensures InGroupOf(Merged(c, a, b).0, p, n)
  {
    if a != b {
      MergeOutcome(c, a, b, n);
      var h := c.nets[n];
      if n in c.store[a].nets {
        assert h == a;
      } else if n in c.store[b].nets {
        assert h == b;
      } else {
        assert Merged(c, a, b).0.store[h] == c.store[h];
      }
    }
  }

  /** Recording network m in group g, where m is unmapped or already maps to
      g, keeps memberships and joins. */
  lemma {:induction false} WithNetKeeps(c: Collection, g: GroupId, m: Option<NetId>, p: EndpointId, x: NetId, y: NetId)
    requires g < |c.store| && (m.Some? && m.value in c.nets ==> c.nets[m.value] == g)
    ensures InGroupOf(c, p, x) ==> InGroupOf(WithNet(c, g, m), p, x)
    ensures Joined(c, x, y) ==> Joined(WithNet(c, g, m), x, y)
  {
  }

  /** The group processSignal picks is live, every mapped network among red
      and green maps to it, no network is added, and memberships and joins
      survive. */
  lemma {:induction false} SeedTargetFacts(c: Collection, red: Option<NetId>, green: Option<NetId>,
                                           p: EndpointId, x: NetId, y: NetId)
    requires Coherent(c)
    ensures var (c1, g) := SeedTarget(c, red, green);
      && Coherent(c1) && g in c1.live && c1.nets.Keys == c.nets.Keys
      && (red.Some? && red.value in c1.nets ==> c1.nets[red.value] == g)
      && (green.Some? && green.value in c1.nets ==> c1.nets[green.value] == g)
      && (InGroupOf(c, p, x) ==> InGroupOf(c1, p, x))
      && (Joined(c, x, y) ==> Joined(c1, x, y))
  {
    CoherentAllocated(c);
    var rg, gg := Find(c, red), Find(c, green);
    if rg.Some? && gg.Some? {
      var (a, b) := (rg.value, gg.value);
      MergeCoherent(c, a, b);
      MergeJoins(c, a, b, x, y);
      if InGroupOf(c, p, x) {
        MergedKeeps(c, a, b, p, x);
      }
      if a != b {
        MergeOutcome(c, a, b, red.value);
        MergeOutcome(c, a, b, green.value);
      }
    } else if rg.None? && gg.None? {
      NewGroupCoherent(c);
      var c1 := WithNewGroup(c).0;
      assert forall h :: 0 <= h < |c.store| ==> c1.store[h] == c.store[h];
    }
  }

  /** Replacing one collection by a coherent one keeps every collection coherent. */
  lemma {:induction false} UpdateCoherent(m: Signals, s: SignalId, c: Collection)
    requires AllCoherent(m) && Coherent(c)
    ensures AllCoherent(m[s := c])
  {
    var m' := m[s := c];
    forall t | t in m'
      ensures Coherent(m'[t])
    {
      if t != s {
        assert m'[t] == m[t];
      }
    }
  }

  // ------------------------------------------------- phase 1

  /** processSignal keeps the invariant. */
  lemma {:induction false} SeededCoherent(c: Collection, out: EndpointId, red: Option<NetId>, green: Option<NetId>)
    requires Coherent(c)
    ensures Coherent(Seeded(c, out, red, green))
  {
    SeedTargetFacts(c, red, green, out, 0, 0);
    var (c1, g) := SeedTarget(c, red, green);
    var c2 := WithPoint(c1, g, out);
    WithPointCoherent(c1, g, out);
    WithNetCoherent(c2, g, red);
    WithNetCoherent(WithNet(c2, g, red), g, green);
  }

  /** processSignal records its own output endpoint. */
  lemma {:induction false} SeededRecords(c: Collection, out: EndpointId, red: Option<NetId>, green: Option<NetId>)
    requires Coherent(c)
    ensures Recorded(Seeded(c, out, red, green), out, red, green)
  {
    SeedTargetFacts(c, red, green, out, 0, 0);
    var (c1, g) := SeedTarget(c, red, green);
    var c2 := WithPoint(c1, g, out);
    assert out in c2.store[g].points;
  }

  /** processSignal keeps one membership and one join. */
  lemma {:induction false} SeededKeepsNet(c: Collection, out': EndpointId, red': Option<NetId>, green': Option<NetId>,
                                          out: EndpointId, x: NetId, y: NetId)
    requires Coherent(c)
    ensures InGroupOf(c, out, x) ==> InGroupOf(Seeded(c, out', red', green'), out, x)
    ensures Joined(c, x, y) ==> Joined(Seeded(c, out', red', green'), x, y)
  {
    var (c1, g) := SeedTarget(c, red', green');
    var c2 := WithPoint(c1, g, out');
    SeedTargetFacts(c, red', green', out, x, y);
    WithNetKeeps(c2, g, red', out, x, y);
    WithNetKeeps(WithNet(c2, g, red'), g, green', out, x, y);
  }

  /** processSignal keeps what earlier calls recorded. */
  lemma {:induction false} SeededKeeps(c: Collection, out': EndpointId, red': Option<NetId>, green': Option<NetId>,
                                       out: EndpointId, red: Option<NetId>, green: Option<NetId>)
    requires Coherent(c) && Recorded(c, out, red, green)
    ensures Recorded(Seeded(c, out', red', green'), out, red, green)
  {
    if red.Some? {
      SeededKeepsNet(c, out', red', green', out, red.value, if green.Some? then green.value else red.value);
    }
    if green.Some? {
      SeededKeepsNet(c, out', red', green', out, green.value, green.value);
    }
  }

  lemma {:induction false} ProduceAllCoherent(m: Signals, sigs: seq<SignalId>, out: EndpointId,
                                              red: Option<NetId>, green: Option<NetId>)
    requires AllAllocated(m) && AllCoherent(m)
    ensures AllCoherent(ProduceAll(m, sigs, out, red, green))
    decreases |sigs|
  {
    if sigs != [] {
      var m' := ProduceAll(m, sigs[..|sigs| - 1], out, red, green);
      ProduceAllCoherent(m, sigs[..|sigs| - 1], out, red, green);
      var s := sigs[|sigs| - 1];
      var c := if s in m' then m'[s] else NoGroups;
      SeededCoherent(c, out, red, green);
      UpdateCoherent(m', s, Seeded(c, out, red, green));
    }
  }

  /** Phase 1 leaves every collection coherent. */
  lemma {:induction false} Phase1Coherent(entities: seq<Entity>, endpoints: map<EndpointId, Endpoint>, k: nat)
    requires k <= |entities|
    ensures AllCoherent(Phase1(entities, endpoints, k))
  {
    if k > 0 {
      Phase1Coherent(entities, endpoints, k - 1);
      var e := entities[k - 1];
      var out := OutputOf(k - 1, e);
      var (red, green) := NetsAt(endpoints, out);
      ProduceAllCoherent(Phase1(entities, endpoints, k - 1), Produced(e), out, red, green);
    }
  }

  /** Later processSignal calls keep what is recorded in every collection. */
  lemma {:induction false} ProduceAllKeeps(m: Signals, sigs: seq<SignalId>, out': EndpointId,
                                           red': Option<NetId>, green': Option<NetId>,
                                           s: SignalId, out: EndpointId, red: Option<NetId>, green: Option<NetId>)
    requires AllAllocated(m) && AllCoherent(m) && s in m && Recorded(m[s], out, red, green)
    ensures var m' := ProduceAll(m, sigs, out', red', green'); s in m' && Recorded(m'[s], out, red, green)
    decreases |sigs|
  {
    if sigs != [] {
      var m1 := ProduceAll(m, sigs[..|sigs| - 1], out', red', green');
      ProduceAllKeeps(m, sigs[..|sigs| - 1], out', red', green', s, out, red, green);
      ProduceAllCoherent(m, sigs[..|sigs| - 1], out', red', green');
      if sigs[|sigs| - 1] == s {
        SeededKeeps(m1[s], out', red', green', out, red, green);
      }
    }
  }

  /** One processSignal call records its endpoint under its own signal and
      keeps what is recorded under the others. */
  lemma {:induction false} ProduceRecords(m: Signals, s: SignalId, out: EndpointId,
                                          red: Option<NetId>, green: Option<NetId>, t: SignalId)
    requires AllAllocated(m)
    requires t == s ==> Coherent(if s in m then m[s] else NoGroups)
    requires t != s ==> t in m && Recorded(m[t], out, red, green)
    ensures var m' := Produce(m, s, out, red, green); t in m' && Recorded(m'[t], out, red, green)
  {
    if t == s {
      SeededRecords(if s in m then m[s] else NoGroups, out, red, green);
    }
  }

  /** processSignal for each of sigs records the endpoint under each of them. */
  lemma {:induction false} ProduceAllRecords(m: Signals, sigs: seq<SignalId>, out: EndpointId,
                                             red: Option<NetId>, green: Option<NetId>, j: nat)
    requires AllAllocated(m) && AllCoherent(m) && j < |sigs|
    ensures var m' := ProduceAll(m, sigs, out, red, green); sigs[j] in m' && Recorded(m'[sigs[j]], out, red, green)
    decreases |sigs|
  {
    var n := |sigs| - 1;
    var m1 := ProduceAll(m, sigs[..n], out, red, green);
    ProduceAllCoherent(m, sigs[..n], out, red, green);
    if sigs[j] != sigs[n] {
      ProduceAllRecords(m, sigs[..n], out, red, green, j);
      assert sigs[..n][j] == sigs[j];
    }
    ProduceRecords(m1, sigs[n], out, red, green, sigs[j]);
  }

  /** Phase 1 on entity k records k's output endpoint under each signal k
      produces. */
  lemma {:induction false} Phase1RecordsLast(entities: seq<Entity>, endpoints: map<EndpointId, Endpoint>,
                                             k: nat, j: nat,
                                             s: SignalId, out: EndpointId, red: Option<NetId>, green: Option<NetId>)
    requires k < |entities| && j < |Produced(entities[k])| && s == Produced(entities[k])[j]
    requires out == OutputOf(k, entities[k]) && (red, green) == NetsAt(endpoints, out)
    ensures RecordedUnder(Phase1(entities, endpoints, k + 1), s, out, red, green)
  {
    var m0 := Phase1(entities, endpoints, k);
    Phase1Coherent(entities, endpoints, k);
    assert Phase1(entities, endpoints, k + 1) == ProduceAll(m0, Produced(entities[k]), out, red, green);
    ProduceAllRecords(m0, Produced(entities[k]), out, red, green, j);
  }

  /** Phase 1 on entity k - 1 keeps what the earlier entities recorded. */
  lemma {:induction false} Phase1Keeps(entities: seq<Entity>, endpoints: map<EndpointId, Endpoint>, k: nat,
                                       s: SignalId, out: EndpointId, red: Option<NetId>, green: Option<NetId>)
    requires 0 < k <= |entities| && RecordedUnder(Phase1(entities, endpoints, k - 1), s, out, red, green)
    ensures RecordedUnder(Phase1(entities, endpoints, k), s, out, red, green)
  {
    var m0 := Phase1(entities, endpoints, k - 1);
    Phase1Coherent(entities, endpoints, k - 1);
    var e := entities[k - 1];
    var out' := OutputOf(k - 1, e);
    var (red', green') := NetsAt(endpoints, out');
    assert Phase1(entities, endpoints, k) == ProduceAll(m0, Produced(e), out', red', green');
    ProduceAllKeeps(m0, Produced(e), out', red', green', s, out, red, green);
  }

  /** Entity i's output endpoint is recorded in m under the j-th signal it produces. */
  predicate RecordedAt(entities: seq<Entity>, endpoints: map<EndpointId, Endpoint>, m: Signals, i: nat, j: nat)
    requires i < |entities| && j < |Produced(entities[i])|
  {
    var out := OutputOf(i, entities[i]);
    var (red, green) := NetsAt(endpoints, out);
    RecordedUnder(m, Produced(entities[i])[j], out, red, green)
  }

  /** Phase 1 over the first k entities records every output endpoint it visited. */
  lemma {:induction false} Phase1AllRecorded(entities: seq<Entity>, endpoints: map<EndpointId, Endpoint>, k: nat)
    requires k <= |entities|
    ensures forall i: nat, j: nat | i < k && j < |Produced(entities[i])| ::
      RecordedAt(entities, endpoints, Phase1(entities, endpoints, k), i, j)
  {
    if k > 0 {
      Phase1AllRecorded(entities, endpoints, k - 1);
      forall i: nat, j: nat | i < k && j < |Produced(entities[i])|
        ensures RecordedAt(entities, endpoints, Phase1(entities, endpoints, k), i, j)
      {
        var s, out := Produced(entities[i])[j], OutputOf(i, entities[i]);
        var (red, green) := NetsAt(endpoints, out);
        if i == k - 1 {
          Phase1RecordsLast(entities, endpoints, i, j, s, out, red, green);
        } else {
          assert RecordedAt(entities, endpoints, Phase1(entities, endpoints, k - 1), i, j);
          Phase1Keeps(entities, endpoints, k, s, out, red, green);
        }
      }
    }
  }

  /** After phase 1 has visited the first k entities, for every signal s that
      entity i < k produces, collection s exists and holds i's output
      endpoint in the group of each network on that output, and the
      networks are members of that group (one group when both are wired). */
  lemma {:induction false} Phase1Records(entities: seq<Entity>, endpoints: map<EndpointId, Endpoint>,
                                         k: nat, i: nat, j: nat,
                                         s: SignalId, out: EndpointId, red: Option<NetId>, green: Option<NetId>)
    requires i < k <= |entities| && j < |Produced(entities[i])| && s == Produced(entities[i])[j]
    requires out == OutputOf(i, entities[i]) && (red, green) == NetsAt(endpoints, out)
    ensures s in Phase1(entities, endpoints, k) && Recorded(Phase1(entities, endpoints, k)[s], out, red, green)
  {
    Phase1AllRecorded(entities, endpoints, k);
    assert RecordedAt(entities, endpoints, Phase1(entities, endpoints, k), i, j);
  }

  // ------------------------------------------------- phase 2

  /** A failure, or collections that all keep the invariant. */
  predicate CoherentResult(r: Result<Signals, ExtractError>) {
    r.Success? ==> AllCoherent(r.value)
  }

  /** mergeInput keeps the invariant, returns a live group, adds no network
      and keeps joins. */
  lemma {:induction false} InputMergedFacts(c: Collection, red: Option<NetId>, green: Option<NetId>, x: NetId, y: NetId)
    requires Coherent(c)
    ensures var (c1, g) := InputMerged(c, red, green);
      && Coherent(c1) && (g.Some? ==> g.value in c1.live) && c1.nets.Keys == c.nets.Keys
      && (Joined(c, x, y) ==> Joined(c1, x, y))
  {
    CoherentAllocated(c);
    var rg, gg := Find(c, red), Find(c, green);
    if rg.Some? && gg.Some? {
      MergeCoherent(c, rg.value, gg.value);
      MergeJoins(c, rg.value, gg.value, x, y);
      if rg.value != gg.value {
        MergeOutcome(c, rg.value, gg.value, x);
      }
    }
  }

  /** mergeInput finds a group exactly when one of the input's networks has
      one, and then every mapped network of the input belongs to it, so a red
      and a green network that both have groups end up joined. */
  lemma {:induction false} InputMergedJoins(c: Collection, red: Option<NetId>, green: Option<NetId>)
    requires Coherent(c)
    ensures var (c1, g) := InputMerged(c, red, green);
      && (g.Some? <==> Find(c, red).Some? || Find(c, green).Some?)
      && (Find(c, red).Some? ==> Find(c1, red) == g)
      && (Find(c, green).Some? ==> Find(c1, green) == g)
      && (Find(c, red).Some? && Find(c, green).Some? ==> Joined(c1, red.value, green.value))
  {
    var rg, gg := Find(c, red), Find(c, green);
    if rg.Some? && gg.Some? {
      if rg.value == gg.value {
        MergeSelf(c, rg.value);
      } else {
        MergeOutcome(c, rg.value, gg.value, red.value);
        MergeOutcome(c, rg.value, gg.value, green.value);
      }
    }
  }

  lemma {:induction false} OperandMergedCoherent(m: Signals, s: Option<SignalId>, input: EndpointId,
                                                 red: Option<NetId>, green: Option<NetId>)
    requires AllAllocated(m) && AllCoherent(m)
    ensures var r := OperandMerged(m, s, input, red, green); r.Success? ==> AllCoherent(r.value)
  {
    if s.Some? && s.value in m {
      InputMergedFacts(m[s.value], red, green, 0, 0);
      var (c, g) := InputMerged(m[s.value], red, green);
      if g.Some? {
        WithPointCoherent(c, g.value, input);
        UpdateCoherent(m, s.value, WithPoint(c, g.value, input));
      } else {
        UpdateCoherent(m, s.value, c);
      }
    }
  }

  lemma {:induction false} PassedThroughCoherent(m: Signals, k: EntityId, e: Entity, red: Option<NetId>,
                                                 green: Option<NetId>, out: Option<NetId>)
    requires AllAllocated(m) && AllCoherent(m)
    ensures var r := PassedThrough(m, k, e, red, green, out); r.Success? ==> AllCoherent(r.value)
  {
    if e.DeciderEntity? && e.params.copy_count_from_input && e.params.output_signal in m {
      var s := e.params.output_signal;
      InputMergedFacts(m[s], red, green, 0, 0);
      var (c, g) := InputMerged(m[s], red, green);
      var why := Find(c, out);
      if g.None? {
        UpdateCoherent(m, s, c);
      } else if why.Some? {
        MergeCoherent(c, why.value, g.value);
        UpdateCoherent(m, s, Merged(c, why.value, g.value).0);
      }
    }
  }

  /** One concrete operand whose collection exists: every input network
      with a group there ends up in the one group that now also holds the
      input endpoint, so a red and a green network with groups are joined. */
  lemma {:induction false} OperandMergedJoins(m: Signals, s: SignalId, input: EndpointId,
                                              red: Option<NetId>, green: Option<NetId>)
    requires AllAllocated(m) && AllCoherent(m) && s in m
    ensures var r := OperandMerged(m, Some(s), input, red, green);
      && r.Success?
      && (red.Some? && red.value in m[s].nets ==> InGroupOf(r.value[s], input, red.value))
      && (green.Some? && green.value in m[s].nets ==> InGroupOf(r.value[s], input, green.value))
      && (red.Some? && green.Some? && red.value in m[s].nets && green.value in m[s].nets ==>
            Joined(r.value[s], red.value, green.value))
  {
    InputMergedFacts(m[s], red, green, 0, 0);
    InputMergedJoins(m[s], red, green);
    var (c, g) := InputMerged(m[s], red, green);
    if g.Some? {
      var c' := WithPoint(c, g.value, input);
      assert OperandMerged(m, Some(s), input, red, green) == Success(m[s := c']);
      assert input in c'.store[g.value].points;
      assert c'.nets == c.nets;
      if red.Some? && red.value in m[s].nets {
        assert red.value in c.store[g.value].nets;
      }
      if green.Some? && green.value in m[s].nets {
        assert green.value in c.store[g.value].nets;
      }
    }
  }

  /** The pass-through join: for a decider that copies its input count, when
      one of its input networks x has a group in the collection of its
      output signal, the step aborts exactly when the output network has no
      group there, and otherwise leaves x and the output network in one group. */
  lemma {:induction false} PassedThroughJoins(m: Signals, k: EntityId, e: Entity, red: Option<NetId>,
                                              green: Option<NetId>, out: Option<NetId>, x: NetId)
    requires AllAllocated(m) && AllCoherent(m)
    requires e.DeciderEntity? && e.params.copy_count_from_input
    requires e.params.output_signal in m && x in m[e.params.output_signal].nets
    requires red == Some(x) || green == Some(x)
    ensures var r := PassedThrough(m, k, e, red, green, out);
      && (r.Success? <==> out.Some? && out.value in m[e.params.output_signal].nets)
      && (r.Failure? ==> r.error == MissingGroup(k))
      && (r.Success? ==> Joined(r.value[e.params.output_signal], x, out.value))
  {
    var s := e.params.output_signal;
    InputMergedFacts(m[s], red, green, 0, 0);
    InputMergedJoins(m[s], red, green);
    var (c, g) := InputMerged(m[s], red, green);
    assert Find(c, Some(x)) == g && g.Some?;
    var why := Find(c, out);
    assert why.Some? <==> out.Some? && out.value in m[s].nets;
    if why.Some? {
      assert out.value in c.store[why.value].nets;
      assert x in c.store[g.value].nets;
      MergeJoins(c, why.value, g.value, out.value, x);
      assert PassedThrough(m, k, e, red, green, out) == Success(m[s := Merged(c, why.value, g.value).0]);
    } else {
      assert PassedThrough(m, k, e, red, green, out) == Failure(MissingGroup(k));
    }
  }

  /** The wildcard branch joins the input's red and green networks in every
      collection where both have a group, and adds and drops no network. */
  lemma {:induction false} EveryMergedJoins(m: Signals, red: Option<NetId>, green: Option<NetId>, s: SignalId)
    requires AllAllocated(m) && AllCoherent(m) && s in m
    ensures EveryMerged(m, red, green)[s].nets.Keys == m[s].nets.Keys
    ensures red.Some? && green.Some? && red.value in m[s].nets && green.value in m[s].nets ==>
      Joined(EveryMerged(m, red, green)[s], red.value, green.value)
  {
    InputMergedFacts(m[s], red, green, 0, 0);
    InputMergedJoins(m[s], red, green);
  }

  lemma {:induction false} EveryMergedCoherent(m: Signals, red: Option<NetId>, green: Option<NetId>)
    requires AllAllocated(m) && AllCoherent(m)
    ensures AllCoherent(EveryMerged(m, red, green))
  {
    forall s | s in m
      ensures Coherent(EveryMerged(m, red, green)[s])
    {
      InputMergedFacts(m[s], red, green, 0, 0);
    }
  }

  lemma {:induction false} OperandsMergedCoherent(m: Signals, k: EntityId, e: Entity, endpoints: map<EndpointId, Endpoint>)
    requires AllAllocated(m) && AllCoherent(m)
    ensures var r := OperandsMerged(m, k, e, endpoints); r.Success? ==> AllCoherent(r.value)
  {
    var input := InputOf(k, e);
    var (red, green) := NetsAt(endpoints, input);
    var (first, second) := Operands(e);
    var r1 := OperandMerged(m, first, input, red, green);
    if r1.Success? {
      OperandMergedCoherent(m, first, input, red, green);
      var r2 := OperandMerged(r1.value, second, input, red, green);
      if r2.Success? {
        OperandMergedCoherent(r1.value, second, input, red, green);
        var (ored, ogreen) := NetsAt(endpoints, OutputOf(k, e));
        var out := if ored.Some? then ored else ogreen;
        PassedThroughCoherent(r2.value, k, e, red, green, out);
        assert OperandsMerged(m, k, e, endpoints) == PassedThrough(r2.value, k, e, red, green, out);
      } else {
        assert OperandsMerged(m, k, e, endpoints) == r2;
      }
    } else {
      assert OperandsMerged(m, k, e, endpoints) == r1;
    }
  }

  lemma {:induction false} InputsMergedCoherent(m: Signals, k: EntityId, e: Entity, endpoints: map<EndpointId, Endpoint>)
    requires AllAllocated(m) && AllCoherent(m)
    ensures CoherentResult(InputsMerged(m, k, e, endpoints))
  {
    if e.DeciderEntity? || e.ArithmeticEntity? {
      var (red, green) := NetsAt(endpoints, InputOf(k, e));
      var (first, second) := Operands(e);
      if first == Some(Each) || second == Some(Each) {
        EveryMergedCoherent(m, red, green);
      } else {
        OperandsMergedCoherent(m, k, e, endpoints);
      }
    }
  }

  lemma {:induction false} Phase2Coherent(m: Signals, entities: seq<Entity>, endpoints: map<EndpointId, Endpoint>, k: nat)
    requires AllAllocated(m) && AllCoherent(m) && k <= |entities|
    ensures CoherentResult(Phase2(m, entities, endpoints, k))
  {
    if k == 0 {
      assert Phase2(m, entities, endpoints, k) == Success(m);
    } else {
      Phase2Coherent(m, entities, endpoints, k - 1);
      var r := Phase2(m, entities, endpoints, k - 1);
      if r.Success? {
        InputsMergedCoherent(r.value, k - 1, entities[k - 1], endpoints);
        assert Phase2(m, entities, endpoints, k) == InputsMerged(r.value, k - 1, entities[k - 1], endpoints);
      } else {
        assert Phase2(m, entities, endpoints, k) == r;
      }
    }
  }

  /** Whenever extraction succeeds, every collection keeps the invariant:
      each mapped network points at a live group that lists it, and each
      network a live group lists is mapped to that group. */
  lemma ExtractedCoherent(entities: seq<Entity>, endpoints: map<EndpointId, Endpoint>)
    ensures var r := Extracted(entities, endpoints); r.Success? ==> AllCoherent(r.value)
  {
    Phase1Coherent(entities, endpoints, |entities|);
    Phase2Coherent(Phase1(entities, endpoints, |entities|), entities, endpoints, |entities|);
  }
}
