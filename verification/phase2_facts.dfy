/** What survives phase 2 of `extractSignalGroups`
    (src/optimization/groups.ts:155-194): no step adds or drops a network,
    loses an endpoint from a network's group or separates two joined
    networks. So everything phase 1 records, and every join a step of phase 2
    makes, still holds in the collections the whole pass returns. */
module Phase2Facts {
  import opened Wrappers
  import opened Wiring
  import opened Entities
  import opened Groups
  import opened Extract
  import opened ExtractFacts

  /** x and y are networks of c' exactly when they are networks of c, p is
      still in the group of x, and x and y are still joined if they were.
      (With x and y arbitrary, this says c' has the same networks as c.) */
  predicate Kept(c: Collection, c': Collection, p: EndpointId, x: NetId, y: NetId) {
    && (x in c'.nets <==> x in c.nets)
    && (y in c'.nets <==> y in c.nets)
    && (InGroupOf(c, p, x) ==> InGroupOf(c', p, x))
    && (Joined(c, x, y) ==> Joined(c', x, y))
  }

  lemma KeptChain(a: Collection, b: Collection, c: Collection, p: EndpointId, x: NetId, y: NetId)
    requires Kept(a, b, p, x, y) && Kept(b, c, p, x, y)
    ensures Kept(a, c, p, x, y)
  {
  }

  // ------------------------------------------------- the single steps

  lemma {:induction false} MergedKept(c: Collection, a: GroupId, b: GroupId, p: EndpointId, x: NetId, y: NetId)
    requires Coherent(c) && a in c.live && b in c.live
    ensures Kept(c, Merged(c, a, b).0, p, x, y)
  {
    MergeJoins(c, a, b, x, y);
    if InGroupOf(c, p, x) {
      MergedKeeps(c, a, b, p, x);
    }
    if a == b {
      MergeSelf(c, a);
    } else {
      MergeOutcome(c, a, b, x);
    }
  }

  lemma {:induction false} WithPointKept(c: Collection, g: GroupId, q: EndpointId, p: EndpointId, x: NetId, y: NetId)
    requires g < |c.store|
    ensures Kept(c, WithPoint(c, g, q), p, x, y)
  {
    var c' := WithPoint(c, g, q);
    assert c'.nets == c.nets;
    if InGroupOf(c, p, x) {
      assert c.store[c.nets[x]].points <= c'.store[c.nets[x]].points;
    }
  }

  /** mergeInput keeps every network, membership and join. */
  lemma {:induction false} InputMergedKept(c: Collection, red: Option<NetId>, green: Option<NetId>,
                                           p: EndpointId, x: NetId, y: NetId)
    requires Coherent(c)
    ensures Kept(c, InputMerged(c, red, green).0, p, x, y)
  {
    var rg, gg := Find(c, red), Find(c, green);
    if rg.Some? && gg.Some? {
      MergedKept(c, rg.value, gg.value, p, x, y);
    }
  }

  /** One operand's merge keeps what collection s holds. */
  lemma {:induction false} OperandMergedKept(m: Signals, o: Option<SignalId>, input: EndpointId,
                                             red: Option<NetId>, green: Option<NetId>,
                                             s: SignalId, p: EndpointId, x: NetId, y: NetId)
    requires AllAllocated(m) && AllCoherent(m) && s in m
    ensures var r := OperandMerged(m, o, input, red, green);
      r.Success? ==> s in r.value && Kept(m[s], r.value[s], p, x, y)
  {
    if o == Some(s) {
      InputMergedKept(m[s], red, green, p, x, y);
      var (c, g) := InputMerged(m[s], red, green);
      if g.Some? {
        WithPointKept(c, g.value, input, p, x, y);
        assert OperandMerged(m, o, input, red, green) == Success(m[s := WithPoint(c, g.value, input)]);
      } else {
        assert OperandMerged(m, o, input, red, green) == Success(m[s := c]);
      }
    }
  }

  /** The pass-through join keeps what collection s holds. */
  lemma {:induction false} PassedThroughKept(m: Signals, k: EntityId, e: Entity, red: Option<NetId>, green: Option<NetId>,
                                             out: Option<NetId>, s: SignalId, p: EndpointId, x: NetId, y: NetId)
    requires AllAllocated(m) && AllCoherent(m) && s in m
    ensures var r := PassedThrough(m, k, e, red, green, out);
      r.Success? ==> s in r.value && Kept(m[s], r.value[s], p, x, y)
  {
    if e.DeciderEntity? && e.params.copy_count_from_input && e.params.output_signal == s {
      InputMergedFacts(m[s], red, green, x, y);
      InputMergedKept(m[s], red, green, p, x, y);
      var (c, g) := InputMerged(m[s], red, green);
      var why := Find(c, out);
      if g.Some? && why.Some? {
        MergedKept(c, why.value, g.value, p, x, y);
        assert PassedThrough(m, k, e, red, green, out) == Success(m[s := Merged(c, why.value, g.value).0]);
      } else if g.None? {
        assert PassedThrough(m, k, e, red, green, out) == Success(m[s := c]);
      }
    }
  }

  /** Both operands and the pass-through join keep what collection s holds. */
  lemma {:induction false} OperandsMergedKept(m: Signals, k: EntityId, e: Entity, endpoints: map<EndpointId, Endpoint>,
                                              s: SignalId, p: EndpointId, x: NetId, y: NetId)
    requires AllAllocated(m) && AllCoherent(m) && s in m
    ensures var r := OperandsMerged(m, k, e, endpoints);
      r.Success? ==> s in r.value && Kept(m[s], r.value[s], p, x, y)
  {
    var input := InputOf(k, e);
    var (red, green) := NetsAt(endpoints, input);
    var (first, second) := Operands(e);
    var r1 := OperandMerged(m, first, input, red, green);
    if r1.Success? {
      OperandMergedKept(m, first, input, red, green, s, p, x, y);
      OperandMergedCoherent(m, first, input, red, green);
      var r2 := OperandMerged(r1.value, second, input, red, green);
      if r2.Success? {
        OperandMergedKept(r1.value, second, input, red, green, s, p, x, y);
        OperandMergedCoherent(r1.value, second, input, red, green);
        var (ored, ogreen) := NetsAt(endpoints, OutputOf(k, e));
        var out := if ored.Some? then ored else ogreen;
        PassedThroughKept(r2.value, k, e, red, green, out, s, p, x, y);
        assert OperandsMerged(m, k, e, endpoints) == PassedThrough(r2.value, k, e, red, green, out);
      } else {
        assert OperandsMerged(m, k, e, endpoints) == r2;
      }
    } else {
      assert OperandsMerged(m, k, e, endpoints) == r1;
    }
  }

  /** One step of phase 2 keeps what collection s holds. */
  lemma {:induction false} InputsMergedKept(m: Signals, k: EntityId, e: Entity, endpoints: map<EndpointId, Endpoint>,
                                            s: SignalId, p: EndpointId, x: NetId, y: NetId)
    requires AllAllocated(m) && AllCoherent(m) && s in m
    ensures var r := InputsMerged(m, k, e, endpoints);
      r.Success? ==> s in r.value && Kept(m[s], r.value[s], p, x, y)
  {
    if e.DeciderEntity? || e.ArithmeticEntity? {
      var (red, green) := NetsAt(endpoints, InputOf(k, e));
      var (first, second) := Operands(e);
      if first == Some(Each) || second == Some(Each) {
        InputMergedKept(m[s], red, green, p, x, y);
        assert InputsMerged(m, k, e, endpoints) == Success(EveryMerged(m, red, green));
      } else {
        OperandsMergedKept(m, k, e, endpoints, s, p, x, y);
        assert InputsMerged(m, k, e, endpoints) == OperandsMerged(m, k, e, endpoints);
      }
    }
  }

  // ------------------------------------------------- the whole phase

  /** Between any two points i <= k of phase 2, a success at k was a success
      at i, and collection s kept its networks, memberships and joins. */
  lemma {:induction false} Phase2Kept(m: Signals, entities: seq<Entity>, endpoints: map<EndpointId, Endpoint>,
                                      i: nat, k: nat, s: SignalId, p: EndpointId, x: NetId, y: NetId)
    requires AllAllocated(m) && AllCoherent(m) && i <= k <= |entities| && s in m
    ensures Phase2(m, entities, endpoints, k).Success? ==>
      && Phase2(m, entities, endpoints, i).Success?
      && s in Phase2(m, entities, endpoints, k).value && s in Phase2(m, entities, endpoints, i).value
      && Kept(Phase2(m, entities, endpoints, i).value[s], Phase2(m, entities, endpoints, k).value[s], p, x, y)
    decreases k
  {
    if i < k {
      var prev := Phase2(m, entities, endpoints, k - 1);
      Phase2Kept(m, entities, endpoints, i, k - 1, s, p, x, y);
      if prev.Success? {
        Phase2Coherent(m, entities, endpoints, k - 1);
        var next := InputsMerged(prev.value, k - 1, entities[k - 1], endpoints);
        InputsMergedKept(prev.value, k - 1, entities[k - 1], endpoints, s, p, x, y);
        if next.Success? {
          assert Phase2(m, entities, endpoints, k) == next;
          KeptChain(Phase2(m, entities, endpoints, i).value[s], prev.value[s], next.value[s], p, x, y);
        } else {
          assert Phase2(m, entities, endpoints, k) == next;
        }
      } else {
        assert Phase2(m, entities, endpoints, k) == prev;
      }
    }
  }

  /** Phase 2 starting from the phase-1 collections m keeps collection s's
      networks, memberships and joins through to the end. */
  lemma {:induction false} ExtractedKept(entities: seq<Entity>, endpoints: map<EndpointId, Endpoint>,
                                         s: SignalId, p: EndpointId, x: NetId, y: NetId)
    requires s in Phase1(entities, endpoints, |entities|)
    ensures var m, r := Phase1(entities, endpoints, |entities|), Extracted(entities, endpoints);
      r.Success? ==> s in r.value && Kept(m[s], r.value[s], p, x, y)
  {
    var m := Phase1(entities, endpoints, |entities|);
    Phase1Coherent(entities, endpoints, |entities|);
    Phase2Kept(m, entities, endpoints, 0, |entities|, s, p, x, y);
    assert Phase2(m, entities, endpoints, 0) == Success(m);
  }

  /** The promise of phase 1 holds of the whole pass: when extraction
      succeeds, each producer's output endpoint is still in the group of each
      network on its output, under every signal it produces, and its red and
      green networks are still in one group. */
  lemma {:induction false} ExtractedRecords(entities: seq<Entity>, endpoints: map<EndpointId, Endpoint>,
                                            i: nat, j: nat,
                                            s: SignalId, out: EndpointId, red: Option<NetId>, green: Option<NetId>)
    requires i < |entities| && j < |Produced(entities[i])| && s == Produced(entities[i])[j]
    requires out == OutputOf(i, entities[i]) && (red, green) == NetsAt(endpoints, out)
    ensures var r := Extracted(entities, endpoints);
      r.Success? ==> s in r.value && Recorded(r.value[s], out, red, green)
  {
    Phase1Records(entities, endpoints, |entities|, i, j, s, out, red, green);
    if red.Some? {
      ExtractedKept(entities, endpoints, s, out, red.value, if green.Some? then green.value else red.value);
    }
    if green.Some? {
      ExtractedKept(entities, endpoints, s, out, green.value, green.value);
    }
  }

  // ------------------------------------------------- the joins phase 2 makes

  /** Step k on a combinator without a wildcard, for one of its operand
      signals s: the step fails unless s has a collection, and otherwise the
      input endpoint joins the group of every input network with a group
      there, so a red and a green network with groups end up joined. */
  lemma {:induction false} OperandsMergedJoins(m: Signals, k: EntityId, e: Entity, endpoints: map<EndpointId, Endpoint>,
                                               s: SignalId, input: EndpointId, red: Option<NetId>, green: Option<NetId>)
    requires AllAllocated(m) && AllCoherent(m)
    requires Operands(e).0 == Some(s) || Operands(e).1 == Some(s)
    requires input == InputOf(k, e) && (red, green) == NetsAt(endpoints, input)
    ensures var r := OperandsMerged(m, k, e, endpoints);
      r.Success? ==>
        && s in m && s in r.value
        && (red.Some? && red.value in m[s].nets ==> InGroupOf(r.value[s], input, red.value))
        && (green.Some? && green.value in m[s].nets ==> InGroupOf(r.value[s], input, green.value))
        && (red.Some? && green.Some? && red.value in m[s].nets && green.value in m[s].nets ==>
              Joined(r.value[s], red.value, green.value))
  {
    var (first, second) := Operands(e);
    var r1 := OperandMerged(m, first, input, red, green);
    if r1.Failure? {
      assert OperandsMerged(m, k, e, endpoints) == r1;
      return;
    }
    OperandMergedCoherent(m, first, input, red, green);
    var r2 := OperandMerged(r1.value, second, input, red, green);
    if r2.Failure? {
      assert OperandsMerged(m, k, e, endpoints) == r2;
      return;
    }
    var (ored, ogreen) := NetsAt(endpoints, OutputOf(k, e));
    var out := if ored.Some? then ored else ogreen;
    assert OperandsMerged(m, k, e, endpoints) == PassedThrough(r2.value, k, e, red, green, out);
    OperandMergedCoherent(r1.value, second, input, red, green);
    var x, y := if red.Some? then red.value else 0, if green.Some? then green.value else 0;
    if first == Some(s) {
      OperandMergedJoins(m, s, input, red, green);
      OperandMergedKept(r1.value, second, input, red, green, s, input, x, y);
      OperandMergedKept(r1.value, second, input, red, green, s, input, y, x);
      PassedThroughKept(r2.value, k, e, red, green, out, s, input, x, y);
      PassedThroughKept(r2.value, k, e, red, green, out, s, input, y, x);
    } else {
      OperandMergedKept(m, first, input, red, green, s, input, x, y);
      OperandMergedJoins(r1.value, s, input, red, green);
      PassedThroughKept(r2.value, k, e, red, green, out, s, input, x, y);
      PassedThroughKept(r2.value, k, e, red, green, out, s, input, y, x);
    }
  }

  /** When extraction succeeds, for every combinator without a wildcard
      operand and every operand signal s of it: s has a collection, its input
      endpoint is in the group of each input network that phase 1 gave a
      group, and its red and green networks, if both have groups, share one. */
  lemma {:induction false} ExtractedJoins(entities: seq<Entity>, endpoints: map<EndpointId, Endpoint>, i: nat,
                                          s: SignalId, input: EndpointId, red: Option<NetId>, green: Option<NetId>)
    requires i < |entities| && (entities[i].DeciderEntity? || entities[i].ArithmeticEntity?)
    requires Operands(entities[i]).0 != Some(Each) && Operands(entities[i]).1 != Some(Each)
    requires Operands(entities[i]).0 == Some(s) || Operands(entities[i]).1 == Some(s)
    requires input == InputOf(i, entities[i]) && (red, green) == NetsAt(endpoints, input)
    ensures var m, r := Phase1(entities, endpoints, |entities|), Extracted(entities, endpoints);
      r.Success? ==>
        && s in m && s in r.value
        && (red.Some? && red.value in m[s].nets ==> InGroupOf(r.value[s], input, red.value))
        && (green.Some? && green.value in m[s].nets ==> InGroupOf(r.value[s], input, green.value))
        && (red.Some? && green.Some? && red.value in m[s].nets && green.value in m[s].nets ==>
              Joined(r.value[s], red.value, green.value))
  {
    var n := |entities|;
    var m := Phase1(entities, endpoints, n);
    var r := Extracted(entities, endpoints);
    if r.Failure? {
      return;
    }
    Phase1Coherent(entities, endpoints, n);
    var x, y := if red.Some? then red.value else 0, if green.Some? then green.value else 0;
    var e := entities[i];
    var before := Phase2(m, entities, endpoints, i);
    var after := Phase2(m, entities, endpoints, i + 1);
    assert before.Success? by {
      if before.Failure? { FailureStays(m, entities, endpoints, i); }
    }
    assert after.Success? by {
      if after.Failure? { FailureStays(m, entities, endpoints, i + 1); }
    }
    Phase2Coherent(m, entities, endpoints, i);
    assert after == InputsMerged(before.value, i, e, endpoints) == OperandsMerged(before.value, i, e, endpoints);
    OperandsMergedJoins(before.value, i, e, endpoints, s, input, red, green);
    Phase2Kept(m, entities, endpoints, 0, i, s, input, x, y);
    assert Phase2(m, entities, endpoints, 0) == Success(m);
    Phase2Kept(m, entities, endpoints, i + 1, n, s, input, x, y);
    Phase2Kept(m, entities, endpoints, i + 1, n, s, input, y, x);
  }

  /** Step k on a pass-through decider without a wildcard: for an input
      network x with a group in its output signal's collection, the step
      succeeds only if the output network also has a group there, and then x
      and the output network share one. */
  lemma {:induction false} OperandsMergedPassThrough(m: Signals, k: EntityId, e: Entity, endpoints: map<EndpointId, Endpoint>,
                                                     red: Option<NetId>, green: Option<NetId>, out: Option<NetId>, x: NetId)
    requires AllAllocated(m) && AllCoherent(m)
    requires e.DeciderEntity? && e.params.copy_count_from_input
    requires (red, green) == NetsAt(endpoints, InputOf(k, e)) && (red == Some(x) || green == Some(x))
    requires var (ored, ogreen) := NetsAt(endpoints, OutputOf(k, e)); out == if ored.Some? then ored else ogreen
    ensures var s, r := e.params.output_signal, OperandsMerged(m, k, e, endpoints);
      r.Success? && s in m && x in m[s].nets ==>
        out.Some? && out.value in m[s].nets && s in r.value && Joined(r.value[s], x, out.value)
  {
    var s := e.params.output_signal;
    var input := InputOf(k, e);
    var (first, second) := Operands(e);
    var r1 := OperandMerged(m, first, input, red, green);
    if r1.Failure? || s !in m || x !in m[s].nets {
      return;
    }
    var y := if out.Some? then out.value else x;
    OperandMergedKept(m, first, input, red, green, s, input, x, y);
    OperandMergedCoherent(m, first, input, red, green);
    var r2 := OperandMerged(r1.value, second, input, red, green);
    if r2.Failure? {
      assert OperandsMerged(m, k, e, endpoints) == r2;
      return;
    }
    OperandMergedKept(r1.value, second, input, red, green, s, input, x, y);
    OperandMergedCoherent(r1.value, second, input, red, green);
    assert OperandsMerged(m, k, e, endpoints) == PassedThrough(r2.value, k, e, red, green, out);
    PassedThroughJoins(r2.value, k, e, red, green, out, x);
  }

  /** When extraction succeeds, for every pass-through decider without a
      wildcard and every input network x of it that phase 1 gave a group in
      its output signal's collection: the output network had a group there
      too, and x and the output network share a group in the result. */
  lemma {:induction false} ExtractedPassThrough(entities: seq<Entity>, endpoints: map<EndpointId, Endpoint>, i: nat,
                                                red: Option<NetId>, green: Option<NetId>, out: Option<NetId>, x: NetId)
    requires i < |entities| && entities[i].DeciderEntity? && entities[i].params.copy_count_from_input
    requires Operands(entities[i]).0 != Some(Each) && Operands(entities[i]).1 != Some(Each)
    requires (red, green) == NetsAt(endpoints, InputOf(i, entities[i])) && (red == Some(x) || green == Some(x))
    requires var (ored, ogreen) := NetsAt(endpoints, OutputOf(i, entities[i])); out == if ored.Some? then ored else ogreen
    ensures var s, m, r := entities[i].params.output_signal, Phase1(entities, endpoints, |entities|), Extracted(entities, endpoints);
      r.Success? && s in m && x in m[s].nets ==>
        out.Some? && out.value in m[s].nets && s in r.value && Joined(r.value[s], x, out.value)
  {
    var n := |entities|;
    var m := Phase1(entities, endpoints, n);
    var r := Extracted(entities, endpoints);
    var e := entities[i];
    var s := e.params.output_signal;
    if r.Failure? || s !in m || x !in m[s].nets {
      return;
    }
    Phase1Coherent(entities, endpoints, n);
    var y := if out.Some? then out.value else x;
    var before := Phase2(m, entities, endpoints, i);
    var after := Phase2(m, entities, endpoints, i + 1);
    assert before.Success? by {
      if before.Failure? { FailureStays(m, entities, endpoints, i); }
    }
    assert after.Success? by {
      if after.Failure? { FailureStays(m, entities, endpoints, i + 1); }
    }
    Phase2Coherent(m, entities, endpoints, i);
    assert after == InputsMerged(before.value, i, e, endpoints) == OperandsMerged(before.value, i, e, endpoints);
    Phase2Kept(m, entities, endpoints, 0, i, s, InputOf(i, e), x, y);
    assert Phase2(m, entities, endpoints, 0) == Success(m);
    OperandsMergedPassThrough(before.value, i, e, endpoints, red, green, out, x);
    Phase2Kept(m, entities, endpoints, i + 1, n, s, InputOf(i, e), x, y);
  }

  /** When extraction succeeds, for every combinator with a wildcard operand:
      in every collection where phase 1 gave both its red and its green input
      network a group, the two share a group in the result. */
  lemma {:induction false} ExtractedEachJoins(entities: seq<Entity>, endpoints: map<EndpointId, Endpoint>, i: nat,
                                              s: SignalId, red: NetId, green: NetId)
    requires i < |entities| && (entities[i].DeciderEntity? || entities[i].ArithmeticEntity?)
    requires Operands(entities[i]).0 == Some(Each) || Operands(entities[i]).1 == Some(Each)
    requires (Some(red), Some(green)) == NetsAt(endpoints, InputOf(i, entities[i]))
    ensures var m, r := Phase1(entities, endpoints, |entities|), Extracted(entities, endpoints);
      r.Success? && s in m && red in m[s].nets && green in m[s].nets ==>
        s in r.value && Joined(r.value[s], red, green)
  {
    var n := |entities|;
    var m := Phase1(entities, endpoints, n);
    var r := Extracted(entities, endpoints);
    var e := entities[i];
    if r.Failure? || s !in m {
      return;
    }
    Phase1Coherent(entities, endpoints, n);
    var before := Phase2(m, entities, endpoints, i);
    var after := Phase2(m, entities, endpoints, i + 1);
    assert before.Success? by {
      if before.Failure? { FailureStays(m, entities, endpoints, i); }
    }
    Phase2Coherent(m, entities, endpoints, i);
    assert after == InputsMerged(before.value, i, e, endpoints) == Success(EveryMerged(before.value, Some(red), Some(green)));
    Phase2Kept(m, entities, endpoints, 0, i, s, InputOf(i, e), red, green);
    assert Phase2(m, entities, endpoints, 0) == Success(m);
    EveryMergedJoins(before.value, Some(red), Some(green), s);
    Phase2Kept(m, entities, endpoints, i + 1, n, s, InputOf(i, e), red, green);
  }
}
