/** The constant combinator (src/entities/Constant.ts): its ordered filters,
    the `getValue` lookup, the `simple` filter list and the emission check.
    Its construction into the arena is Entities.Circuit.AddConstant. */
module Constant {
  import opened Wrappers
  import opened Wiring

  /** One output slot: a signal, its count and its slot index. */
  datatype Filter = Filter(signal: SignalId, count: int, index: int)

  /** The emitted blueprint record (position, direction and the connection
      list are not modelled). */
  datatype ConstantCombinator = ConstantCombinator(
    entity_number: EntityId,
    name: string,
    is_on: bool,
    filters: seq<Filter>)

  /** The signals the filters assert. */
  function FilterSignals(filters: seq<Filter>): set<SignalId> {
    set i | 0 <= i < |filters| :: filters[i].signal
  }

  /** The count of the first filter whose signal is `s`, or nothing. */
  function Lookup(filters: seq<Filter>, s: SignalId): (r: Option<int>)
    ensures r.None? <==> s !in FilterSignals(filters)
    ensures r.Some? ==> exists i :: 0 <= i < |filters| && filters[i].signal == s && filters[i].count == r.value
                                    && forall j :: 0 <= j < i ==> filters[j].signal != s
  {
    if |filters| == 0 then None
    else if filters[0].signal == s then Some(filters[0].count)
    else
      var r := Lookup(filters[1..], s);
      assert FilterSignals(filters) == {filters[0].signal} + FilterSignals(filters[1..]) by {
        forall x | x in FilterSignals(filters) ensures x in {filters[0].signal} + FilterSignals(filters[1..]) {
          var i :| 0 <= i < |filters| && filters[i].signal == x;
          if i > 0 { assert filters[1..][i - 1].signal == x; }
        }
        forall x | x in FilterSignals(filters[1..]) ensures x in FilterSignals(filters) {
          var i :| 0 <= i < |filters[1..]| && filters[1..][i].signal == x;
          assert filters[i + 1].signal == x;
        }
      }
      if r.Some? then
        assert exists i :: 0 <= i < |filters| && filters[i].signal == s && filters[i].count == r.value
                            && forall j :: 0 <= j < i ==> filters[j].signal != s by {
          var i :| 0 <= i < |filters[1..]| && filters[1..][i].signal == s && filters[1..][i].count == r.value
                   && forall j :: 0 <= j < i ==> filters[1..][j].signal != s;
          assert filters[i + 1].signal == s && filters[i + 1].count == r.value;
          forall j | 0 <= j < i + 1 ensures filters[j].signal != s {
            if j > 0 { assert filters[1..][j - 1] == filters[j]; }
          }
        }
        r
      else r
  }

  /** `getValue`: a scan that returns at the first filter carrying `s`. */
  method GetValue(filters: seq<Filter>, s: SignalId) returns (r: Option<int>)
    ensures r == Lookup(filters, s)
  {
    var i := 0;
    while i < |filters|
      invariant 0 <= i <= |filters|
      invariant Lookup(filters, s) == Lookup(filters[i..], s)
    {
      if filters[i].signal == s {
        return Some(filters[i].count);
      }
      assert filters[i..][1..] == filters[i + 1..];
      i := i + 1;
    }
    return None;
  }

  /** The filter list of `Constant.simple(value)`: one slot asserting V. */
  function SimpleFilters(value: int): seq<Filter> {
    [Filter(SignalV, value, 1)]
  }

  /** A simple constant answers `value` for V and nothing for any other signal. */
  lemma SimpleLookup(value: int, s: SignalId)
    ensures Lookup(SimpleFilters(value), SignalV) == Some(value)
    ensures s != SignalV ==> Lookup(SimpleFilters(value), s).None?
    ensures FilterSignals(SimpleFilters(value)) == {SignalV}
  {
  }

  /** An endpoint with at least one partner on some colour. */
  predicate Partnered(e: Endpoint) {
    |e.redP| != 0 || |e.greenP| != 0
  }

  /** Emission of a constant whose shared endpoint is `point`: it fails when
      nothing is wired to that endpoint, and otherwise carries the entity's
      id, its on-flag and its filters unchanged. */
  function ToObj(id: EntityId, filters: seq<Filter>, isOn: bool, point: Endpoint)
    : (r: Result<ConstantCombinator, string>)
    ensures r.Failure? <==> point.redP == {} && point.greenP == {}
    ensures r.Failure? ==> r.error == "Unconnected Constant"
    ensures r.Success? ==> r.value.entity_number == id && r.value.name == "constant-combinator"
                           && r.value.is_on == isOn && r.value.filters == filters
  {
    if !Partnered(point) then Failure("Unconnected Constant")
    else Success(ConstantCombinator(id, "constant-combinator", isOn, filters))
  }
}
