/** The decider combinator (src/entities/Decider.ts): its comparator, its
    condition record and the check-then-build emission of its blueprint record.
    Its construction into the arena is Entities.Circuit.AddDecider. */
module Decider {
  import opened Wrappers
  import opened Wiring

  /** The six comparators a decider condition may use. */
  datatype Comparator = LT | LE | GT | GE | EQ | NE

  /** The string each comparator is written as in a blueprint. */
  function Symbol(c: Comparator): string {
    match c
    case LT => "<"
    case LE => "≤"
    case GT => ">"
    case GE => "≥"
    case EQ => "="
    case NE => "≠"
  }

  /** Reads a comparator back from its blueprint string. */
  function FromSymbol(s: string): Option<Comparator> {
    if s == "<" then Some(LT)
    else if s == "≤" then Some(LE)
    else if s == ">" then Some(GT)
    else if s == "≥" then Some(GE)
    else if s == "=" then Some(EQ)
    else if s == "≠" then Some(NE)
    else None
  }

  const Symbols: set<string> := {"<", "≤", ">", "≥", "=", "≠"}

  /** The comparator strings are exactly six distinct values, and reading a
      string back recovers the comparator it was written from, and only it. */
  lemma {:induction false} SymbolsExact(c: Comparator, s: string)
    ensures Symbol(c) in Symbols && |Symbols| == 6
    ensures FromSymbol(Symbol(c)) == Some(c)
    ensures FromSymbol(s) == Some(c) <==> Symbol(c) == s
    ensures FromSymbol(s).Some? <==> s in Symbols
  {
    match c
    case LT =>
    case LE =>
    case GT =>
    case GE =>
    case EQ =>
    case NE =>
  }

  /** The condition and output of a decider. The second operand is either a
      signal or a literal constant. */
  datatype DeciderParams = DeciderParams(
    first_signal: SignalId,
    second_signal: Option<SignalId>,
    constant: Option<int>,
    comparator: Comparator,
    output_signal: SignalId,
    copy_count_from_input: bool)

  /** Exactly one of `second_signal` and `constant` is given. */
  predicate HasOneOperand(p: DeciderParams) {
    p.second_signal.None? != p.constant.None?
  }

  /** The emitted blueprint record (position, direction and the connection
      lists are not modelled). */
  datatype DeciderCombinator = DeciderCombinator(
    entity_number: EntityId,
    name: string,
    decider_conditions: DeciderParams)

  /** An endpoint with a network attached on at least one colour. */
  predicate Wired(e: Endpoint) {
    e.red.Some? || e.green.Some?
  }

  /** Emission of a decider whose input and output endpoints are `input` and
      `output`: it fails unless both are wired, and otherwise carries the
      entity's id and its condition unchanged. */
  function ToObj(id: EntityId, params: DeciderParams, input: Endpoint, output: Endpoint)
    : (r: Result<DeciderCombinator, string>)
    ensures r.Failure? <==> (input.red.None? && input.green.None?) || (output.red.None? && output.green.None?)
    ensures r.Failure? ==> r.error == "Unconnected Decider"
    ensures r.Success? ==> r.value.entity_number == id && r.value.name == "decider-combinator"
                           && r.value.decider_conditions == params
  {
    if !Wired(input) || !Wired(output) then Failure("Unconnected Decider")
    else Success(DeciderCombinator(id, "decider-combinator", params))
  }
}
