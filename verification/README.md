# Combinator netlist core: entities, memory synthesis and signal grouping

This project is a Dafny model of the core of a compiler. The compiler turns a
Yosys-style netlist into a circuit of wire-network combinators. Those are
constant, decider and arithmetic combinators, joined by red and green wires
whose signals add up on each network. The model covers four parts:

- **Entities** (`wiring.dfy`, `entities.dfy`, `decider.dfy`, `constant.dfy`).
  - Combinators are value datatypes held in one arena, the class
    `Entities.Circuit`. The arena holds the entity list, an endpoint table
    (the network on each colour and the signals each endpoint asserts), a
    network table and the log of connections made.
  - An endpoint is named by (entity, port). A constant's single endpoint is
    port 1. A decider's or arithmetic combinator's input is port 1 and its
    output is port 2.
  - The decider's comparator strings, its "exactly one of second signal and
    constant" rule and the unconnected-entity check of `toObj` are modelled.
  - So are the constant's first-match `getValue`, `Constant.simple` and
    `toObj`.
- **Memory synthesis** (`mem.dfy`): the class `Mem.MemNode`.
  - Creating it runs the cell's supported-feature checks, in source order.
    Each check is an `arraySame` scan. A cell that passes is sliced into one
    read segment per read port.
  - `_connect` appends exactly the recipe to the arena, records exactly the
    recipe's wiring, and points each read segment at the last decoder of its
    port. The recipe is:
    - a write-transaction gate;
    - per row, a write select and a two-decider latch;
    - per read port, an address transformer and a chain of decoders, one per
      row.
  - Lemmas state the entity-count law, the position and condition of every
    entity, and the connections each row and decoder receives.
- **Signal renaming** (`rename.dfy`, plus `Groups.ChangeEntitySignal` and
  `Groups.GroupCollection.ChangeSignal`): `_changeSignal` and `changeSignal`,
  modelled on values first and then in place on the arena.
- **Signal grouping** (`groups.dfy`, `extract.dfy`, `extract_facts.dfy`,
  `phase2_facts.dfy`).
  - A `GroupCollection` keeps its groups in an append-only store. It also
    keeps the set of live group ids and the map from each network to its
    current group. It is a class whose methods match spec functions on the
    value type `Groups.Collection`.
  - `extractSignalGroups` is the method `Extract.ExtractSignalGroups`, proved
    equal to the two-phase spec function `Extract.Extracted`.
  - `ExtractFacts` proves what the two phases guarantee:
    - every collection keeps the union-find invariant;
    - after phase 1, each producer's output endpoint is in the group of each
      network on its output, under every signal it produces;
    - phase 2 joins an input's red and green networks, adds the input
      endpoint to their group, and joins a pass-through decider's input
      networks with its output network.
  - `Phase2Facts` proves that no step of phase 2 adds or drops a network,
    moves an endpoint out of its network's group or separates two joined
    networks. So the phase-1 records and the joins of each phase-2 step hold
    in the result of the whole pass.

Behaviour of the code worth noting. The model follows the code in each case:

- **The `each` wildcard.** When either operand is `each`,
  `src/optimization/groups.ts:175-178` runs `mergeInput` once in each
  existing collection. In each collection, that merges only the groups of
  this entity's own red and green input networks.
- **Renaming a decider's input.** When both operands equal the old signal,
  only `first_signal` is renamed (`src/entities/Decider.ts` fields, renamed
  by `src/optimization/groups.ts:15-18`).
- **Crashes become errors.** The code dereferences `undefined` in three
  places. The model turns each one into an error value:
  - `groups.get(s)` for a signal with no collection (`MissingSignal`);
  - the pass-through `why` group, when `mergeInput` found a group for the
    input (the `if (g)` of `src/optimization/groups.ts:191`) but the output
    network has no group in that collection (`MissingGroup`);
  - `last.output` for a memory with read ports but no rows (`NoRowToRead`).
    The code only gets there after building the transaction gate, wiring its
    two inputs and building the first port's address transformer, and it has
    already pushed both entities onto the node's list. The model's failure
    leaves exactly that state behind.

## Model

| member | source | states |
|---|---|---|
| Decider.SymbolsExact | src/entities/Decider.ts:6-13 | the six comparators have six distinct symbols; reading a symbol back gives its comparator, and only those six strings read back |
| Decider.ToObj | src/entities/Decider.ts:50-68 | emission fails with "Unconnected Decider" exactly when the input or the output has no network on either colour; otherwise the record carries the entity id and the name "decider-combinator" |
| Constant.Lookup | src/entities/Constant.ts:52-56 | no value exactly when no filter carries the signal; otherwise the count of the first filter that carries it |
| Constant.GetValue | src/entities/Constant.ts:52-56 | the scan returns the first matching filter's count, as Lookup specifies |
| Constant.SimpleLookup | src/entities/Constant.ts:58-64 | the simple constant asserts only V, with the given value, and no other signal |
| Constant.ToObj | src/entities/Constant.ts:34-50 | emission fails with "Unconnected Constant" exactly when no partner is wired on either colour; otherwise it carries the id, the on flag and the filters unchanged |
| Entities.PortsExact | src/entities/Decider.ts:40-45 | the endpoint table has exactly port 1 of every entity and port 2 of every non-constant entity |
| Entities.Circuit.AddDecider | src/entities/Decider.ts:40-48 | succeeds exactly when exactly one of second signal and constant is given; appends the decider with an input that asserts nothing and an output that asserts the output signal; changes nothing on failure |
| Entities.Circuit.AddConstant | src/entities/Constant.ts:27-32 | appends a switched-on constant whose one endpoint is both input and output and asserts the filters' signals |
| Entities.Circuit.AddSimpleConstant | src/entities/Constant.ts:58-64 | appends the constant with the single filter (V, value) |
| Entities.Circuit.AddArithmetic | src/nodes/Mem.ts:138-139 | appends the address transformer with an input and an output asserting its output signal |
| Entities.Circuit.MakeConnection | src/nodes/Mem.ts:92-93 | records the connection of the given colour between the given endpoints, after all earlier ones |
| Mem.ArraySame | src/nodes/Mem.ts:10-16 | true exactly when every element equals the expected one (so an empty array qualifies) |
| Mem.AcceptedIff | src/nodes/Mem.ts:31-56 | a cell is accepted exactly when every supported-feature condition holds |
| Mem.Rejections | src/nodes/Mem.ts:31-56 | more than 32 address bits is rejected with "too many address bits"; otherwise data wider than 32 bits is rejected with "cannot store > 32 bit numbers", and otherwise preset memory with "memory initialization not implemented"; more than one write port, non-uniform write enable and a read enable that is not 1 are all rejected |
| Mem.CheckCell | src/nodes/Mem.ts:31-56 | the checks, run with arraySame scans, report the first violated condition in source order |
| Mem.SegmentsTile | src/nodes/Mem.ts:58-64 | the first k read segments laid end to end are exactly the first k·WIDTH data bits |
| Mem.SegmentAt | src/nodes/Mem.ts:60-63 | read segment i holds exactly data bits [i·WIDTH, (i+1)·WIDTH) |
| Mem.MemNode.constructor | src/nodes/Mem.ts:24-65 | for an accepted cell, one unconnected read segment per read port, sliced from RD_DATA |
| Mem.MemNode.Create | src/nodes/Mem.ts:24-65 | fails exactly when a check fails, with the first violated check; otherwise a fresh node with the cell's segments and no entities |
| Mem.MemNode.Connect | src/nodes/Mem.ts:67-163 | fails exactly when the write clock is not a primary input or there are read ports but no rows; a non-input clock aborts before anything is added, leaving the arena, the entity list and the read segments unchanged; a missing row leaves the gate and the first transformer in the arena and in the entity list, and the gate's two input wires in the log, with the read segments unchanged; otherwise appends exactly the recipe and its wiring, lists the new entity ids, and points each read segment at its chain's end |
| Mem.MemNode.Build | src/nodes/Mem.ts:78-160 | the gate, the rows and the ports, in that order: the arena grows by the recipe and the log by its wiring; with no rows and some read ports it fails after the gate and one transformer, with only the gate's wiring logged |
| Mem.MemNode.AddGate | src/nodes/Mem.ts:83-93 | appends the "V = 2 -> C = 1" gate and connects clock (red) and enable (green) to its input |
| Mem.MemNode.AddRows | src/nodes/Mem.ts:95-132 | appends every row's three deciders and wiring, in order, and returns each row's setting latch half |
| Mem.MemNode.NextRow | src/nodes/Mem.ts:97-132 | one turn of the rows' loop extends the rows built so far by row i |
| Mem.MemNode.AddRow | src/nodes/Mem.ts:98-131 | appends row i's write select and both latch halves with their six connections |
| Mem.MemNode.AddSelect | src/nodes/Mem.ts:98-106 | appends "V = i + OFFSET -> pass C" wired to the write address (red) and the gate (green) |
| Mem.MemNode.AddLatch | src/nodes/Mem.ts:108-129 | appends the setting and holding halves and their four connections: data in, select to both, outputs joined, feedback |
| Mem.MemNode.AddPorts | src/nodes/Mem.ts:135-160 | appends every read port's transformer and decoders with their wiring and points the segments; fails when a port has no row to read, after adding that port's transformer and no wiring |
| Mem.MemNode.NextPort | src/nodes/Mem.ts:135-160 | one turn of the read ports' loop extends the ports built so far by port p; with no rows, that is the transformer alone and no wiring |
| Mem.MemNode.AddPort | src/nodes/Mem.ts:136-157 | appends port p's transformer, then one decoder per row, and returns the chain's last decoder |
| Mem.MemNode.AddChain | src/nodes/Mem.ts:141-157 | appends the decoders of one port and their wiring, and returns the last one (none without rows) |
| Mem.MemNode.NextDecoder | src/nodes/Mem.ts:142-157 | one turn of the decoders' loop extends the chain by decoder j |
| Mem.MemNode.AddDecoder | src/nodes/Mem.ts:143-155 | appends "C = j + OFFSET -> pass V", reading row j's latch (green) and the transformer (red), joined to the previous decoder's output |
| Mem.MemNode.PointSegment | src/nodes/Mem.ts:159 | read segment p now ends at its chain's last decoder; the other segments are unchanged |
| Mem.RecipeCount | src/nodes/Mem.ts:83-157 | `_connect` creates 1 + 3·SIZE + RD_PORTS·(1 + SIZE) entities, the first being the write-transaction gate |
| Mem.RecipeRow | src/nodes/Mem.ts:98-123 | row i's entities sit at 1 + 3i, 2 + 3i and 3 + 3i and compare against i + OFFSET, C = 1 and C = 0 |
| Mem.RecipePort | src/nodes/Mem.ts:138-150 | port p's transformer and decoder j sit at their computed positions; the decoder compares against j + OFFSET |
| Mem.WiringGate | src/nodes/Mem.ts:92-93 | the gate hears the clock on red and the enable on green |
| Mem.WiringRow | src/nodes/Mem.ts:105-129 | row i's select is gated by the transaction, drives both latch halves, and the halves are joined and fed back |
| Mem.WiringPort | src/nodes/Mem.ts:152-155 | decoder j of port p reads row j's latch and the port's transformer, and shares its output with decoder j - 1 |
| Mem.TransformerAt | src/nodes/Mem.ts:135-139 | port p's transformer sits at 1 + 3·SIZE + p·(1 + SIZE) after the node's first entity |
| Mem.Pointed | src/nodes/Mem.ts:135-160 | pointing the first p segments keeps the number of segments (its meaning is PointedAt) |
| Mem.PointedAt | src/nodes/Mem.ts:159 | after p ports, each segment q < p ends at the output of port q's last decoder, and every later segment is unchanged |
| Mem.PointedSlices | src/nodes/Mem.ts:58-64 | pointing segments at their drivers leaves their data bits as sliced |
| Mem.RangeAt | src/nodes/Mem.ts:90 | the recorded entity ids are exactly the new ids, in creation order |
| Rename.RenameFilters | src/optimization/groups.ts:24-26 | renaming keeps the number of filters (its meaning is RenameFiltersSignals) |
| Rename.RenameEntities | src/optimization/groups.ts:97-102 | renaming at a set of endpoints keeps the number of entities |
| Rename.RenameEntitiesStep | src/optimization/groups.ts:97-102 | renaming at one more endpoint fails exactly when it fails on the original entity, and otherwise extends the renames done so far, so the endpoints may be visited in any order |
| Rename.RenameFiltersSignals | src/optimization/groups.ts:23-26 | renaming a constant's filters replaces the old signal by the new one among its signals, filter by filter, and leaves counts alone |
| Rename.RenameAtMeaning | src/optimization/groups.ts:11-28 | a rename succeeds exactly on a constant, on an input naming the old signal in an operand, or on an output whose signal is the old one; it changes only that field and reports the endpoint on failure |
| Rename.RenameCommutes | src/optimization/groups.ts:14-22 | renaming at an input and at an output touch different fields, so their order does not matter |
| Rename.RenameLeavesNoTrace | src/optimization/groups.ts:89-103 | every renamed network and endpoint carries the new signal and not the old one; the others are unchanged |
| Groups.MergeGroupsMembers | src/optimization/groups.ts:42-47 | a merged group holds exactly the union of both groups' endpoints and networks; merging is symmetric and a group merged with itself is unchanged |
| Groups.Merged | src/optimization/groups.ts:72-87 | the merged collection keeps every existing group and returns a group it holds (its meaning is MergeOutcome) |
| Groups.WithNewGroup | src/optimization/groups.ts:129-132 | the new group is appended after every existing one |
| Groups.MergeSelf | src/optimization/groups.ts:73 | merging a group with itself returns it and changes nothing |
| Groups.MergeOutcome | src/optimization/groups.ts:72-87 | merging two distinct live groups retires both, adds the union as a live group, points each of their networks at it, and leaves every other network and the network set unchanged |
| Groups.MergeCoherent | src/optimization/groups.ts:72-87 | a merge keeps the collection invariant and returns a live group |
| Groups.MergeJoins | src/optimization/groups.ts:72-87 | networks that shared a group still do, and after merging a and b a network of a shares the group of a network of b |
| Groups.RetireCoherent | src/optimization/groups.ts:90-95 | dropping a live group and its networks keeps the collection invariant |
| Groups.GroupCollection.constructor | src/optimization/groups.ts:66-70 | a new collection has no group and no network |
| Groups.GroupCollection.Lookup | src/optimization/groups.ts:124-125 | none exactly when the network is absent or unmapped; in a valid collection a found group is live and lists the network |
| Groups.GroupCollection.Merge | src/optimization/groups.ts:72-87 | the in-place merge has exactly the effect of Merged |
| Groups.GroupCollection.NewGroup | src/optimization/groups.ts:129-132 | adds one new live group with no members |
| Groups.GroupCollection.AddPoint | src/optimization/groups.ts:134 | adds the endpoint to the group |
| Groups.GroupCollection.AddNet | src/optimization/groups.ts:135-142 | maps a present network to the group and adds it to the group's networks |
| Groups.GroupCollection.ChangeSignal | src/optimization/groups.ts:89-103 | retires the group and drops its networks from the map, renames its networks, and renames its endpoints; fails exactly when some endpoint's entity refuses the rename |
| Groups.RenamePoints | src/optimization/groups.ts:97-102 | every endpoint of the set asserts the new signal, and its entity is renamed there; fails, naming the endpoint, exactly when one entity refuses |
| Groups.RenamePoint | src/optimization/groups.ts:98-101 | one turn of the endpoint loop renames endpoint p and its entity field |
| Groups.ChangeEntitySignal | src/optimization/groups.ts:11-28 | in place, succeeds exactly when the value-level rename does, with the same new entity; fails naming the endpoint otherwise |
| Groups.RenameEachFilter | src/optimization/groups.ts:24-26 | the loop over a constant's filters yields the renamed filters |
| Groups.AddToSet | src/optimization/groups.ts:30-34 | the result is the union of both sets |
| Groups.NetworkSignals | src/optimization/groups.ts:49-63 | the signals of a group are the output signals of every endpoint on its networks, plus each pass-through decider's output signal |
| Groups.NetworkPointSignals | src/optimization/groups.ts:53-58 | the inner loop collects the signals of one network's endpoints |
| Extract.SeedTarget | src/optimization/groups.ts:124-132 | the group picked exists in the updated collection (its meaning is SeedTargetFacts) |
| Extract.Seeded | src/optimization/groups.ts:124-142 | seeding keeps every group id in range (its meaning is SeededCoherent, SeededRecords and SeededKeeps) |
| Extract.Produce | src/optimization/groups.ts:109-143 | producing s adds s to the signals with collections and keeps the others |
| Extract.ProduceAll | src/optimization/groups.ts:145-151 | producing a list of signals keeps every group id in range |
| Extract.Phase1 | src/optimization/groups.ts:119-152 | phase 1 keeps every group id in range (its meaning is Phase1Coherent and Phase1Records) |
| Extract.InputMerged | src/optimization/groups.ts:158-172 | the group found exists in the updated collection (its meaning is InputMergedFacts and InputMergedJoins) |
| Extract.OperandMerged | src/optimization/groups.ts:181-182 | a successful operand merge keeps the set of signals with collections |
| Extract.PassedThrough | src/optimization/groups.ts:185-192 | a successful pass-through join keeps the set of signals with collections (its meaning is PassedThroughJoins) |
| Extract.EveryMerged | src/optimization/groups.ts:175-178 | the wildcard keeps the set of signals with collections (its meaning is EveryMergedJoins) |
| Extract.InputsMerged | src/optimization/groups.ts:156-193 | a successful phase 2 step keeps the set of signals with collections |
| Extract.OperandsMerged | src/optimization/groups.ts:180-192 | both operands and the pass-through join keep the set of signals with collections |
| Extract.Phase2 | src/optimization/groups.ts:155-194 | a successful phase 2 keeps the set of signals with collections (what it preserves and what it joins: Phase2Facts.Phase2Kept, Phase2Facts.ExtractedRecords, Phase2Facts.ExtractedJoins) |
| Extract.ProcessSignal | src/optimization/groups.ts:124-142 | processSignal's body on its collection has the effect of Seeded |
| Extract.ProduceSignal | src/optimization/groups.ts:109-143 | getGroup creates a missing collection; then the collection of s is seeded and every other collection is untouched |
| Extract.SeedGroups | src/optimization/groups.ts:119-152 | phase 1 leaves the collections equal to Phase1 over all entities, all freshly made |
| Extract.SeedEntity | src/optimization/groups.ts:145-151 | phase 1 on one entity seeds the collection of each signal it produces |
| Extract.SeedNext | src/optimization/groups.ts:146-150 | one turn of that loop seeds one more produced signal |
| Extract.MergeInput | src/optimization/groups.ts:158-172 | mergeInput's body has the effect of InputMerged |
| Extract.MergeEvery | src/optimization/groups.ts:175-178 | the wildcard branch runs mergeInput in every collection |
| Extract.MergeOperand | src/optimization/groups.ts:181-182 | an operand with a collection runs mergeInput and adds the input endpoint to the group found; a missing collection aborts with MissingSignal |
| Extract.MergePassThrough | src/optimization/groups.ts:185-192 | a pass-through decider merges its input's group with its output network's group in the output signal's collection; it aborts when that collection is missing, or when mergeInput found a group for the input there but the output network has none; with no group for the input it makes no further change |
| Extract.MergeEntityInputs | src/optimization/groups.ts:155-194 | phase 2 on one entity: the wildcard, or both operands then the pass-through join |
| Extract.MergeOperands | src/optimization/groups.ts:180-192 | the operands in order, then the pass-through join, stopping at the first failure |
| Extract.MergeStep | src/optimization/groups.ts:155-194 | one turn of phase 2; a failure is the pass's failure |
| Extract.ExtractSignalGroups | src/optimization/groups.ts:106-197 | succeeds exactly when Extracted does, with collections holding its states, and fails with its error |
| Extract.FailureStays | src/optimization/groups.ts:155-194 | once phase 2 fails, the rest of the pass fails with the same error |
| ExtractFacts.SeededCoherent | src/optimization/groups.ts:124-142 | processSignal keeps the collection invariant |
| ExtractFacts.SeededRecords | src/optimization/groups.ts:124-142 | processSignal puts the output endpoint in the group of each network on the output; the two networks share that group |
| ExtractFacts.SeededKeeps | src/optimization/groups.ts:124-142 | processSignal keeps every membership and join recorded earlier |
| ExtractFacts.SeedTargetFacts | src/optimization/groups.ts:124-132 | the group processSignal picks is live, every mapped output network maps to it, and memberships and joins survive |
| ExtractFacts.Phase1Coherent | src/optimization/groups.ts:119-152 | phase 1 leaves every collection coherent |
| ExtractFacts.Phase1AllRecorded | src/optimization/groups.ts:119-152 | after phase 1 has visited k entities, every visited producer's output is recorded under every signal it produces |
| ExtractFacts.Phase1Records | src/optimization/groups.ts:119-152 | after phase 1, the collection of each produced signal exists; the producer's output endpoint is in the group of each of its networks, which are members of that group, one group when both colours are wired |
| ExtractFacts.InputMergedFacts | src/optimization/groups.ts:158-172 | mergeInput keeps the invariant, returns a live group, adds or drops no network and keeps joins |
| ExtractFacts.InputMergedJoins | src/optimization/groups.ts:158-172 | mergeInput finds a group exactly when one input network has one; every input network with a group is then in it, so red and green are joined |
| ExtractFacts.OperandMergedJoins | src/optimization/groups.ts:181-182 | with the operand's collection present, the input endpoint joins the group now holding the input's networks, and red and green are joined |
| ExtractFacts.PassedThroughJoins | src/optimization/groups.ts:185-192 | for a pass-through decider whose input network has a group, the join aborts exactly when the output network has none; otherwise they share one group |
| ExtractFacts.EveryMergedJoins | src/optimization/groups.ts:175-178 | the wildcard joins the input's red and green networks in every collection where both have a group, and keeps every collection's networks |
| ExtractFacts.OperandMergedCoherent | src/optimization/groups.ts:181-182 | an operand merge keeps every collection coherent |
| ExtractFacts.PassedThroughCoherent | src/optimization/groups.ts:185-192 | the pass-through join keeps every collection coherent |
| ExtractFacts.EveryMergedCoherent | src/optimization/groups.ts:175-178 | the wildcard keeps every collection coherent |
| ExtractFacts.OperandsMergedCoherent | src/optimization/groups.ts:180-192 | both operands and the pass-through join keep every collection coherent |
| ExtractFacts.InputsMergedCoherent | src/optimization/groups.ts:156-193 | one phase 2 step keeps every collection coherent |
| ExtractFacts.Phase2Coherent | src/optimization/groups.ts:155-194 | phase 2 keeps every collection coherent |
| ExtractFacts.ExtractedCoherent | src/optimization/groups.ts:106-197 | when extraction succeeds, in every collection each mapped network points at a live group listing it, and live groups share no network |
| Phase2Facts.MergedKept | src/optimization/groups.ts:72-87 | merging two live groups adds and drops no network, keeps every endpoint in its network's group and keeps every join |
| Phase2Facts.WithPointKept | src/optimization/groups.ts:181-182 | adding the input endpoint to a group adds and drops no network and keeps every membership and join |
| Phase2Facts.InputMergedKept | src/optimization/groups.ts:158-172 | mergeInput adds and drops no network and keeps every membership and join |
| Phase2Facts.OperandMergedKept | src/optimization/groups.ts:181-182 | a successful operand merge keeps, in every collection, every network, membership and join |
| Phase2Facts.PassedThroughKept | src/optimization/groups.ts:185-192 | a successful pass-through join keeps, in every collection, every network, membership and join |
| Phase2Facts.OperandsMergedKept | src/optimization/groups.ts:180-192 | both operands and the pass-through join keep, in every collection, every network, membership and join |
| Phase2Facts.InputsMergedKept | src/optimization/groups.ts:156-193 | one successful phase 2 step keeps, in every collection, every network, membership and join |
| Phase2Facts.Phase2Kept | src/optimization/groups.ts:155-194 | a phase 2 success after k entities was a success after every i <= k, and each collection kept from i to k every network, membership and join |
| Phase2Facts.ExtractedKept | src/optimization/groups.ts:106-197 | a successful extraction keeps in each collection every network, membership and join phase 1 left |
| Phase2Facts.ExtractedRecords | src/optimization/groups.ts:106-197 | when extraction succeeds, each producer's output endpoint is still in the group of each network on its output, under every signal it produces, and its red and green networks still share a group |
| Phase2Facts.OperandsMergedJoins | src/optimization/groups.ts:180-192 | a combinator step succeeds only if each operand signal has a collection; the input endpoint then shares a group with each input network that had one, and red and green with groups are joined |
| Phase2Facts.ExtractedJoins | src/optimization/groups.ts:106-197 | when extraction succeeds, each operand signal of a combinator without a wildcard has a collection; the combinator's input endpoint is in the group of each input network phase 1 gave a group, and its red and green networks share one |
| Phase2Facts.OperandsMergedPassThrough | src/optimization/groups.ts:185-192 | for a pass-through decider, when an input network has a group in the output signal's collection, the step succeeds only if the output network has one too, and then the two share a group |
| Phase2Facts.ExtractedPassThrough | src/optimization/groups.ts:106-197 | when extraction succeeds, each pass-through decider's input network that phase 1 gave a group in its output signal's collection shares a group with the output network in the result, and the output network had a group |
| Phase2Facts.ExtractedEachJoins | src/optimization/groups.ts:175-178 | when extraction succeeds, for a combinator with a wildcard operand, its red and green input networks share a group in every collection where phase 1 gave both one |

## Left out

- `makeConnection` and the merging of networks (`src/entities/Entity.js`) are not part of this model. A connection is a record in the arena's log. The networks on each endpoint are inputs to the optimiser.
- `createTransformer` (`src/nodes/Node.ts`) is not part of this model. The address transformer is an arithmetic combinator whose parameters the caller supplies. Its input wiring, which `createTransformer` does, is not recorded.
- `getInputNode` (the netlist walker) is a parameter of `Connect`. It returns whether the node is a primary input and its output endpoint. Each read port's `RD_ADDR` lookup is not recorded, because the transformer stands for it.
- An empty write enable: `WR_EN[0]` is `undefined` in the source. The model passes an empty bit vector to `getInputNode`.
- Entity positions, directions and the connection descriptors in `toObj` are left out. The emitted record keeps the id, the name and the control behaviour.
- A failed `logger.assert` is modelled as a returned error. The model stops there; it does not log and continue.
- The `debugger` statement, `combs()`, and `output()`'s "Method not allowed" are not modelled.
- Tick-by-tick electrical behaviour (signal summation, latch timing) is not modelled. The model states the structure `_connect` builds, not what it computes.
- `Arithmetic.ts` and `Node.ts` are not part of this model. An arithmetic combinator is modelled only as far as the optimiser and the memory use it: operands, output signal, ports.
- Signal identities are compared by value (type and name). The source compares them by object reference.
- Widths, counts and constants are unbounded integers; no 32-bit behaviour is modelled.
- Groups.NetworkSignals: does not model the `_signals` cache. The signal set is recomputed on every call.
- Groups.GroupCollection.ChangeSignal: when an entity refuses the rename, the source has already changed the earlier endpoints and networks. The model states this partial state only through the failure condition and the renamed networks.
- Groups.GroupCollection.ChangeSignal: can break the collection invariant if called on a group that is no longer live. The model requires only that the group exists, as the source does.
- Extract.ExtractSignalGroups: the collections are keyed by signal value, and group identity is an index into each collection's store, not an object reference.
- Extract.Phase2: the lemmas state what phase 2 keeps and every join it makes (Phase2Facts). They do not state that it makes no other join, or which entity's error a failed pass reports beyond the first failure being kept (Extract.FailureStays).
