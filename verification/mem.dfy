/** The memory synthesiser (src/nodes/Mem.ts): the preconditions a memory
    cell must meet, the split of its read data into one segment per read port,
    and the fixed recipe of deciders and connections `_connect` builds: one
    write-transaction gate, three deciders per row (write select and a
    two-decider feedback latch) and, per read port, an address transformer
    followed by a chain of one decode decider per row. */
module Mem {
  import opened Wrappers
  import opened Wiring
  import opened Decider
  import opened Entities

  /** One bit of a cell connection: a literal 0, 1, x or z, or a numbered net. */
  datatype Bit = Zero | One | X | Z | Net(id: nat)

  /** The memory cell's parameters (widths and counts are non-negative). */
  datatype MemParams = MemParams(
    ABITS: nat, WIDTH: nat, SIZE: nat, OFFSET: int, RD_PORTS: nat, WR_PORTS: int,
    INIT: string,
    RD_WIDE_CONTINUATION: int, RD_CLK_ENABLE: int, RD_CLK_POLARITY: int,
    RD_TRANSPARENCY_MASK: int, RD_COLLISION_X_MASK: int, RD_CE_OVER_SRST: int,
    RD_INIT_VALUE: string, RD_ARST_VALUE: string, RD_SRST_VALUE: string,
    WR_WIDE_CONTINUATION: int, WR_CLK_ENABLE: int, WR_CLK_POLARITY: int, WR_PRIORITY_MASK: int)

  /** The memory cell's port connections, bit by bit. */
  datatype MemConnections = MemConnections(
    RD_CLK: seq<Bit>, RD_EN: seq<Bit>, RD_ARST: seq<Bit>, RD_SRST: seq<Bit>,
    RD_ADDR: seq<Bit>, RD_DATA: seq<Bit>,
    WR_ADDR: seq<Bit>, WR_DATA: seq<Bit>, WR_EN: seq<Bit>, WR_CLK: seq<Bit>)

  datatype MemCell = MemCell(parameters: MemParams, connections: MemConnections)

  /** Why a memory cell is rejected: one case per check, in source order, and
      the two failures of `_connect`. */
  datatype MemError =
    | TooManyAddressBits | DataTooWide | InitNotImplemented
    | ReadWideContinuation | ReadClockEnabled | ReadClockPolarity | ReadTransparency
    | ReadCollisionMask | ReadCeOverSrst | ReadInitValue | ReadAsyncResetValue | ReadSyncResetValue
    | MultipleWritePorts | WriteWideContinuation | WriteClockUnset | WriteClockInverted
    | WritePriorityMask
    | ReadClockConnected | ReadEnableGated | ReadAsyncReset | ReadSyncReset
    | WriteEnableMixed
    | ClockNotInput | NoRowToRead

  /** The message the cell's assertion carries, where it has one. */
  function Message(e: MemError): string {
    match e
    case TooManyAddressBits => "too many address bits"
    case DataTooWide => "cannot store > 32 bit numbers"
    case InitNotImplemented => "memory initialization not implemented"
    case MultipleWritePorts => "only one write allowed"
    case WriteClockUnset => "wr_clk has to be set"
    case WriteClockInverted => "invert wr_clk polarity"
    case ClockNotInput => "Not implemented"
    case _ => ""
  }

  /** Every element of `xs` is `e` (so an empty sequence qualifies). */
  predicate AllSame<T(==)>(xs: seq<T>, e: T) {
    forall i :: 0 <= i < |xs| ==> xs[i] == e
  }

  /** `arraySame`: a scan that stops at the first element differing from `expected`. */
  method ArraySame<T(==)>(xs: seq<T>, expected: T) returns (same: bool)
    ensures same <==> forall i :: 0 <= i < |xs| ==> xs[i] == expected
    ensures !same ==> exists i :: 0 <= i < |xs| && xs[i] != expected
  {
    var i := 0;
    while i < |xs|
      invariant 0 <= i <= |xs|
      invariant forall k :: 0 <= k < i ==> xs[k] == expected
    {
      if xs[i] != expected {
        return false;
      }
      i := i + 1;
    }
    return true;
  }

  /** All write-enable bits equal the first one (`WR_EN[0]`); vacuous when empty. */
  predicate UniformEnable(en: seq<Bit>) {
    |en| == 0 || AllSame(en, en[0])
  }

  /** The first precondition the cell violates, checked in source order. */
  function FirstViolation(cell: MemCell): Option<MemError> {
    var p := cell.parameters;
    var c := cell.connections;
    if p.ABITS > 32 then Some(TooManyAddressBits)
    else if p.WIDTH > 32 then Some(DataTooWide)
    else if !AllSame(p.INIT, 'x') then Some(InitNotImplemented)
    else if p.RD_WIDE_CONTINUATION != 0 then Some(ReadWideContinuation)
    else if p.RD_CLK_ENABLE != 0 then Some(ReadClockEnabled)
    else if p.RD_CLK_POLARITY != 0 then Some(ReadClockPolarity)
    else if p.RD_TRANSPARENCY_MASK != 0 then Some(ReadTransparency)
    else if p.RD_COLLISION_X_MASK != 0 then Some(ReadCollisionMask)
    else if p.RD_CE_OVER_SRST != 0 then Some(ReadCeOverSrst)
    else if !AllSame(p.RD_INIT_VALUE, 'x') then Some(ReadInitValue)
    else if !AllSame(p.RD_ARST_VALUE, 'x') then Some(ReadAsyncResetValue)
    else if !AllSame(p.RD_SRST_VALUE, 'x') then Some(ReadSyncResetValue)
    else if p.WR_PORTS != 1 then Some(MultipleWritePorts)
    else if p.WR_WIDE_CONTINUATION != 0 then Some(WriteWideContinuation)
    else if p.WR_CLK_ENABLE != 1 then Some(WriteClockUnset)
    else if p.WR_CLK_POLARITY != 1 then Some(WriteClockInverted)
    else if p.WR_PRIORITY_MASK != 0 then Some(WritePriorityMask)
    else if !AllSame(c.RD_CLK, X) then Some(ReadClockConnected)
    else if !AllSame(c.RD_EN, One) then Some(ReadEnableGated)
    else if !AllSame(c.RD_ARST, Zero) then Some(ReadAsyncReset)
    else if !AllSame(c.RD_SRST, Zero) then Some(ReadSyncReset)
    else if !UniformEnable(c.WR_EN) then Some(WriteEnableMixed)
    else None
  }

  /** The cell is accepted exactly when every supported-feature condition holds. */
  lemma AcceptedIff(cell: MemCell)
    ensures FirstViolation(cell).None? <==>
      var p := cell.parameters;
      var c := cell.connections;
      p.ABITS <= 32 && p.WIDTH <= 32 && AllSame(p.INIT, 'x')
      && p.RD_WIDE_CONTINUATION == 0 && p.RD_CLK_ENABLE == 0 && p.RD_CLK_POLARITY == 0
      && p.RD_TRANSPARENCY_MASK == 0 && p.RD_COLLISION_X_MASK == 0 && p.RD_CE_OVER_SRST == 0
      && AllSame(p.RD_INIT_VALUE, 'x') && AllSame(p.RD_ARST_VALUE, 'x') && AllSame(p.RD_SRST_VALUE, 'x')
      && p.WR_PORTS == 1 && p.WR_WIDE_CONTINUATION == 0 && p.WR_CLK_ENABLE == 1
      && p.WR_CLK_POLARITY == 1 && p.WR_PRIORITY_MASK == 0
      && AllSame(c.RD_CLK, X) && AllSame(c.RD_EN, One) && AllSame(c.RD_ARST, Zero)
      && AllSame(c.RD_SRST, Zero) && UniformEnable(c.WR_EN)
  {
  }

  /** The headline rejections: address or data wider than 32 bits, preset
      contents, more or fewer than one write port, mixed write enables and a
      gated read port each make construction fail; the first check names the
      address width whatever else is wrong. */
  lemma Rejections(cell: MemCell)
    ensures cell.parameters.ABITS > 32 ==> FirstViolation(cell) == Some(TooManyAddressBits)
    ensures cell.parameters.ABITS > 32 ==> Message(FirstViolation(cell).value) == "too many address bits"
    ensures cell.parameters.ABITS <= 32 < cell.parameters.WIDTH ==>
      Message(FirstViolation(cell).value) == "cannot store > 32 bit numbers"
    ensures cell.parameters.ABITS <= 32 && cell.parameters.WIDTH <= 32 && !AllSame(cell.parameters.INIT, 'x') ==>
      Message(FirstViolation(cell).value) == "memory initialization not implemented"
    ensures cell.parameters.WIDTH > 32 ==> FirstViolation(cell).Some?
    ensures !AllSame(cell.parameters.INIT, 'x') ==> FirstViolation(cell).Some?
    ensures cell.parameters.WR_PORTS != 1 ==> FirstViolation(cell).Some?
    ensures !UniformEnable(cell.connections.WR_EN) ==> FirstViolation(cell).Some?
    ensures !AllSame(cell.connections.RD_EN, One) ==> FirstViolation(cell).Some?
  {
  }

  /** The constructor's checks, performed with `arraySame` scans. */
  method CheckCell(cell: MemCell) returns (err: Option<MemError>)
    ensures err == FirstViolation(cell)
  {
    var p := cell.parameters;
    var c := cell.connections;
    var ok: bool;
    if p.ABITS > 32 { return Some(TooManyAddressBits); }
    if p.WIDTH > 32 { return Some(DataTooWide); }
    ok := ArraySame(p.INIT, 'x');
    if !ok { return Some(InitNotImplemented); }
    if p.RD_WIDE_CONTINUATION != 0 { return Some(ReadWideContinuation); }
    if p.RD_CLK_ENABLE != 0 { return Some(ReadClockEnabled); }
    if p.RD_CLK_POLARITY != 0 { return Some(ReadClockPolarity); }
    if p.RD_TRANSPARENCY_MASK != 0 { return Some(ReadTransparency); }
    if p.RD_COLLISION_X_MASK != 0 { return Some(ReadCollisionMask); }
    if p.RD_CE_OVER_SRST != 0 { return Some(ReadCeOverSrst); }
    ok := ArraySame(p.RD_INIT_VALUE, 'x');
    if !ok { return Some(ReadInitValue); }
    ok := ArraySame(p.RD_ARST_VALUE, 'x');
    if !ok { return Some(ReadAsyncResetValue); }
    ok := ArraySame(p.RD_SRST_VALUE, 'x');
    if !ok { return Some(ReadSyncResetValue); }
    if p.WR_PORTS != 1 { return Some(MultipleWritePorts); }
    if p.WR_WIDE_CONTINUATION != 0 { return Some(WriteWideContinuation); }
    if p.WR_CLK_ENABLE != 1 { return Some(WriteClockUnset); }
    if p.WR_CLK_POLARITY != 1 { return Some(WriteClockInverted); }
    if p.WR_PRIORITY_MASK != 0 { return Some(WritePriorityMask); }
    ok := ArraySame(c.RD_CLK, X);
    if !ok { return Some(ReadClockConnected); }
    ok := ArraySame(c.RD_EN, One);
    if !ok { return Some(ReadEnableGated); }
    ok := ArraySame(c.RD_ARST, Zero);
    if !ok { return Some(ReadAsyncReset); }
    ok := ArraySame(c.RD_SRST, Zero);
    if !ok { return Some(ReadSyncReset); }
    if |c.WR_EN| > 0 {
      ok := ArraySame(c.WR_EN, c.WR_EN[0]);
      if !ok { return Some(WriteEnableMixed); }
    }
    return None;
  }

  /** JavaScript's `slice(lo, hi)` for non-negative bounds: both are clamped to
      the length, and a reversed range is empty. */
  function Slice<T>(s: seq<T>, lo: nat, hi: nat): seq<T> {
    var a := if lo < |s| then lo else |s|;
    var b := if hi < |s| then hi else |s|;
    if a <= b then s[a..b] else []
  }

  /** A read port's output placeholder: the data bits it stands for and,
      once `_connect` has run, the endpoint that drives them. Its own
      `_connect` returns `endPoint`. */
  datatype MemRead = MemRead(bits: seq<Bit>, endPoint: Option<EndpointId>)

  /** The read segments a cell yields: segment i holds the i-th WIDTH-bit slice
      of RD_DATA and has no endpoint yet. */
  function Segments(cell: MemCell): seq<MemRead> {
    Slices(cell.connections.RD_DATA, cell.parameters.RD_PORTS, cell.parameters.WIDTH)
  }

  /** n placeholders over consecutive w-bit slices of d. */
  function Slices(d: seq<Bit>, n: nat, w: nat): seq<MemRead> {
    seq(n, i requires 0 <= i => Segment(d, w, i))
  }

  /** Placeholder i: bits [i * w, (i + 1) * w) of d, as `slice` clamps them. */
  function Segment(d: seq<Bit>, w: nat, i: nat): MemRead {
    MemRead(Slice(d, Mul(i, w), Mul(i + 1, w)), None)
  }

  /** The data bits of the first k segments, in order. */
  function SegmentBits(segs: seq<MemRead>, k: nat): seq<Bit>
    requires k <= |segs|
  {
    if k == 0 then [] else SegmentBits(segs, k - 1) + segs[k - 1].bits
  }

  /** When d holds n * w bits, the first k of its n slices laid end to end are
      exactly d's first k * w bits: nothing is lost, repeated or reordered. */
  lemma {:induction false} SegmentsTile(d: seq<Bit>, n: nat, w: nat, k: nat)
    requires k <= n && |d| >= Mul(n, w)
    ensures |Slices(d, n, w)| == n
    ensures Mul(k, w) <= |d|
    ensures SegmentBits(Slices(d, n, w), k) == d[..Mul(k, w)]
  {
    MulMono(k, n, w);
    if k > 0 {
      var segs := Slices(d, n, w);
      var lo, hi := Mul(k - 1, w), Mul(k, w);
      SegmentsTile(d, n, w, k - 1);
      SegmentAt(d, n, w, k - 1);
      PrefixJoin(d, lo, hi);
      var prev, last := SegmentBits(segs, k - 1), segs[k - 1].bits;
      assert prev == d[..lo];
      assert last == d[lo..hi];
      assert SegmentBits(segs, k) == prev + last;
    }
  }

  lemma PrefixJoin<T>(d: seq<T>, lo: nat, hi: nat)
    requires lo <= hi <= |d|
    ensures d[..lo] + d[lo..hi] == d[..hi]
  {
  }

  /** Slice i holds exactly bits [i * w, (i + 1) * w) of d whenever d is long enough. */
  lemma SegmentAt(d: seq<Bit>, n: nat, w: nat, i: nat)
    requires i < n && |d| >= Mul(n, w)
    ensures Mul(i, w) + w == Mul(i + 1, w) <= |d|
    ensures Slices(d, n, w)[i] == MemRead(d[Mul(i, w)..Mul(i + 1, w)], None)
  {
    MulMono(i + 1, n, w);
  }

  /** a * w, as repeated addition (slice bounds and recipe positions are multiples). */
  function Mul(a: nat, w: nat): nat {
    if a == 0 then 0 else Mul(a - 1, w) + w
  }

  lemma {:induction false} MulIsProduct(a: nat, w: nat)
    ensures Mul(a, w) == a * w
  {
    if a > 0 {
      MulIsProduct(a - 1, w);
    }
  }

  lemma {:induction false} MulMono(a: nat, b: nat, w: nat)
    requires a <= b
    ensures Mul(a, w) <= Mul(b, w)
    decreases b
  {
    if a < b {
      MulMono(a, b - 1, w);
    }
  }

  /** What the netlist driver resolves a bit vector to: a node (an `Input` or
      not) and the endpoint its output is wired from. */
  datatype NodeRef = NodeRef(isInput: bool, output: EndpointId)

  function In(k: EntityId): EndpointId { EndpointId(k, 1) }
  function Out(k: EntityId): EndpointId { EndpointId(k, 2) }

  /** "V = 2 -> C = 1": true only while clock (red) and enable (green) are both 1. */
  const TransactionParams := DeciderParams(SignalV, None, Some(2), EQ, SignalC, false)

  /** Row i's write select: "V = i + OFFSET -> pass C through". */
  function WriteSelectParams(i: int, offset: int): DeciderParams {
    DeciderParams(SignalV, None, Some(i + offset), EQ, SignalC, true)
  }

  /** The latch's setting half, "C = 1 -> pass V through" (new write data). */
  const LatchSetParams := DeciderParams(SignalC, None, Some(1), EQ, SignalV, true)
  /** The latch's holding half, "C = 0 -> pass V through" (the fed-back value). */
  const LatchHoldParams := DeciderParams(SignalC, None, Some(0), EQ, SignalV, true)

  /** Row j's read decoder: "C = j + OFFSET -> pass V through". */
  function ReadDecodeParams(j: int, offset: int): DeciderParams {
    DeciderParams(SignalC, None, Some(j + offset), EQ, SignalV, true)
  }

  /** The entities of the first k rows, in creation order. */
  function RowEntities(k: nat, offset: int): seq<Entity> {
    if k == 0 then []
    else RowEntities(k - 1, offset)
         + [DeciderEntity(WriteSelectParams(k - 1, offset)), DeciderEntity(LatchSetParams), DeciderEntity(LatchHoldParams)]
  }

  /** The first k decode deciders of one read port. */
  function DecodeEntities(k: nat, offset: int): seq<Entity> {
    if k == 0 then [] else DecodeEntities(k - 1, offset) + [DeciderEntity(ReadDecodeParams(k - 1, offset))]
  }

  /** The entities of the first k read ports: a transformer, then `size` decoders each. */
  function PortEntities(k: nat, size: nat, offset: int, transformer: ArithmeticParams): seq<Entity> {
    if k == 0 then []
    else PortEntities(k - 1, size, offset, transformer) + [ArithmeticEntity(transformer)] + DecodeEntities(size, offset)
  }

  /** Everything `_connect` creates, in creation order. */
  function Recipe(size: nat, offset: int, ports: nat, transformer: ArithmeticParams): seq<Entity> {
    [DeciderEntity(TransactionParams)] + RowEntities(size, offset) + PortEntities(ports, size, offset, transformer)
  }

  // Positions of the entities of the recipe, for an arena whose next id is b.
  function WriteSelectId(b: nat, i: nat): nat { b + 1 + 3 * i }
  function LatchSetId(b: nat, i: nat): nat { b + 2 + 3 * i }
  function LatchHoldId(b: nat, i: nat): nat { b + 3 + 3 * i }
  /** Port p's transformer follows the rows and the p earlier ports, each a
      transformer and `size` decoders. */
  function TransformerId(b: nat, size: nat, p: nat): nat {
    if p == 0 then b + 1 + 3 * size else TransformerId(b, size, p - 1) + 1 + size
  }
  function DecodeId(b: nat, size: nat, p: nat, j: nat): nat { TransformerId(b, size, p) + 1 + j }

  lemma {:induction false} RowEntitiesAt(k: nat, offset: int, i: nat)
    ensures |RowEntities(k, offset)| == 3 * k
    ensures i < k ==>
      && RowEntities(k, offset)[3 * i] == DeciderEntity(WriteSelectParams(i, offset))
      && RowEntities(k, offset)[3 * i + 1] == DeciderEntity(LatchSetParams)
      && RowEntities(k, offset)[3 * i + 2] == DeciderEntity(LatchHoldParams)
  {
    if k > 0 {
      RowEntitiesAt(k - 1, offset, if i < k - 1 then i else 0);
    }
  }

  lemma {:induction false} DecodeEntitiesAt(k: nat, offset: int, j: nat)
    ensures |DecodeEntities(k, offset)| == k
    ensures j < k ==> DecodeEntities(k, offset)[j] == DeciderEntity(ReadDecodeParams(j, offset))
  {
    if k > 0 {
      DecodeEntitiesAt(k - 1, offset, if j < k - 1 then j else 0);
    }
  }

  lemma {:induction false} PortEntitiesLength(k: nat, size: nat, offset: int, tr: ArithmeticParams)
    ensures |PortEntities(k, size, offset, tr)| == Mul(k, 1 + size)
  {
    if k > 0 {
      PortEntitiesLength(k - 1, size, offset, tr);
      DecodeEntitiesAt(size, offset, 0);
    }
  }

  lemma {:induction false} PortEntitiesAt(k: nat, size: nat, offset: int, tr: ArithmeticParams, p: nat, j: nat)
    ensures |PortEntities(k, size, offset, tr)| == Mul(k, 1 + size)
    ensures p < k ==> Mul(p, 1 + size) + 1 + size <= Mul(k, 1 + size)
    ensures p < k ==> PortEntities(k, size, offset, tr)[Mul(p, 1 + size)] == ArithmeticEntity(tr)
    ensures p < k && j < size ==>
      PortEntities(k, size, offset, tr)[Mul(p, 1 + size) + 1 + j] == DeciderEntity(ReadDecodeParams(j, offset))
  {
    PortEntitiesLength(k, size, offset, tr);
    if p < k {
      var prev := PortEntities(k - 1, size, offset, tr);
      var block := [ArithmeticEntity(tr)] + DecodeEntities(size, offset);
      DecodeEntitiesAt(size, offset, j);
      assert PortEntities(k, size, offset, tr) == prev + block;
      if p < k - 1 {
        PortEntitiesAt(k - 1, size, offset, tr, p, j);
        MulMono(p + 1, k - 1, 1 + size);
      } else {
        PortEntitiesLength(k - 1, size, offset, tr);
      }
    }
  }

  /** Indexing into the three parts of the recipe: the gate, the rows, the ports. */
  lemma RecipeParts(size: nat, offset: int, ports: nat, tr: ArithmeticParams, x: nat)
    ensures Recipe(size, offset, ports, tr)[0] == DeciderEntity(TransactionParams)
    ensures |Recipe(size, offset, ports, tr)| == 1 + 3 * size + |PortEntities(ports, size, offset, tr)|
    ensures x < 3 * size ==> Recipe(size, offset, ports, tr)[1 + x] == RowEntities(size, offset)[x]
  {
    RowEntitiesAt(size, offset, 0);
  }

  lemma RecipeRest(size: nat, offset: int, ports: nat, tr: ArithmeticParams, y: nat)
    requires y < |PortEntities(ports, size, offset, tr)|
    ensures 1 + 3 * size + y < |Recipe(size, offset, ports, tr)|
    ensures Recipe(size, offset, ports, tr)[1 + 3 * size + y] == PortEntities(ports, size, offset, tr)[y]
  {
    RecipeParts(size, offset, ports, tr, 0);
  }

  /** The entity-count law: one write-transaction gate, three deciders per row
      and, per read port, one transformer and one decoder per row. The gate
      comes first and is "V = 2 -> C = 1". */
  lemma RecipeCount(size: nat, offset: int, ports: nat, tr: ArithmeticParams)
    ensures |Recipe(size, offset, ports, tr)| == 1 + 3 * size + ports * (1 + size)
    ensures Recipe(size, offset, ports, tr)[0] == DeciderEntity(TransactionParams)
  {
    PortEntitiesAt(ports, size, offset, tr, 0, 0);
    RecipeParts(size, offset, ports, tr, 0);
    MulIsProduct(ports, 1 + size);
  }

  /** Row i contributes its write select, comparing against i + OFFSET, then
      the latch's setting and holding halves. */
  lemma RecipeRow(size: nat, offset: int, ports: nat, tr: ArithmeticParams, i: nat)
    requires i < size
    ensures WriteSelectId(0, i) < LatchSetId(0, i) < LatchHoldId(0, i) < |Recipe(size, offset, ports, tr)|
    ensures Recipe(size, offset, ports, tr)[WriteSelectId(0, i)] == DeciderEntity(WriteSelectParams(i, offset))
    ensures Recipe(size, offset, ports, tr)[LatchSetId(0, i)] == DeciderEntity(LatchSetParams)
    ensures Recipe(size, offset, ports, tr)[LatchHoldId(0, i)] == DeciderEntity(LatchHoldParams)
  {
    RowEntitiesAt(size, offset, i);
    RecipeParts(size, offset, ports, tr, 3 * i);
    RecipeParts(size, offset, ports, tr, 3 * i + 1);
    RecipeParts(size, offset, ports, tr, 3 * i + 2);
  }

  /** Read port p contributes its address transformer, then decoder j,
      comparing against j + OFFSET, for every row j. */
  lemma RecipePort(size: nat, offset: int, ports: nat, tr: ArithmeticParams, p: nat, j: nat)
    requires p < ports && j < size
    ensures TransformerId(0, size, p) < DecodeId(0, size, p, j) < |Recipe(size, offset, ports, tr)|
    ensures Recipe(size, offset, ports, tr)[TransformerId(0, size, p)] == ArithmeticEntity(tr)
    ensures Recipe(size, offset, ports, tr)[DecodeId(0, size, p, j)] == DeciderEntity(ReadDecodeParams(j, offset))
  {
    PortEntitiesAt(ports, size, offset, tr, p, j);
    TransformerAt(0, size, p);
    var x := Mul(p, 1 + size);
    RecipeRest(size, offset, ports, tr, x);
    RecipeRest(size, offset, ports, tr, x + 1 + j);
    assert TransformerId(0, size, p) == 1 + 3 * size + x;
    assert DecodeId(0, size, p, j) == 1 + 3 * size + (x + 1 + j);
  }

  /** The transaction gate's two inputs: the clock on red, the enable on green. */
  function TransactionWiring(b: nat, clk: EndpointId, en: EndpointId): seq<Connection> {
    [Connection(Red, [clk, In(b)]), Connection(Green, [en, In(b)])]
  }

  /** Row i's write select compares the address (red) and is gated by the
      transaction (green). */
  function SelectWiring(b: nat, i: nat, addr: EndpointId): seq<Connection> {
    var sel := WriteSelectId(b, i);
    [Connection(Red, [addr, In(sel)]), Connection(Green, [Out(b), In(sel)])]
  }

  /** Row i's latch: the setter reads the data (red); the select drives both
      halves (green); the halves share their outputs (green) and the holder
      feeds itself and the setter's output back (red). */
  function LatchWiring(b: nat, i: nat, wdata: EndpointId): seq<Connection> {
    var sel, setter, holder := WriteSelectId(b, i), LatchSetId(b, i), LatchHoldId(b, i);
    [ Connection(Red, [wdata, In(setter)]),
      Connection(Green, [Out(sel), In(setter), In(holder)]),
      Connection(Green, [Out(setter), Out(holder)]),
      Connection(Red, [Out(holder), In(holder), Out(setter)]) ]
  }

  /** Row i's wiring: the write select sees the write address (red) and the
      transaction pulse (green); the setting half sees the write data (red);
      the select's output gates both halves (green); and the two halves'
      outputs feed back into the holding half's input (red), forming the latch. */
  function RowWiring(b: nat, i: nat, addr: EndpointId, wdata: EndpointId): seq<Connection> {
    SelectWiring(b, i, addr) + LatchWiring(b, i, wdata)
  }

  function RowsWiring(b: nat, k: nat, addr: EndpointId, wdata: EndpointId): seq<Connection> {
    if k == 0 then [] else RowsWiring(b, k - 1, addr, wdata) + RowWiring(b, k - 1, addr, wdata)
  }

  lemma RowsWiringStep(b: nat, i: nat, addr: EndpointId, wdata: EndpointId,
                       c0: seq<Connection>, c1: seq<Connection>, c2: seq<Connection>)
    requires c1 == c0 + RowsWiring(b, i, addr, wdata)
    requires c2 == c1 + RowWiring(b, i, addr, wdata)
    ensures c2 == c0 + RowsWiring(b, i + 1, addr, wdata)
  {
  }

  /** Decoders sit right after their port's transformer t: decoder j is t + 1 + j. */
  function DecodeWiring(b: nat, t: nat, j: nat): seq<Connection> {
    var d := t + 1 + j;
    [Connection(Green, [Out(LatchSetId(b, j)), In(d)]), Connection(Red, [Out(t), In(d)])]
    + (if j > 0 then [Connection(Both, [Out(d - 1), Out(d)])] else [])
  }

  /** The first k decoders of the port whose transformer is t: decoder j
      reads row j's latch (green) and the port's address (red), and shares
      its output with decoder j - 1 on both colours. */
  function DecodesWiring(b: nat, t: nat, k: nat): seq<Connection> {
    if k == 0 then [] else DecodesWiring(b, t, k - 1) + DecodeWiring(b, t, k - 1)
  }

  function PortsWiring(b: nat, size: nat, k: nat): seq<Connection> {
    if k == 0 then [] else PortsWiring(b, size, k - 1) + DecodesWiring(b, TransformerId(b, size, k - 1), size)
  }

  /** Every connection `_connect` makes, in order. */
  function MemWiring(b: nat, size: nat, ports: nat, clk: EndpointId, en: EndpointId,
                     addr: EndpointId, wdata: EndpointId): seq<Connection> {
    TransactionWiring(b, clk, en) + RowsWiring(b, size, addr, wdata) + PortsWiring(b, size, ports)
  }

  lemma {:induction false} RowsWiringHas(b: nat, k: nat, addr: EndpointId, wdata: EndpointId, i: nat)
    requires i < k
    ensures forall c :: c in RowWiring(b, i, addr, wdata) ==> c in RowsWiring(b, k, addr, wdata)
  {
    if i < k - 1 {
      RowsWiringHas(b, k - 1, addr, wdata, i);
    }
  }

  lemma {:induction false} DecodesWiringHas(b: nat, t: nat, k: nat, j: nat)
    requires j < k
    ensures forall c :: c in DecodeWiring(b, t, j) ==> c in DecodesWiring(b, t, k)
  {
    var prev, last := DecodesWiring(b, t, k - 1), DecodeWiring(b, t, k - 1);
    assert DecodesWiring(b, t, k) == prev + last;
    if j < k - 1 {
      DecodesWiringHas(b, t, k - 1, j);
      InFirst(prev, last);
    } else {
      InLast(prev, last);
    }
  }

  lemma {:induction false} PortsWiringHas(b: nat, size: nat, k: nat, p: nat, j: nat)
    requires p < k && j < size
    ensures forall c :: c in DecodeWiring(b, TransformerId(b, size, p), j) ==> c in PortsWiring(b, size, k)
  {
    var prev, last := PortsWiring(b, size, k - 1), DecodesWiring(b, TransformerId(b, size, k - 1), size);
    assert PortsWiring(b, size, k) == prev + last;
    if p < k - 1 {
      PortsWiringHas(b, size, k - 1, p, j);
      InFirst(prev, last);
    } else {
      DecodesWiringHas(b, TransformerId(b, size, p), size, j);
      InLast(prev, last);
    }
  }

  /** The transaction gate hears the clock on red and the enable on green. */
  lemma WiringGate(b: nat, size: nat, ports: nat, clk: EndpointId, en: EndpointId, addr: EndpointId, wdata: EndpointId)
    ensures var w := MemWiring(b, size, ports, clk, en, addr, wdata);
      && Connection(Red, [clk, In(b)]) in w
      && Connection(Green, [en, In(b)]) in w
  {
    var w := MemWiring(b, size, ports, clk, en, addr, wdata);
    assert w[0] == Connection(Red, [clk, In(b)]);
    assert w[1] == Connection(Green, [en, In(b)]);
  }

  /** Row i's select is gated by the transaction; its output drives both
      latch halves; the halves' outputs are joined on green, and the holding
      half's output feeds back into its own input and the setter's output on red. */
  lemma WiringRow(b: nat, size: nat, ports: nat, clk: EndpointId, en: EndpointId, addr: EndpointId, wdata: EndpointId,
                  i: nat)
    requires i < size
    ensures var w := MemWiring(b, size, ports, clk, en, addr, wdata);
      && Connection(Green, [Out(b), In(WriteSelectId(b, i))]) in w
      && Connection(Green, [Out(WriteSelectId(b, i)), In(LatchSetId(b, i)), In(LatchHoldId(b, i))]) in w
      && Connection(Green, [Out(LatchSetId(b, i)), Out(LatchHoldId(b, i))]) in w
      && Connection(Red, [Out(LatchHoldId(b, i)), In(LatchHoldId(b, i)), Out(LatchSetId(b, i))]) in w
  {
    var rows := RowsWiring(b, size, addr, wdata);
    RowsWiringHas(b, size, addr, wdata, i);
    var row := RowWiring(b, i, addr, wdata);
    assert row[1] in rows && row[3] in rows && row[4] in rows && row[5] in rows;
    InMiddle(TransactionWiring(b, clk, en), rows, PortsWiring(b, size, ports));
  }

  /** Decoder j of port p reads row j's latch and the port's transformer, and
      shares its output with decoder j - 1. */
  lemma WiringPort(b: nat, size: nat, ports: nat, clk: EndpointId, en: EndpointId, addr: EndpointId, wdata: EndpointId,
                   p: nat, j: nat)
    requires p < ports && j < size
    ensures var w := MemWiring(b, size, ports, clk, en, addr, wdata);
      && Connection(Green, [Out(LatchSetId(b, j)), In(DecodeId(b, size, p, j))]) in w
      && Connection(Red, [Out(TransformerId(b, size, p)), In(DecodeId(b, size, p, j))]) in w
      && (0 < j ==> Connection(Both, [Out(DecodeId(b, size, p, j - 1)), Out(DecodeId(b, size, p, j))]) in w)
  {
    var front, ps := TransactionWiring(b, clk, en) + RowsWiring(b, size, addr, wdata), PortsWiring(b, size, ports);
    var t, d := TransformerId(b, size, p), DecodeId(b, size, p, j);
    PortsWiringHas(b, size, ports, p, j);
    var dec := DecodeWiring(b, t, j);
    assert dec[0] == Connection(Green, [Out(LatchSetId(b, j)), In(d)]);
    assert dec[1] == Connection(Red, [Out(t), In(d)]);
    InBack(front, ps, dec[0]);
    InBack(front, ps, dec[1]);
    if j > 0 {
      assert DecodeId(b, size, p, j - 1) == d - 1;
      assert dec[2] == Connection(Both, [Out(d - 1), Out(d)]);
      InBack(front, ps, dec[2]);
    }
  }

  lemma InMiddle<T>(x: seq<T>, y: seq<T>, z: seq<T>)
    ensures forall t :: t in y ==> t in x + y + z
  {
  }

  lemma InBack<T>(x: seq<T>, y: seq<T>, t: T)
    requires t in y
    ensures t in x + y
  {
  }

  lemma InFirst<T>(x: seq<T>, y: seq<T>)
    ensures forall t :: t in x ==> t in x + y
  {
  }

  lemma InLast<T>(x: seq<T>, y: seq<T>)
    ensures forall t :: t in y ==> t in x + y
  {
  }

  /** The arena after the gate, the rows and the ports holds the recipe. */
  lemma RecipeAssembly(e0: seq<Entity>, e1: seq<Entity>, e2: seq<Entity>, e3: seq<Entity>,
                       size: nat, offset: int, ports: nat, tr: ArithmeticParams)
    requires e1 == e0 + [DeciderEntity(TransactionParams)]
    requires e2 == e1 + RowEntities(size, offset)
    requires e3 == e2 + PortEntities(ports, size, offset, tr)
    ensures e3 == e0 + Recipe(size, offset, ports, tr)
  {
  }

  /** The connection log after the gate, the rows and the ports holds the recipe's wiring. */
  lemma WiringAssembly(c0: seq<Connection>, c1: seq<Connection>, c2: seq<Connection>, c3: seq<Connection>,
                       b: nat, size: nat, ports: nat, clk: EndpointId, en: EndpointId, addr: EndpointId, wdata: EndpointId)
    requires c1 == c0 + TransactionWiring(b, clk, en)
    requires c2 == c1 + RowsWiring(b, size, addr, wdata)
    requires c3 == c2 + PortsWiring(b, size, ports)
    ensures c3 == c0 + MemWiring(b, size, ports, clk, en, addr, wdata)
  {
  }

  /** The closed form of a transformer's position. */
  lemma {:induction false} TransformerAt(b: nat, size: nat, p: nat)
    ensures TransformerId(b, size, p) == b + 1 + 3 * size + Mul(p, 1 + size)
  {
    if p > 0 {
      TransformerAt(b, size, p - 1);
    }
  }

  /** One more port extends the ports' entities and wiring. */
  lemma PortStep(e0: seq<Entity>, e1: seq<Entity>, e2: seq<Entity>,
                 c0: seq<Connection>, c1: seq<Connection>, c2: seq<Connection>,
                 b: nat, size: nat, p: nat, offset: int, tr: ArithmeticParams)
    requires e1 == e0 + PortEntities(p, size, offset, tr)
    requires e2 == e1 + [ArithmeticEntity(tr)] + DecodeEntities(size, offset)
    requires c1 == c0 + PortsWiring(b, size, p)
    requires c2 == c1 + DecodesWiring(b, TransformerId(b, size, p), size)
    requires |e1| == TransformerId(b, size, p)
    ensures e2 == e0 + PortEntities(p + 1, size, offset, tr)
    ensures c2 == c0 + PortsWiring(b, size, p + 1)
    ensures |e2| == TransformerId(b, size, p + 1)
  {
    DecodeEntitiesAt(size, offset, 0);
    Regroup(e0, PortEntities(p, size, offset, tr), [ArithmeticEntity(tr)] + DecodeEntities(size, offset));
    Regroup(c0, PortsWiring(b, size, p), DecodesWiring(b, TransformerId(b, size, p), size));
  }

  lemma Regroup<T>(x: seq<T>, y: seq<T>, z: seq<T>)
    ensures x + (y + z) == x + y + z
  {
  }

  /** The read segments once the first p ports are built: each of those points
      at the output of its port's last decoder, the rest are untouched. */
  function Pointed(s0: seq<MemRead>, b: nat, size: nat, p: nat): (r: seq<MemRead>)
    requires p <= |s0|
    ensures |r| == |s0|
  {
    if p == 0 then s0
    else Pointed(s0, b, size, p - 1)[p - 1 := s0[p - 1].(endPoint := Some(Out(TransformerId(b, size, p - 1) + size)))]
  }

  /** Segment q after p ports: pointed at its chain's end exactly when q < p,
      its bits never change. */
  lemma {:induction false} PointedAt(s0: seq<MemRead>, b: nat, size: nat, p: nat, q: nat)
    requires p <= |s0| && q < |s0|
    ensures Pointed(s0, b, size, p)[q]
         == if q < p then s0[q].(endPoint := Some(Out(TransformerId(b, size, q) + size))) else s0[q]
    ensures q < p && size > 0 ==> Pointed(s0, b, size, p)[q].endPoint == Some(Out(DecodeId(b, size, q, size - 1)))
  {
    if p > 0 {
      PointedAt(s0, b, size, p - 1, q);
    }
  }

  /** segs holds one placeholder per read port, each over its slice of RD_DATA. */
  ghost predicate SlicesOf(segs: seq<MemRead>, cell: MemCell) {
    && |segs| == cell.parameters.RD_PORTS
    && forall i :: 0 <= i < |segs| ==> segs[i].bits == Segments(cell)[i].bits
  }

  /** Pointing segments at their drivers leaves their bits alone. */
  lemma PointedSlices(s0: seq<MemRead>, b: nat, size: nat, p: nat, cell: MemCell)
    requires p <= |s0| && SlicesOf(s0, cell)
    ensures SlicesOf(Pointed(s0, b, size, p), cell)
  {
    forall q | 0 <= q < |s0|
      ensures Pointed(s0, b, size, p)[q].bits == s0[q].bits
    {
      PointedAt(s0, b, size, p, q);
    }
  }

  /** One more decoder extends the port's chain of entities and wiring. */
  lemma DecoderStep(e0: seq<Entity>, e1: seq<Entity>, e2: seq<Entity>,
                    c0: seq<Connection>, c1: seq<Connection>, c2: seq<Connection>,
                    b: nat, t: nat, j: nat, offset: int)
    requires e1 == e0 + DecodeEntities(j, offset) && |DecodeEntities(j, offset)| == j
    requires e2 == e1 + [DeciderEntity(ReadDecodeParams(j, offset))]
    requires c1 == c0 + DecodesWiring(b, t, j)
    requires c2 == c1 + DecodeWiring(b, t, j)
    ensures e2 == e0 + DecodeEntities(j + 1, offset) && |DecodeEntities(j + 1, offset)| == j + 1
    ensures c2 == c0 + DecodesWiring(b, t, j + 1)
  {
    Regroup(e0, DecodeEntities(j, offset), [DeciderEntity(ReadDecodeParams(j, offset))]);
    Regroup(c0, DecodesWiring(b, t, j), DecodeWiring(b, t, j));
  }

  /** The identifiers lo, lo + 1, ..., hi - 1. */
  function Range(lo: nat, hi: nat): seq<nat>
    decreases hi
  {
    if hi <= lo then [] else Range(lo, hi - 1) + [hi - 1]
  }

  /** Range lists exactly the identifiers from lo up to hi, in increasing order. */
  lemma {:induction false} RangeAt(lo: nat, hi: nat, k: nat)
    requires lo <= hi
    ensures |Range(lo, hi)| == hi - lo
    ensures k < hi - lo ==> Range(lo, hi)[k] == lo + k
    decreases hi
  {
    if lo < hi {
      RangeAt(lo, hi - 1, if k < hi - 1 - lo then k else 0);
    }
  }

  /** The bits naming the write enable: its first bit (none when empty). */
  function EnableBits(en: seq<Bit>): seq<Bit> {
    if |en| > 0 then [en[0]] else []
  }

  /** A synthesised memory: the cell, one read placeholder per read port, and
      the ids of the entities `_connect` builds. */
  class MemNode {
    var data: MemCell
    var outputSegments: seq<MemRead>
    var entities: seq<EntityId>

    /** The cell passed every check, and there is one segment per read port
        holding its slice of RD_DATA. */
    ghost predicate Valid()
      reads this
    {
      FirstViolation(data).None? && SlicesOf(outputSegments, data)
    }

    /** The constructor's slicing loop, for a cell that passed the checks. */
    constructor (item: MemCell)
      requires FirstViolation(item).None?
      ensures Valid()
      ensures data == item && outputSegments == Segments(item) && entities == []
    {
      data := item;
      entities := [];
      var width := item.parameters.WIDTH;
      var segs: seq<MemRead> := [];
      for i := 0 to item.parameters.RD_PORTS
        invariant segs == Segments(item)[..i]
      {
        MulIsProduct(i, width);
        MulIsProduct(i + 1, width);
        var bits := Slice(item.connections.RD_DATA, i * width, (i + 1) * width);
        segs := segs + [MemRead(bits, None)];
      }
      outputSegments := segs;
    }

    /** `new MemNode(item)`: fails with the first violated precondition, and
        otherwise yields a node with one unconnected segment per read port. */
    static method Create(item: MemCell) returns (r: Result<MemNode, MemError>)
      ensures r.Failure? <==> FirstViolation(item).Some?
      ensures r.Failure? ==> FirstViolation(item) == Some(r.error)
      ensures r.Success? ==>
        && fresh(r.value) && r.value.Valid() && r.value.data == item
        && r.value.outputSegments == Segments(item) && r.value.entities == []
    {
      var err := CheckCell(item);
      if err.Some? {
        return Failure(err.value);
      }
      var node := new MemNode(item);
      return Success(node);
    }

    /** `_connect`: fails when the write clock is not a primary input (no edge
        detector exists), or when a read port has no row to decode (the chain's
        last decider is then undefined). Otherwise it appends exactly the recipe
        to the arena, records exactly the recipe's wiring, and points each read
        segment at the output of its port's last decoder. A missing row is only
        found after the gate and the first port's transformer are built, so that
        failure leaves both, and the gate's wiring, behind. */
    method Connect(circuit: Circuit, getInputNode: seq<Bit> -> NodeRef, transformer: ArithmeticParams)
      returns (r: Outcome<MemError>)
      requires Valid() && circuit.Valid()
      modifies this, circuit`entities, circuit`endpoints, circuit`connections
      ensures Valid() && circuit.Valid()
      ensures data == old(data)
      ensures r.Fail? <==>
        !getInputNode(data.connections.WR_CLK).isInput || (data.parameters.SIZE == 0 && data.parameters.RD_PORTS > 0)
      ensures r.Fail? ==>
        r.error == if !getInputNode(data.connections.WR_CLK).isInput then ClockNotInput else NoRowToRead
      ensures r.Fail? && r.error == ClockNotInput ==>
        && circuit.entities == old(circuit.entities) && circuit.endpoints == old(circuit.endpoints)
        && circuit.connections == old(circuit.connections)
        && outputSegments == old(outputSegments) && entities == old(entities)
      ensures r.Fail? && r.error == NoRowToRead ==>
        var c, b := data.connections, old(|circuit.entities|);
        && circuit.entities == old(circuit.entities) + [DeciderEntity(TransactionParams), ArithmeticEntity(transformer)]
        && entities == old(entities) + [b, b + 1]
        && circuit.connections == old(circuit.connections)
             + TransactionWiring(b, getInputNode(c.WR_CLK).output, getInputNode(EnableBits(c.WR_EN)).output)
        && outputSegments == old(outputSegments)
      ensures r.Pass? ==>
        var p, c, b := data.parameters, data.connections, old(|circuit.entities|);
        && circuit.entities == old(circuit.entities) + Recipe(p.SIZE, p.OFFSET, p.RD_PORTS, transformer)
        && entities == old(entities) + Range(b, |circuit.entities|)
        && circuit.connections == old(circuit.connections)
             + MemWiring(b, p.SIZE, p.RD_PORTS, getInputNode(c.WR_CLK).output, getInputNode(EnableBits(c.WR_EN)).output,
                         getInputNode(c.WR_ADDR).output, getInputNode(c.WR_DATA).output)
        && outputSegments == Pointed(old(outputSegments), b, p.SIZE, p.RD_PORTS)
    {
      var wrAddr := getInputNode(data.connections.WR_ADDR);
      var wrData := getInputNode(data.connections.WR_DATA);
      var wrEn := getInputNode(EnableBits(data.connections.WR_EN));
      var wrClk := getInputNode(data.connections.WR_CLK);
      if !wrClk.isInput {
        return Fail(ClockNotInput);
      }
      var b := |circuit.entities|;
      ghost var s0 := outputSegments;
      r := Build(circuit, wrClk.output, wrEn.output, wrAddr.output, wrData.output, transformer);
      var size, ports := data.parameters.SIZE, data.parameters.RD_PORTS;
      PointedSlices(s0, b, size, ports, data);
      if r.Pass? {
        entities := entities + Range(b, |circuit.entities|);
      } else {
        // the gate and the first port's transformer were pushed before the crash
        entities := entities + [b, b + 1];
      }
    }

    /** The body of `_connect` once the clock is known to be an input: the
        gate, the rows, then the read ports. */
    method Build(circuit: Circuit, clk: EndpointId, en: EndpointId, addr: EndpointId, wdata: EndpointId,
                 transformer: ArithmeticParams)
      returns (r: Outcome<MemError>)
      requires circuit.Valid() && |outputSegments| == data.parameters.RD_PORTS
      modifies this`outputSegments, circuit`entities, circuit`endpoints, circuit`connections
      ensures circuit.Valid()
      ensures r.Fail? <==> data.parameters.SIZE == 0 && data.parameters.RD_PORTS > 0
      ensures r.Fail? ==>
        && r.error == NoRowToRead && outputSegments == old(outputSegments)
        && circuit.entities == old(circuit.entities) + [DeciderEntity(TransactionParams), ArithmeticEntity(transformer)]
        && circuit.connections == old(circuit.connections) + TransactionWiring(old(|circuit.entities|), clk, en)
      ensures r.Pass? ==>
        var p, b := data.parameters, old(|circuit.entities|);
        && circuit.entities == old(circuit.entities) + Recipe(p.SIZE, p.OFFSET, p.RD_PORTS, transformer)
        && circuit.connections == old(circuit.connections) + MemWiring(b, p.SIZE, p.RD_PORTS, clk, en, addr, wdata)
        && outputSegments == Pointed(old(outputSegments), b, p.SIZE, p.RD_PORTS)
    {
      var size, ports, offset := data.parameters.SIZE, data.parameters.RD_PORTS, data.parameters.OFFSET;
      var b := |circuit.entities|;
      ghost var e0, c0 := circuit.entities, circuit.connections;
      var trans := AddGate(circuit, clk, en);
      ghost var e1, c1 := circuit.entities, circuit.connections;
      var dffOuts := AddRows(circuit, b, size, offset, addr, wdata);
      ghost var e2, c2 := circuit.entities, circuit.connections;
      RowEntitiesAt(size, offset, 0);
      r := AddPorts(circuit, b, size, ports, offset, transformer, dffOuts);
      if r.Pass? {
        RecipeAssembly(e0, e1, e2, circuit.entities, size, offset, ports, transformer);
        WiringAssembly(c0, c1, c2, circuit.connections, b, size, ports, clk, en, addr, wdata);
      }
    }

    /** The read ports' loop: one transformer and one decoder chain per port,
        each port's segment pointed at its chain's last decoder. Fails at the
        first port when there are no rows. */
    method AddPorts(circuit: Circuit, b: nat, size: nat, ports: nat, offset: int, transformer: ArithmeticParams,
                    dffOuts: seq<EntityId>)
      returns (r: Outcome<MemError>)
      requires circuit.Valid() && |circuit.entities| == TransformerId(b, size, 0)
      requires |dffOuts| == size && forall k :: 0 <= k < size ==> dffOuts[k] == LatchSetId(b, k)
      requires |outputSegments| == ports
      modifies this`outputSegments, circuit`entities, circuit`endpoints, circuit`connections
      ensures circuit.Valid()
      ensures r.Fail? <==> size == 0 && ports > 0
      ensures r.Fail? ==>
        && r.error == NoRowToRead && outputSegments == old(outputSegments)
        && circuit.entities == old(circuit.entities) + [ArithmeticEntity(transformer)]
        && circuit.connections == old(circuit.connections)
      ensures r.Pass? ==>
        && circuit.entities == old(circuit.entities) + PortEntities(ports, size, offset, transformer)
        && circuit.connections == old(circuit.connections) + PortsWiring(b, size, ports)
        && outputSegments == Pointed(old(outputSegments), b, size, ports)
    {
      ghost var e0, c0, s0 := circuit.entities, circuit.connections, outputSegments;
      for p := 0 to ports
        invariant PortsBuilt(circuit, e0, c0, b, size, p, offset, transformer)
        invariant p == 0 || size > 0
        invariant outputSegments == Pointed(s0, b, size, p)
      {
        var last := NextPort(circuit, e0, c0, b, size, p, offset, transformer, dffOuts);
        if last.None? {
          return Fail(NoRowToRead);
        }
        PointSegment(s0, b, size, p, last.value);
      }
      r := Pass;
    }

    /** `this.outputSegments[i].endPoint = last.output`, for port p. */
    method PointSegment(ghost s0: seq<MemRead>, b: nat, size: nat, p: nat, last: EntityId)
      requires p < |s0| && outputSegments == Pointed(s0, b, size, p)
      requires last == TransformerId(b, size, p) + size
      modifies this`outputSegments
      ensures outputSegments == Pointed(s0, b, size, p + 1)
    {
      PointedAt(s0, b, size, p, p);
      outputSegments := outputSegments[p := outputSegments[p].(endPoint := Some(Out(last)))];
    }

    /** The circuit after the first p read ports. */
    ghost predicate PortsBuilt(circuit: Circuit, e0: seq<Entity>, c0: seq<Connection>, b: nat, size: nat, p: nat,
                               offset: int, transformer: ArithmeticParams)
      reads circuit
    {
      && circuit.Valid()
      && |circuit.entities| == TransformerId(b, size, p)
      && circuit.entities == e0 + PortEntities(p, size, offset, transformer)
      && circuit.connections == c0 + PortsWiring(b, size, p)
    }

    /** One turn of the read ports' loop: port p extends the ports built so far. */
    method NextPort(circuit: Circuit, ghost e0: seq<Entity>, ghost c0: seq<Connection>, b: nat, size: nat, p: nat,
                    offset: int, transformer: ArithmeticParams, dffOuts: seq<EntityId>)
      returns (last: Option<EntityId>)
      requires PortsBuilt(circuit, e0, c0, b, size, p, offset, transformer)
      requires |dffOuts| == size && forall k :: 0 <= k < size ==> dffOuts[k] == LatchSetId(b, k)
      modifies circuit`entities, circuit`endpoints, circuit`connections
      ensures PortsBuilt(circuit, e0, c0, b, size, p + 1, offset, transformer)
      ensures last == if size == 0 then None else Some(TransformerId(b, size, p) + size)
      ensures size == 0 ==>
        circuit.entities == old(circuit.entities) + [ArithmeticEntity(transformer)]
        && circuit.connections == old(circuit.connections)
    {
      ghost var e1, c1 := circuit.entities, circuit.connections;
      last := AddPort(circuit, b, size, p, offset, transformer, dffOuts);
      PortStep(e0, e1, circuit.entities, c0, c1, circuit.connections, b, size, p, offset, transformer);
    }

    /** The rows' loop: every row's select and latch, in order. Returns the
        latches' setting halves, which the decoders read. */
    method AddRows(circuit: Circuit, b: nat, size: nat, offset: int, addr: EndpointId, wdata: EndpointId)
      returns (dffOuts: seq<EntityId>)
      requires circuit.Valid() && |circuit.entities| == b + 1
      modifies circuit`entities, circuit`endpoints, circuit`connections
      ensures circuit.Valid()
      ensures circuit.entities == old(circuit.entities) + RowEntities(size, offset)
      ensures circuit.connections == old(circuit.connections) + RowsWiring(b, size, addr, wdata)
      ensures |dffOuts| == size && forall k :: 0 <= k < size ==> dffOuts[k] == LatchSetId(b, k)
    {
      dffOuts := [];
      ghost var e0, c0 := circuit.entities, circuit.connections;
      for i := 0 to size
        invariant RowsBuilt(circuit, e0, c0, b, i, offset, addr, wdata)
        invariant |dffOuts| == i && forall k :: 0 <= k < i ==> dffOuts[k] == LatchSetId(b, k)
      {
        var decider1 := NextRow(circuit, e0, c0, b, i, offset, addr, wdata);
        dffOuts := dffOuts + [decider1];
      }
    }

    /** The circuit after the gate and the first i rows. */
    ghost predicate RowsBuilt(circuit: Circuit, e0: seq<Entity>, c0: seq<Connection>, b: nat, i: nat, offset: int,
                              addr: EndpointId, wdata: EndpointId)
      reads circuit
    {
      && circuit.Valid()
      && |e0| == b + 1
      && circuit.entities == e0 + RowEntities(i, offset)
      && circuit.connections == c0 + RowsWiring(b, i, addr, wdata)
    }

    /** One turn of the rows' loop: row i extends the rows built so far. */
    method NextRow(circuit: Circuit, ghost e0: seq<Entity>, ghost c0: seq<Connection>, b: nat, i: nat, offset: int,
                   addr: EndpointId, wdata: EndpointId)
      returns (decider1: EntityId)
      requires RowsBuilt(circuit, e0, c0, b, i, offset, addr, wdata)
      modifies circuit`entities, circuit`endpoints, circuit`connections
      ensures RowsBuilt(circuit, e0, c0, b, i + 1, offset, addr, wdata)
      ensures decider1 == LatchSetId(b, i)
    {
      ghost var before := circuit.connections;
      RowEntitiesAt(i, offset, 0);
      decider1 := AddRow(circuit, b, i, offset, addr, wdata);
      RowsWiringStep(b, i, addr, wdata, c0, before, circuit.connections);
      RowEntitiesAt(i + 1, offset, 0);
    }

    /** One read port: its address transformer, then one decoder per row,
        each chained to the previous one. Returns the chain's last decoder,
        none when there are no rows. */
    method AddPort(circuit: Circuit, b: nat, size: nat, p: nat, offset: int, transformer: ArithmeticParams,
                   dffOuts: seq<EntityId>)
      returns (last: Option<EntityId>)
      requires circuit.Valid() && |circuit.entities| == TransformerId(b, size, p)
      requires |dffOuts| == size && forall k :: 0 <= k < size ==> dffOuts[k] == LatchSetId(b, k)
      modifies circuit`entities, circuit`endpoints, circuit`connections
      ensures circuit.Valid()
      ensures circuit.entities == old(circuit.entities) + [ArithmeticEntity(transformer)] + DecodeEntities(size, offset)
      ensures circuit.connections == old(circuit.connections) + DecodesWiring(b, TransformerId(b, size, p), size)
      ensures last == if size == 0 then None else Some(TransformerId(b, size, p) + size)
    {
      var addrTrans := circuit.AddArithmetic(transformer);
      last := AddChain(circuit, b, addrTrans, size, offset, dffOuts);
    }

    /** The decoders of one read port, after its transformer t: decoder j
        compares row j's latch against j + OFFSET, and each is chained to the
        previous one. Returns the last, none when there are no rows. */
    method AddChain(circuit: Circuit, b: nat, addrTrans: EntityId, size: nat, offset: int, dffOuts: seq<EntityId>)
      returns (last: Option<EntityId>)
      requires circuit.Valid() && |circuit.entities| == addrTrans + 1
      requires |dffOuts| == size && forall k :: 0 <= k < size ==> dffOuts[k] == LatchSetId(b, k)
      modifies circuit`entities, circuit`endpoints, circuit`connections
      ensures circuit.Valid()
      ensures circuit.entities == old(circuit.entities) + DecodeEntities(size, offset)
      ensures circuit.connections == old(circuit.connections) + DecodesWiring(b, addrTrans, size)
      ensures last == if size == 0 then None else Some(addrTrans + size)
    {
      ghost var e0, c0 := circuit.entities, circuit.connections;
      last := None;
      for j := 0 to size
        invariant ChainBuilt(circuit, e0, c0, b, addrTrans, j, offset, last)
      {
        last := NextDecoder(circuit, e0, c0, b, addrTrans, j, offset, dffOuts[j], last);
      }
    }

    /** The circuit after the first j decoders of a read port's chain. */
    ghost predicate ChainBuilt(circuit: Circuit, e0: seq<Entity>, c0: seq<Connection>, b: nat,
                               addrTrans: EntityId, j: nat, offset: int, last: Option<EntityId>)
      reads circuit
    {
      && circuit.Valid()
      && |e0| == addrTrans + 1
      && circuit.entities == e0 + DecodeEntities(j, offset)
      && circuit.connections == c0 + DecodesWiring(b, addrTrans, j)
      && last == if j == 0 then None else Some(addrTrans + j)
    }

    /** One turn of the decoders' loop: decoder j extends the chain built so far. */
    method NextDecoder(circuit: Circuit, ghost e0: seq<Entity>, ghost c0: seq<Connection>, b: nat,
                       addrTrans: EntityId, j: nat, offset: int, latch: EntityId, last: Option<EntityId>)
      returns (readEq: Option<EntityId>)
      requires ChainBuilt(circuit, e0, c0, b, addrTrans, j, offset, last)
      requires latch == LatchSetId(b, j)
      modifies circuit`entities, circuit`endpoints, circuit`connections
      ensures ChainBuilt(circuit, e0, c0, b, addrTrans, j + 1, offset, readEq)
    {
      ghost var e1, c1 := circuit.entities, circuit.connections;
      DecodeEntitiesAt(j, offset, 0);
      var made := AddDecoder(circuit, b, addrTrans, j, offset, latch, last);
      readEq := Some(made);
      DecoderStep(e0, e1, circuit.entities, c0, c1, circuit.connections, b, addrTrans, j, offset);
    }

    /** The write-transaction gate and its two input connections. */
    method AddGate(circuit: Circuit, clk: EndpointId, en: EndpointId) returns (trans: EntityId)
      requires circuit.Valid()
      modifies circuit`entities, circuit`endpoints, circuit`connections
      ensures circuit.Valid()
      ensures trans == old(|circuit.entities|)
      ensures circuit.entities == old(circuit.entities) + [DeciderEntity(TransactionParams)]
      ensures circuit.connections == old(circuit.connections) + TransactionWiring(trans, clk, en)
    {
      var made := circuit.AddDecider(TransactionParams);
      trans := made.value;
      circuit.MakeConnection(Red, [clk, In(trans)]);
      circuit.MakeConnection(Green, [en, In(trans)]);
    }

    /** Row i: its write select and the two halves of its latch, wired. */
    method AddRow(circuit: Circuit, b: nat, i: nat, offset: int, addr: EndpointId, wdata: EndpointId)
      returns (decider1: EntityId)
      requires circuit.Valid() && |circuit.entities| == b + 1 + 3 * i
      modifies circuit`entities, circuit`endpoints, circuit`connections
      ensures circuit.Valid()
      ensures decider1 == LatchSetId(b, i)
      ensures circuit.entities == old(circuit.entities)
        + [DeciderEntity(WriteSelectParams(i, offset)), DeciderEntity(LatchSetParams), DeciderEntity(LatchHoldParams)]
      ensures circuit.connections == old(circuit.connections) + RowWiring(b, i, addr, wdata)
    {
      var writeEq := AddSelect(circuit, b, i, offset, addr);
      decider1 := AddLatch(circuit, b, i, wdata);
      assert circuit.connections
          == old(circuit.connections) + SelectWiring(b, i, addr) + LatchWiring(b, i, wdata);
    }

    /** Row i's write select and its two input connections. */
    method AddSelect(circuit: Circuit, b: nat, i: nat, offset: int, addr: EndpointId)
      returns (writeEq: EntityId)
      requires circuit.Valid() && |circuit.entities| == b + 1 + 3 * i
      modifies circuit`entities, circuit`endpoints, circuit`connections
      ensures circuit.Valid()
      ensures writeEq == WriteSelectId(b, i)
      ensures circuit.entities == old(circuit.entities) + [DeciderEntity(WriteSelectParams(i, offset))]
      ensures circuit.connections == old(circuit.connections) + SelectWiring(b, i, addr)
    {
      var made := circuit.AddDecider(WriteSelectParams(i, offset));
      writeEq := made.value;
      circuit.MakeConnection(Red, [addr, In(writeEq)]);
      circuit.MakeConnection(Green, [Out(b), In(writeEq)]);
    }

    /** Row i's latch, built after its write select, and its four connections. */
    method AddLatch(circuit: Circuit, b: nat, i: nat, wdata: EndpointId)
      returns (decider1: EntityId)
      requires circuit.Valid() && |circuit.entities| == b + 2 + 3 * i
      modifies circuit`entities, circuit`endpoints, circuit`connections
      ensures circuit.Valid()
      ensures decider1 == LatchSetId(b, i)
      ensures circuit.entities == old(circuit.entities) + [DeciderEntity(LatchSetParams), DeciderEntity(LatchHoldParams)]
      ensures circuit.connections == old(circuit.connections) + LatchWiring(b, i, wdata)
    {
      var made := circuit.AddDecider(LatchSetParams);
      decider1 := made.value;
      made := circuit.AddDecider(LatchHoldParams);
      var decider2 := made.value;
      var writeEq := WriteSelectId(b, i);
      circuit.MakeConnection(Red, [wdata, In(decider1)]);
      circuit.MakeConnection(Green, [Out(writeEq), In(decider1), In(decider2)]);
      circuit.MakeConnection(Green, [Out(decider1), Out(decider2)]);
      circuit.MakeConnection(Red, [Out(decider2), In(decider2), Out(decider1)]);
    }

    /** Decoder j of read port p, wired to row j's latch, the port's address
        transformer and the previous decoder of the chain. */
    method AddDecoder(circuit: Circuit, b: nat, addrTrans: EntityId, j: nat, offset: int,
                      latch: EntityId, last: Option<EntityId>)
      returns (readEq: EntityId)
      requires circuit.Valid() && |circuit.entities| == addrTrans + 1 + j
      requires latch == LatchSetId(b, j)
      requires last == if j == 0 then None else Some(addrTrans + j)
      modifies circuit`entities, circuit`endpoints, circuit`connections
      ensures circuit.Valid()
      ensures readEq == addrTrans + 1 + j
      ensures circuit.entities == old(circuit.entities) + [DeciderEntity(ReadDecodeParams(j, offset))]
      ensures circuit.connections == old(circuit.connections) + DecodeWiring(b, addrTrans, j)
    {
      var made := circuit.AddDecider(ReadDecodeParams(j, offset));
      readEq := made.value;
      circuit.MakeConnection(Green, [Out(latch), In(readEq)]);
      circuit.MakeConnection(Red, [Out(addrTrans), In(readEq)]);
      if last.Some? {
        circuit.MakeConnection(Both, [Out(last.value), Out(readEq)]);
      }
    }
  }
}
