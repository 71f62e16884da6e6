/**
 * The receive engine of NeutronSim/ReceiveEngine.py, as values: the two command
 * kinds, the chunk packets that travel between pipeline stages, the memory
 * access logs, the activation predicates of the DMA stages, the two fixed
 * pipeline shapes, and one function per stage handler.
 *
 * A stage handler runs `chunk_num` iterations; each reads one packet from each
 * input it uses and writes its result to its outputs.  The model gives every
 * stage its whole input stream as a sequence and returns its whole output
 * stream.  A stage that needs a packet its producer never sends waits forever
 * in the source; the model reports that as `Err(Blocked)`.
 */
module ReceiveModel {
  import opened Wrappers

  /** `element_bytes_dict`: bytes per element of a data-type name. */
  type ElementBytes = string -> int

  /** Reduce-buffer reads always pass this element width (ReceiveEngine.py:204, 209). */
  const ReduceElementBytes: int := 2
  /** Quantised data is int8 (ReceiveEngine.py:379). */
  const QuantElementBytes: int := 1
  /** Simulated time charged per chunk by an enabled act or mul stage. */
  const ChunkLatency: nat := 100

  datatype Memory = L3 | ReduceBuffer

  /** The data a memory port returned: which memory, which chunk address. */
  datatype Payload = Chunk(mem: Memory, addr: int)

  /** `ChunkPacket(payload, num_elements, batch_size, element_bytes)`. */
  datatype Packet = Packet(payload: Payload, numElements: int, batchSize: int, elementBytes: int)
  {
    function WithElementBytes(b: int): Packet {
      this.(elementBytes := b)
    }
  }

  /** One `read(addr, repeat, free, num_elements, batch_size, element_bytes)` on a port. */
  datatype Read = Read(mem: Memory, addr: int, repeat: int, free: bool,
                       numElements: int, batchSize: int, elementBytes: int)

  /** One `write(addr, payload, free, num_elements, batch_size, element_bytes)` on the L3 port. */
  datatype Write = Write(addr: int, payload: Payload, free: bool,
                         numElements: int, batchSize: int, elementBytes: int)

  datatype Fault =
    | BadDmaId        // ValueError from an activation check
    | NotReceive      // ValueError from a handler that only supports Receive
    | BadSourceLoc    // `assert False` on a source location other than 'l3' / 'reduce'
    | MissingKey      // KeyError from a dictionary lookup
    | Blocked         // a stage waits for a packet that never comes

  /**
   * The two command kinds.  The fields are those the engine reads; `opcode` is
   * one of 'RECEIVE_MONO', 'RECEIVE_BIN', 'RECEIVE_TRI', and a location is 'l3'
   * or 'reduce'.
   */
  datatype Command =
    | Receive(opcode: string, chunkNum: nat, chunkSize: int, batchSize: int,
              src0: int, src0Dtype: string, src0Loc: string, free0: bool,
              src1: int, src1Dtype: string, src1Loc: string, free1: bool,
              asrc: int, adtype: string, afree: bool, redcount: int,
              act: bool, mul: bool, add: bool,
              dst0: int, dst0Type: string, dst1Flag: bool, dst1: int, dst1Type: string)
    | Quant(src: int, srcDtype: string, free: bool, dstq: int,
            chunkNum: nat, chunkSize: int, batchSize: int)

  // ---------------------------------------------------------------------------
  // Activation
  // ---------------------------------------------------------------------------

  /** The opcodes that use a second source. */
  predicate TwoSources(cmd: Command) {
    cmd.Receive? && (cmd.opcode == "RECEIVE_BIN" || cmd.opcode == "RECEIVE_TRI")
  }

  /** The opcode that also reads the addend source. */
  predicate ThreeSources(cmd: Command) {
    cmd.Receive? && cmd.opcode == "RECEIVE_TRI"
  }

  /**
   * `check_read_dma_in_use`: DMA 0 always, DMA 1 for two or three sources,
   * DMA 2 for three sources, any other id an error.
   */
  function ReadDmaInUse(cmd: Command, id: int): (r: Result<bool, Fault>)
    ensures r.Err? <==> id < 0 || 2 < id
    ensures r.Err? ==> r.error == BadDmaId
  {
    if id == 0 then Ok(true)
    else if id == 1 then Ok(TwoSources(cmd))
    else if id == 2 then Ok(ThreeSources(cmd))
    else Err(BadDmaId)
  }

  /**
   * `check_write_dma_in_use`: DMA 0 always, DMA 1 for a Receive command with
   * `dst1_flag`, any other id an error.
   */
  function WriteDmaInUse(cmd: Command, id: int): (r: Result<bool, Fault>)
    ensures r.Err? <==> id < 0 || 1 < id
    ensures r.Err? ==> r.error == BadDmaId
  {
    if id == 0 then Ok(true)
    else if id == 1 then Ok(cmd.Receive? && cmd.dst1Flag)
    else Err(BadDmaId)
  }

  // ---------------------------------------------------------------------------
  // Read DMA stages
  // ---------------------------------------------------------------------------

  datatype ReadOut = ReadOut(log: seq<Read>, packets: seq<Packet>)

  /** `src_map[id]`: source address of read DMA `id`. */
  function ReadSource(cmd: Command, id: int): int {
    if cmd.Quant? then cmd.src
    else if id == 0 then cmd.src0
    else if id == 1 then cmd.src1
    else cmd.asrc
  }

  /** Free flag of an L3 read by DMA `id` (DMA 2 uses `afree`). */
  function L3ReadFree(cmd: Command, id: int): bool {
    if cmd.Quant? then cmd.free
    else if id == 0 then cmd.free0
    else if id == 1 then cmd.free1
    else cmd.afree
  }

  /** Data type of an L3 read by DMA `id` (DMA 2 uses `adtype`). */
  function L3ReadDtype(cmd: Command, id: int): string {
    if cmd.Quant? then cmd.srcDtype
    else if id == 0 then cmd.src0Dtype
    else if id == 1 then cmd.src1Dtype
    else cmd.adtype
  }

  /** The packet a read DMA builds from the chunk one read returned. */
  function Delivered(rd: Read): Packet {
    Packet(Chunk(rd.mem, rd.addr), rd.numElements, rd.batchSize, rd.elementBytes)
  }

  /** `n` consecutive chunk reads from `src`, and the packets they produce. */
  function ReadRun(mem: Memory, src: int, repeat: int, free: bool, numElements: int,
                   batchSize: int, elementBytes: int, n: nat): ReadOut
  {
    var log := seq(n, i => Read(mem, src + i, repeat, free, numElements, batchSize, elementBytes));
    ReadOut(log, seq(n, i requires 0 <= i < n => Delivered(log[i])))
  }

  /**
   * `l3_read_dma_handler` as intended: an active DMA reads `chunk_num` chunks
   * from L3 at consecutive addresses, repeat count 1.  The source looks up the
   * free flag and data type of DMA 2 under key 3 (ReceiveEngine.py:249-250);
   * this definition uses the addend fields, see `L3ReadAsWritten`.
   */
  function L3Read(cmd: Command, id: int, eb: ElementBytes): (r: Result<ReadOut, Fault>)
    ensures r.Err? <==> id < 0 || 2 < id
  {
    var active :- ReadDmaInUse(cmd, id);
    if !active then Ok(ReadOut([], []))
    else Ok(ReadRun(L3, ReadSource(cmd, id), 1, L3ReadFree(cmd, id),
                    cmd.chunkSize, cmd.batchSize, eb(L3ReadDtype(cmd, id)), cmd.chunkNum))
  }

  /** `l3_read_dma_handler` as written: DMA 2 of a Receive command hits the missing key 3. */
  function L3ReadAsWritten(cmd: Command, id: int, eb: ElementBytes): Result<ReadOut, Fault> {
    var active :- ReadDmaInUse(cmd, id);
    if !active then Ok(ReadOut([], []))
    else if cmd.Receive? && id == 2 && cmd.chunkNum > 0 then Err(MissingKey)
    else L3Read(cmd, id, eb)
  }

  /**
   * `reduce_read_dma_handler`: only Receive commands; repeat count `redcount`,
   * free flag `free0` for DMA 0 and `free1` otherwise, fixed element width.
   */
  function ReduceRead(cmd: Command, id: int): (r: Result<ReadOut, Fault>)
    ensures r.Err? <==> id < 0 || 2 < id || (cmd.Quant? && id == 0)
  {
    var active :- ReadDmaInUse(cmd, id);
    if !active then Ok(ReadOut([], []))
    else if cmd.Quant? then Err(NotReceive)
    else Ok(ReadRun(ReduceBuffer, ReadSource(cmd, id), cmd.redcount,
                    if id == 0 then cmd.free0 else cmd.free1,
                    cmd.chunkSize, cmd.batchSize, ReduceElementBytes, cmd.chunkNum))
  }

  /** The read handler a source location selects. */
  function ReadFrom(mem: Memory, cmd: Command, id: int, eb: ElementBytes): (r: Result<ReadOut, Fault>)
    ensures cmd.Receive? && 0 <= id <= 2 ==> r.Ok?
  {
    if mem == L3 then L3Read(cmd, id, eb) else ReduceRead(cmd, id)
  }

  // ---------------------------------------------------------------------------
  // Compute stages
  // ---------------------------------------------------------------------------

  datatype StageOut = StageOut(packets: seq<Packet>, latency: nat)

  /** Every packet of `ps` with its element width replaced by `b`. */
  function Retyped(ps: seq<Packet>, b: int): (r: seq<Packet>)
    ensures |r| == |ps|
  {
    seq(|ps|, i requires 0 <= i < |ps| => ps[i].WithElementBytes(b))
  }

  /**
   * `act_handler`: forwards `chunk_num` packets, charging `ChunkLatency` per
   * chunk when `act` is set.  The first iteration reads a packet before it
   * rejects a Quant command.
   */
  function Act(cmd: Command, input: seq<Packet>): Result<StageOut, Fault> {
    var n := cmd.chunkNum;
    if n == 0 then Ok(StageOut([], 0))
    else if |input| == 0 then Err(Blocked)
    else if cmd.Quant? then Err(NotReceive)
    else if |input| < n then Err(Blocked)
    else Ok(StageOut(input[..n], if cmd.act then ChunkLatency * n else 0))
  }

  /**
   * `mul_quant_handler`.  For Receive it forwards the activated stream, reading
   * the stream of read DMA 1 as well (and charging `ChunkLatency` per chunk)
   * only when `mul` is set; for Quant it re-wraps each packet of read DMA 0 as
   * int8.  The source's edge labels `to_mul_quant_0/1` are swapped against the
   * handler's inputs (ReceiveEngine.py:100-101 and 357-358); here `primary` is
   * the activated stream for Receive and the read DMA 0 stream for Quant, and
   * `secondary` is the read DMA 1 stream, the wiring `ReceivePorts` proves
   * the intended lookups have.
   */
  function MulQuant(cmd: Command, primary: seq<Packet>, secondary: seq<Packet>): Result<StageOut, Fault> {
    var n := cmd.chunkNum;
    if cmd.Quant? then
      if |primary| < n then Err(Blocked)
      else Ok(StageOut(Retyped(primary[..n], QuantElementBytes), 0))
    else if cmd.mul then
      if |primary| < n || |secondary| < n then Err(Blocked)
      else Ok(StageOut(primary[..n], ChunkLatency * n))
    else if |primary| < n then Err(Blocked)
    else Ok(StageOut(primary[..n], 0))
  }

  /**
   * `add_handler`: forwards the mul/quant stream, reading the addend stream of
   * read DMA 2 as well only when `add` is set.  The source reads the ports
   * `to_add_1` and `to_add_2` while the edges are `to_add_0` and `to_add_1`
   * (ReceiveEngine.py:102-103 and 392-393); here `primary` is the mul/quant
   * stream and `secondary` the addend stream, as in `ReceivePorts`.
   */
  function Add(cmd: Command, primary: seq<Packet>, secondary: seq<Packet>): Result<StageOut, Fault> {
    var n := cmd.chunkNum;
    if cmd.Receive? && cmd.add then
      if |primary| < n || |secondary| < n then Err(Blocked)
      else Ok(StageOut(primary[..n], 0))
    else if |primary| < n then Err(Blocked)
    else Ok(StageOut(primary[..n], 0))
  }

  datatype ForkOut = ForkOut(out0: seq<Packet>, out1: seq<Packet>)

  /**
   * `fork_handler`: for Receive, each chunk goes to write DMA 0 with the width
   * of `dst0_type`, and to write DMA 1 with the width of `dst1_type` when
   * `dst1_flag` is set; for Quant, each chunk goes to write DMA 0 unchanged.
   */
  function Fork(cmd: Command, input: seq<Packet>, eb: ElementBytes): Result<ForkOut, Fault> {
    var n := cmd.chunkNum;
    if |input| < n then Err(Blocked)
    else if cmd.Quant? then Ok(ForkOut(input[..n], []))
    else Ok(ForkOut(Retyped(input[..n], eb(cmd.dst0Type)),
                    if cmd.dst1Flag then Retyped(input[..n], eb(cmd.dst1Type)) else []))
  }

  // ---------------------------------------------------------------------------
  // Write DMA stages
  // ---------------------------------------------------------------------------

  /** Destination address of write DMA `id`; the source starts from 0. */
  function WriteAddr(cmd: Command, id: int): int {
    if cmd.Quant? then cmd.dstq
    else if id == 0 then cmd.dst0
    else if id == 1 then cmd.dst1
    else 0
  }

  /** The L3 write that stores packet `p` at `addr`, always with free set. */
  function WriteOf(addr: int, p: Packet): Write {
    Write(addr, p.payload, true, p.numElements, p.batchSize, p.elementBytes)
  }

  /**
   * `l3_write_dma_handler`: an active DMA consumes `chunk_num` packets and
   * writes packet i at destination + i.  (The source's helper never returns its
   * handler, ReceiveEngine.py:332; this is the handler it defines.)
   */
  function WriteDma(cmd: Command, id: int, input: seq<Packet>): Result<seq<Write>, Fault> {
    var active :- WriteDmaInUse(cmd, id);
    var n := cmd.chunkNum;
    if !active then Ok([])
    else if |input| < n then Err(Blocked)
    else Ok(seq(n, i requires 0 <= i < n => WriteOf(WriteAddr(cmd, id) + i, input[i])))
  }

  // ---------------------------------------------------------------------------
  // Topology
  // ---------------------------------------------------------------------------

  /** The stage names `process` registers. */
  datatype StageName =
    | ReadDma0Stage | ReadDma1Stage | ReadDmaAStage
    | ActName | MulQuantName | AddName | ForkName
    | WriteDma0Stage | WriteDma1Stage
  {
    /** The name string the source registers the stage under. */
    function Text(): string {
      match this
      case ReadDma0Stage => "read_dma_0_stage"
      case ReadDma1Stage => "read_dma_1_stage"
      case ReadDmaAStage => "read_dma_a_stage"
      case ActName => "act_stage"
      case MulQuantName => "mul_quant_stage"
      case AddName => "add_stage"
      case ForkName => "fork_stage"
      case WriteDma0Stage => "write_dma_0_stage"
      case WriteDma1Stage => "write_dma_1_stage"
    }
  }

  /** The FIFO names the source uses, on its edges or in its handlers' lookups. */
  datatype FifoName =
    | ToAct | ToMulQuant0 | ToMulQuant1 | ToAdd0 | ToAdd1 | ToAdd2
    | ToFork | ToWriteDma0 | ToWriteDma1
  {
    /** The name string the source uses for the FIFO. */
    function Text(): string {
      match this
      case ToAct => "to_act"
      case ToMulQuant0 => "to_mul_quant_0"
      case ToMulQuant1 => "to_mul_quant_1"
      case ToAdd0 => "to_add_0"
      case ToAdd1 => "to_add_1"
      case ToAdd2 => "to_add_2"
      case ToFork => "to_fork"
      case ToWriteDma0 => "to_write_dma_0"
      case ToWriteDma1 => "to_write_dma_1"
    }
  }

  /** The handler a stage runs; a read handler reads `mem` as DMA `id`. */
  datatype Handler =
    | ReadHandler(mem: Memory, id: int)
    | ActHandler
    | MulQuantHandler
    | AddHandler
    | ForkHandler
    | WriteHandler(id: int)

  datatype Stage = Stage(name: StageName, handler: Handler)

  /** `add_edge(source, target, fifo name, capacity)`. */
  datatype Edge = Edge(source: StageName, target: StageName, name: FifoName, capacity: nat)

  datatype Topology = Topology(stages: seq<Stage>, edges: seq<Edge>, sinks: seq<StageName>)

  /** Memory a source location names. */
  function SourceMemory(loc: string): (r: Result<Memory, Fault>)
    ensures r.Ok? <==> loc == "l3" || loc == "reduce"
    ensures r.Ok? ==> (r.value == L3 <==> loc == "l3")
    ensures r.Err? ==> r.error == BadSourceLoc
  {
    if loc == "l3" then Ok(L3)
    else if loc == "reduce" then Ok(ReduceBuffer)
    else Err(BadSourceLoc)
  }

  /** The FIFOs of the Receive graph, all of capacity 1. */
  const ReceiveEdges: seq<Edge> :=
    [Edge(ReadDma0Stage, ActName, ToAct, 1),
     Edge(ReadDma1Stage, MulQuantName, ToMulQuant0, 1),
     Edge(ActName, MulQuantName, ToMulQuant1, 1),
     Edge(MulQuantName, AddName, ToAdd0, 1),
     Edge(ReadDmaAStage, AddName, ToAdd1, 1),
     Edge(AddName, ForkName, ToFork, 1),
     Edge(ForkName, WriteDma0Stage, ToWriteDma0, 1),
     Edge(ForkName, WriteDma1Stage, ToWriteDma1, 1)]

  /** The FIFOs of the Quant graph. */
  const QuantEdges: seq<Edge> :=
    [Edge(ReadDma0Stage, MulQuantName, ToMulQuant0, 1),
     Edge(MulQuantName, ForkName, ToFork, 1),
     Edge(ForkName, WriteDma0Stage, ToWriteDma0, 1)]

  /** The Receive graph, with the read handlers its source locations select. */
  function ReceiveGraph(mem0: Memory, mem1: Memory): Topology {
    Topology(
      [Stage(ReadDma0Stage, ReadHandler(mem0, 0)),
       Stage(ReadDma1Stage, ReadHandler(mem1, 1)),
       Stage(ReadDmaAStage, ReadHandler(L3, 2)),
       Stage(ActName, ActHandler),
       Stage(MulQuantName, MulQuantHandler),
       Stage(AddName, AddHandler),
       Stage(ForkName, ForkHandler),
       Stage(WriteDma0Stage, WriteHandler(0)),
       Stage(WriteDma1Stage, WriteHandler(1))],
      ReceiveEdges,
      [WriteDma0Stage, WriteDma1Stage])
  }

  /** The Quant graph. */
  function QuantGraph(): Topology {
    Topology(
      [Stage(ReadDma0Stage, ReadHandler(L3, 0)),
       Stage(MulQuantName, MulQuantHandler),
       Stage(ForkName, ForkHandler),
       Stage(WriteDma0Stage, WriteHandler(0))],
      QuantEdges,
      [WriteDma0Stage])
  }

  /** The pipeline graph `process` builds for a command. */
  function SelectTopology(cmd: Command): (r: Result<Topology, Fault>)
    ensures r.Ok? ==> |r.value.stages| == (if cmd.Receive? then 9 else 4)
    ensures r.Ok? ==> r.value.stages[0].handler.ReadHandler?
    ensures r.Ok? && cmd.Receive? ==> r.value.stages[1].handler.ReadHandler?
  {
    if cmd.Receive? then
      var mem0 :- SourceMemory(cmd.src0Loc);
      var mem1 :- SourceMemory(cmd.src1Loc);
      Ok(ReceiveGraph(mem0, mem1))
    else
      Ok(QuantGraph())
  }

  // ---------------------------------------------------------------------------
  // One command
  // ---------------------------------------------------------------------------

  /** Everything one command does: reads, writes, charged stage time. */
  datatype Outcome = Outcome(readLog: seq<Read>, writeLog: seq<Write>, latency: nat)

  /**
   * The Receive pipeline: stages composed along the edges of its graph.  The
   * three read stages of a Receive command cannot fail.
   */
  function ExecuteReceive(cmd: Command, mem0: Memory, mem1: Memory, eb: ElementBytes): Result<Outcome, Fault>
    requires cmd.Receive?
  {
    var r0 := ReadFrom(mem0, cmd, 0, eb).value;
    var r1 := ReadFrom(mem1, cmd, 1, eb).value;
    var ra := L3Read(cmd, 2, eb).value;
    var act :- Act(cmd, r0.packets);
    var mq :- MulQuant(cmd, act.packets, r1.packets);
    var ad :- Add(cmd, mq.packets, ra.packets);
    var fk :- Fork(cmd, ad.packets, eb);
    var w0 :- WriteDma(cmd, 0, fk.out0);
    var w1 :- WriteDma(cmd, 1, fk.out1);
    Ok(Outcome(r0.log + r1.log + ra.log, w0 + w1, act.latency + mq.latency))
  }

  /** The Quant pipeline. */
  function ExecuteQuant(cmd: Command, eb: ElementBytes): Result<Outcome, Fault> {
    var r0 := L3Read(cmd, 0, eb).value;
    var mq :- MulQuant(cmd, r0.packets, []);
    var fk :- Fork(cmd, mq.packets, eb);
    var w0 :- WriteDma(cmd, 0, fk.out0);
    Ok(Outcome(r0.log, w0, mq.latency))
  }

  /** One command: build its graph, then run it to completion. */
  function Execute(cmd: Command, eb: ElementBytes): Result<Outcome, Fault> {
    var topo :- SelectTopology(cmd);
    if cmd.Receive? then ExecuteReceive(cmd, topo.stages[0].handler.mem, topo.stages[1].handler.mem, eb)
    else ExecuteQuant(cmd, eb)
  }
}
