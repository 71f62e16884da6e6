/**
 * Properties of the receive-engine model: which DMA stages are active, the
 * shape of the two pipeline graphs, what each read stage issues, and what a
 * whole command reads, writes and charges.
 */
module ReceiveProofs {
  import opened Wrappers
  import opened ReceiveModel

  // ---------------------------------------------------------------------------
  // Activation
  // ---------------------------------------------------------------------------

  /**
   * Read DMA 0 and write DMA 0 always run; read DMA 2 runs only alongside read
   * DMA 1; a Quant command uses only the DMAs numbered 0; write DMA 1 runs
   * exactly for a Receive command with `dst1_flag`.
   */
  lemma ActivationNested(cmd: Command)
    ensures ReadDmaInUse(cmd, 0) == Ok(true) && WriteDmaInUse(cmd, 0) == Ok(true)
    ensures ReadDmaInUse(cmd, 2) == Ok(true) ==> ReadDmaInUse(cmd, 1) == Ok(true)
    ensures cmd.Quant? ==> ReadDmaInUse(cmd, 1) == Ok(false) && ReadDmaInUse(cmd, 2) == Ok(false)
    ensures cmd.Receive? && cmd.opcode == "RECEIVE_MONO" ==>
      ReadDmaInUse(cmd, 1) == Ok(false) && ReadDmaInUse(cmd, 2) == Ok(false)
    ensures WriteDmaInUse(cmd, 1) == Ok(true) <==> cmd.Receive? && cmd.dst1Flag
  {
  }

  /** An inactive DMA neither reads nor writes anything and sends no packet. */
  lemma InactiveDmaSilent(cmd: Command, id: int, eb: ElementBytes, input: seq<Packet>)
    ensures ReadDmaInUse(cmd, id) == Ok(false) ==>
      L3Read(cmd, id, eb) == Ok(ReadOut([], [])) && ReduceRead(cmd, id) == Ok(ReadOut([], []))
    ensures WriteDmaInUse(cmd, id) == Ok(false) ==> WriteDma(cmd, id, input) == Ok([])
    ensures ReadDmaInUse(cmd, id).Err? ==>
      L3Read(cmd, id, eb) == Err(BadDmaId) && ReduceRead(cmd, id) == Err(BadDmaId)
    ensures WriteDmaInUse(cmd, id).Err? ==> WriteDma(cmd, id, input) == Err(BadDmaId)
  {
  }

  // ---------------------------------------------------------------------------
  // Read stages
  // ---------------------------------------------------------------------------

  /**
   * The reads an active read DMA `id` of a Receive command issues from `mem`:
   * chunk i at source + i; from L3 with repeat 1 and the DMA's own free flag
   * and data type, from the reduce buffer with `redcount` and the fixed width.
   */
  function SourceReads(cmd: Command, id: int, mem: Memory, eb: ElementBytes): seq<Read>
    requires cmd.Receive?
  {
    seq(cmd.chunkNum, i =>
      Read(mem, ReadSource(cmd, id) + i,
           if mem == L3 then 1 else cmd.redcount,
           if mem == L3 then L3ReadFree(cmd, id) else if id == 0 then cmd.free0 else cmd.free1,
           cmd.chunkSize, cmd.batchSize,
           if mem == L3 then eb(L3ReadDtype(cmd, id)) else ReduceElementBytes))
  }

  /**
   * A read DMA of a Receive command issues `SourceReads` when active and nothing
   * otherwise, and sends, in order, one packet per read carrying that read's
   * chunk and shape.
   */
  lemma ActiveReadLog(mem: Memory, cmd: Command, id: int, eb: ElementBytes)
    requires cmd.Receive? && 0 <= id <= 2
    ensures ReadFrom(mem, cmd, id, eb).Ok?
    ensures ReadFrom(mem, cmd, id, eb).value.log ==
      if ReadDmaInUse(cmd, id) == Ok(true) then SourceReads(cmd, id, mem, eb) else []
    ensures var o := ReadFrom(mem, cmd, id, eb).value;
      |o.packets| == |o.log| && forall i :: 0 <= i < |o.log| ==> o.packets[i] == Delivered(o.log[i])
  {
    var o := ReadFrom(mem, cmd, id, eb).value;
    if ReadDmaInUse(cmd, id) == Ok(true) {
      assert o.log == SourceReads(cmd, id, mem, eb);
    }
  }

  /**
   * L3 read DMA 2 as written fails on every RECEIVE_TRI command with at least
   * one chunk, while the intended stage issues the addend reads.
   */
  lemma AddendReadFailsAsWritten(cmd: Command, eb: ElementBytes)
    requires ThreeSources(cmd) && cmd.chunkNum > 0
    ensures L3ReadAsWritten(cmd, 2, eb) == Err(MissingKey)
    ensures L3Read(cmd, 2, eb).Ok?
    ensures L3Read(cmd, 2, eb).value.log ==
      seq(cmd.chunkNum, i => Read(L3, cmd.asrc + i, 1, cmd.afree, cmd.chunkSize, cmd.batchSize, eb(cmd.adtype)))
  {
  }

  /** Everywhere else the as-written L3 read DMA agrees with the intended one. */
  lemma L3ReadAsWrittenElsewhere(cmd: Command, id: int, eb: ElementBytes)
    requires !(cmd.Receive? && id == 2 && cmd.chunkNum > 0)
    ensures L3ReadAsWritten(cmd, id, eb) == L3Read(cmd, id, eb)
  {
  }

  // ---------------------------------------------------------------------------
  // Compute stages
  // ---------------------------------------------------------------------------

  /**
   * Quantisation keeps every chunk's payload, element count and batch size and
   * narrows its width to one byte.
   */
  lemma QuantRewraps(cmd: Command, primary: seq<Packet>, secondary: seq<Packet>)
    requires cmd.Quant? && |primary| >= cmd.chunkNum
    ensures MulQuant(cmd, primary, secondary).Ok?
    ensures var out := MulQuant(cmd, primary, secondary).value.packets;
      |out| == cmd.chunkNum &&
      forall i :: 0 <= i < |out| ==>
        out[i].payload == primary[i].payload && out[i].numElements == primary[i].numElements &&
        out[i].batchSize == primary[i].batchSize && out[i].elementBytes == QuantElementBytes
    ensures MulQuant(cmd, primary, secondary).value.latency == 0
  {
  }

  /**
   * For Receive, act, mul and add pass the first `chunk_num` packets of their
   * primary stream through unchanged, whatever their flags; they complete
   * exactly when every stream they read has `chunk_num` packets.
   */
  lemma ComputeForwards(cmd: Command, primary: seq<Packet>, secondary: seq<Packet>)
    requires cmd.Receive? && |primary| >= cmd.chunkNum
    ensures Act(cmd, primary).Ok? && Act(cmd, primary).value.packets == primary[..cmd.chunkNum]
    ensures MulQuant(cmd, primary, secondary).Ok? <==> !cmd.mul || |secondary| >= cmd.chunkNum
    ensures Add(cmd, primary, secondary).Ok? <==> !cmd.add || |secondary| >= cmd.chunkNum
    ensures MulQuant(cmd, primary, secondary).Ok? ==>
      MulQuant(cmd, primary, secondary).value.packets == primary[..cmd.chunkNum]
    ensures Add(cmd, primary, secondary).Ok? ==>
      Add(cmd, primary, secondary).value.packets == primary[..cmd.chunkNum]
  {
  }

  /**
   * Fork for Receive: every chunk goes to write DMA 0 re-typed to `dst0_type`'s
   * width, and to write DMA 1 re-typed to `dst1_type`'s width exactly when
   * `dst1_flag` is set; nothing else of the packet changes.
   */
  lemma ForkWidths(cmd: Command, input: seq<Packet>, eb: ElementBytes)
    requires cmd.Receive? && |input| >= cmd.chunkNum
    ensures Fork(cmd, input, eb).Ok?
    ensures var f := Fork(cmd, input, eb).value;
      |f.out0| == cmd.chunkNum && |f.out1| == (if cmd.dst1Flag then cmd.chunkNum else 0) &&
      (forall i :: 0 <= i < |f.out0| ==> f.out0[i] == input[i].(elementBytes := eb(cmd.dst0Type))) &&
      (forall i :: 0 <= i < |f.out1| ==> f.out1[i] == input[i].(elementBytes := eb(cmd.dst1Type)))
  {
  }

  /**
   * An active write DMA consumes `chunk_num` packets and stores packet i at its
   * destination + i with free set and the packet's own payload and shape.
   */
  lemma WriteLog(cmd: Command, id: int, input: seq<Packet>)
    requires WriteDmaInUse(cmd, id) == Ok(true) && |input| >= cmd.chunkNum
    ensures WriteDma(cmd, id, input).Ok?
    ensures var w := WriteDma(cmd, id, input).value;
      |w| == cmd.chunkNum &&
      forall i :: 0 <= i < |w| ==>
        w[i] == Write(WriteAddr(cmd, id) + i, input[i].payload, true,
                      input[i].numElements, input[i].batchSize, input[i].elementBytes)
    ensures WriteAddr(cmd, id) == if cmd.Quant? then cmd.dstq else if id == 0 then cmd.dst0 else cmd.dst1
  {
  }

  // ---------------------------------------------------------------------------
  // Topology
  // ---------------------------------------------------------------------------

  /** The order in which `process` registers the stages of the Receive graph. */
  function Rank(n: StageName): nat {
    match n
    case ReadDma0Stage => 0
    case ReadDma1Stage => 1
    case ReadDmaAStage => 2
    case ActName => 3
    case MulQuantName => 4
    case AddName => 5
    case ForkName => 6
    case WriteDma0Stage => 7
    case WriteDma1Stage => 8
  }

  /** The names of a graph's stages, in registration order. */
  function StageNames(t: Topology): (r: seq<StageName>)
    ensures |r| == |t.stages|
  {
    seq(|t.stages|, i requires 0 <= i < |t.stages| => t.stages[i].name)
  }

  /** Names listed in strictly increasing rank, so none repeats. */
  predicate Listed(names: seq<StageName>) {
    forall i :: 0 <= i < |names| - 1 ==> Rank(names[i]) < Rank(names[i + 1])
  }

  /** Every edge joins two listed stages and runs to a higher rank. */
  predicate Forward(names: seq<StageName>, edges: seq<Edge>) {
    forall e <- edges :: e.source in names && e.target in names && Rank(e.source) < Rank(e.target)
  }

  /** Every sink is a listed stage and has no outgoing edge. */
  predicate SinksClosed(names: seq<StageName>, edges: seq<Edge>, sinks: seq<StageName>) {
    forall s <- sinks :: s in names && forall e <- edges :: e.source != s
  }

  /** A graph whose stage list is a topological order ending in its sinks. */
  predicate Ordered(t: Topology) {
    var names := StageNames(t);
    Listed(names) && Forward(names, t.edges) && SinksClosed(names, t.edges, t.sinks)
  }

  /** A chain of edges of `t`, each starting where the previous one ends. */
  predicate IsPath(t: Topology, p: seq<Edge>) {
    |p| > 0 && (forall e <- p :: e in t.edges) &&
    forall k :: 0 <= k < |p| - 1 ==> p[k].target == p[k + 1].source
  }

  /**
   * The Receive graph has 9 stages, 8 capacity-1 edges and both write DMAs as
   * sinks; the Quant graph has 4 stages, 3 capacity-1 edges and write DMA 0 as
   * its sink.  Only a Receive command whose source locations are not both
   * 'l3' or 'reduce' fails, and it fails with the source-location error.
   */
  lemma TopologyShape(cmd: Command)
    ensures SelectTopology(cmd).Err? <==>
      cmd.Receive? && (SourceMemory(cmd.src0Loc).Err? || SourceMemory(cmd.src1Loc).Err?)
    ensures SelectTopology(cmd).Err? ==> SelectTopology(cmd).error == BadSourceLoc
    ensures SelectTopology(cmd).Ok? ==>
      var t := SelectTopology(cmd).value;
      |t.edges| == (if cmd.Receive? then 8 else 3) &&
      (forall e <- t.edges :: e.capacity == 1) &&
      t.sinks == (if cmd.Receive? then [WriteDma0Stage, WriteDma1Stage] else [WriteDma0Stage])
    ensures SelectTopology(cmd).Ok? && cmd.Receive? ==>
      var t := SelectTopology(cmd).value;
      t.stages[0].handler == ReadHandler(SourceMemory(cmd.src0Loc).value, 0) &&
      t.stages[1].handler == ReadHandler(SourceMemory(cmd.src1Loc).value, 1) &&
      t.stages[2].handler == ReadHandler(L3, 2)
  {
  }

  const ReceiveOrder: seq<StageName> :=
    [ReadDma0Stage, ReadDma1Stage, ReadDmaAStage, ActName, MulQuantName, AddName, ForkName,
     WriteDma0Stage, WriteDma1Stage]

  const QuantOrder: seq<StageName> := [ReadDma0Stage, MulQuantName, ForkName, WriteDma0Stage]

  lemma ReceiveOrderListed()
    ensures Listed(ReceiveOrder)
  {
  }

  lemma ReceiveEdgesForward()
    ensures Forward(ReceiveOrder, ReceiveEdges)
  {
  }

  lemma ReceiveSinksClosed()
    ensures SinksClosed(ReceiveOrder, ReceiveEdges, [WriteDma0Stage, WriteDma1Stage])
  {
  }

  lemma QuantOrderFacts()
    ensures Listed(QuantOrder) && Forward(QuantOrder, QuantEdges)
    ensures SinksClosed(QuantOrder, QuantEdges, [WriteDma0Stage])
  {
  }

  lemma ReceiveGraphNames(mem0: Memory, mem1: Memory)
    ensures StageNames(ReceiveGraph(mem0, mem1)) == ReceiveOrder
  {
    var s := ReceiveGraph(mem0, mem1).stages;
    var names := StageNames(ReceiveGraph(mem0, mem1));
    assert s[0].name == ReadDma0Stage && s[1].name == ReadDma1Stage && s[2].name == ReadDmaAStage;
    assert s[3].name == ActName && s[4].name == MulQuantName && s[5].name == AddName;
    assert s[6].name == ForkName && s[7].name == WriteDma0Stage && s[8].name == WriteDma1Stage;
  }

  lemma QuantGraphNames()
    ensures StageNames(QuantGraph()) == QuantOrder
  {
    var s := QuantGraph().stages;
    assert s[0].name == ReadDma0Stage && s[1].name == MulQuantName;
    assert s[2].name == ForkName && s[3].name == WriteDma0Stage;
  }

  /** Both graphs list their stages in an order every edge follows, and their sinks end the flow. */
  lemma TopologyOrdered(cmd: Command)
    requires SelectTopology(cmd).Ok?
    ensures Ordered(SelectTopology(cmd).value)
  {
    if cmd.Receive? {
      ReceiveGraphNames(SourceMemory(cmd.src0Loc).value, SourceMemory(cmd.src1Loc).value);
      ReceiveOrderListed();
      ReceiveEdgesForward();
      ReceiveSinksClosed();
    } else {
      QuantGraphNames();
      QuantOrderFacts();
    }
  }

  /** Along any path of a forward graph the stage ranks strictly increase. */
  lemma {:induction false} PathGoesForward(t: Topology, p: seq<Edge>)
    requires Forward(StageNames(t), t.edges) && IsPath(t, p)
    ensures Rank(p[0].source) < Rank(p[|p| - 1].target)
  {
    assert p[0] in t.edges;
    if |p| > 1 {
      var q := p[1..];
      assert forall e <- q :: e in p;
      assert forall k :: 0 <= k < |q| - 1 ==> q[k].target == q[k + 1].source by {
        forall k | 0 <= k < |q| - 1 ensures q[k].target == q[k + 1].source {
          assert q[k] == p[k + 1] && q[k + 1] == p[k + 2];
        }
      }
      PathGoesForward(t, q);
      assert q[0] == p[1] && q[|q| - 1] == p[|p| - 1];
    }
  }

  /** Neither pipeline graph has a cycle: no path returns to the stage it left. */
  lemma TopologyAcyclic(cmd: Command, p: seq<Edge>)
    requires SelectTopology(cmd).Ok? && IsPath(SelectTopology(cmd).value, p)
    ensures p[0].source != p[|p| - 1].target
  {
    TopologyOrdered(cmd);
    PathGoesForward(SelectTopology(cmd).value, p);
  }

  // ---------------------------------------------------------------------------
  // Whole commands
  // ---------------------------------------------------------------------------

  /** `n` writes storing the chunk read at `src + i` of `mem` to `dst + i`. */
  function CopyWrites(dst: int, mem: Memory, src: int, numElements: int, batchSize: int,
                      width: int, n: nat): seq<Write>
  {
    seq(n, i => Write(dst + i, Chunk(mem, src + i), true, numElements, batchSize, width))
  }

  /** Everything a Receive command reads, writes and charges when it completes. */
  function ReceiveSpec(cmd: Command, mem0: Memory, mem1: Memory, eb: ElementBytes): Outcome
    requires cmd.Receive?
  {
    var n := cmd.chunkNum;
    Outcome(
      SourceReads(cmd, 0, mem0, eb)
        + (if TwoSources(cmd) then SourceReads(cmd, 1, mem1, eb) else [])
        + (if ThreeSources(cmd) then SourceReads(cmd, 2, L3, eb) else []),
      CopyWrites(cmd.dst0, mem0, cmd.src0, cmd.chunkSize, cmd.batchSize, eb(cmd.dst0Type), n)
        + (if cmd.dst1Flag
           then CopyWrites(cmd.dst1, mem0, cmd.src0, cmd.chunkSize, cmd.batchSize, eb(cmd.dst1Type), n)
           else []),
      (if cmd.act then ChunkLatency * n else 0) + (if cmd.mul then ChunkLatency * n else 0))
  }

  /** The packets read DMA 0 sends: chunk i of `mem` from `src0 + i`, in the command's shape. */
  predicate SourceStream(cmd: Command, mem: Memory, stream: seq<Packet>)
    requires cmd.Receive?
  {
    |stream| == cmd.chunkNum &&
    forall i :: 0 <= i < |stream| ==>
      stream[i].payload == Chunk(mem, cmd.src0 + i) &&
      stream[i].numElements == cmd.chunkSize && stream[i].batchSize == cmd.batchSize
  }

  /** Fork and the write DMAs store the source stream at both destinations. */
  lemma ForkedWrites(cmd: Command, mem0: Memory, stream: seq<Packet>, eb: ElementBytes)
    requires cmd.Receive? && SourceStream(cmd, mem0, stream)
    ensures Fork(cmd, stream, eb).Ok?
    ensures WriteDma(cmd, 0, Fork(cmd, stream, eb).value.out0) ==
      Ok(CopyWrites(cmd.dst0, mem0, cmd.src0, cmd.chunkSize, cmd.batchSize, eb(cmd.dst0Type), cmd.chunkNum))
    ensures WriteDma(cmd, 1, Fork(cmd, stream, eb).value.out1) ==
      Ok(if cmd.dst1Flag
         then CopyWrites(cmd.dst1, mem0, cmd.src0, cmd.chunkSize, cmd.batchSize, eb(cmd.dst1Type), cmd.chunkNum)
         else [])
  {
    var n := cmd.chunkNum;
    ForkWidths(cmd, stream, eb);
    var fk := Fork(cmd, stream, eb).value;
    WriteLog(cmd, 0, fk.out0);
    assert WriteDma(cmd, 0, fk.out0).value ==
      CopyWrites(cmd.dst0, mem0, cmd.src0, cmd.chunkSize, cmd.batchSize, eb(cmd.dst0Type), n);
    if cmd.dst1Flag {
      WriteLog(cmd, 1, fk.out1);
      assert WriteDma(cmd, 1, fk.out1).value ==
        CopyWrites(cmd.dst1, mem0, cmd.src0, cmd.chunkSize, cmd.batchSize, eb(cmd.dst1Type), n);
    }
  }

  /** Act, mul and add hand the source stream on unchanged and charge act and mul time. */
  lemma ComputeChain(cmd: Command, s0: seq<Packet>, s1: seq<Packet>, sa: seq<Packet>)
    requires cmd.Receive? && |s0| == cmd.chunkNum
    requires |s1| == (if TwoSources(cmd) then cmd.chunkNum else 0)
    requires |sa| == (if ThreeSources(cmd) then cmd.chunkNum else 0)
    requires cmd.chunkNum == 0 || ((cmd.mul ==> TwoSources(cmd)) && (cmd.add ==> ThreeSources(cmd)))
    ensures Act(cmd, s0).Ok? && Act(cmd, s0).value.packets == s0
    ensures MulQuant(cmd, s0, s1).Ok? && MulQuant(cmd, s0, s1).value.packets == s0
    ensures Add(cmd, s0, sa) == Ok(StageOut(s0, 0))
    ensures Act(cmd, s0).value.latency + MulQuant(cmd, s0, s1).value.latency ==
      (if cmd.act then ChunkLatency * cmd.chunkNum else 0) + (if cmd.mul then ChunkLatency * cmd.chunkNum else 0)
  {
    assert s0[..cmd.chunkNum] == s0;
    ComputeForwards(cmd, s0, s1);
    ComputeForwards(cmd, s0, sa);
  }

  /** The three read stages of a Receive command: the reads they issue and the streams they send. */
  lemma ReceiveReads(cmd: Command, mem0: Memory, mem1: Memory, eb: ElementBytes)
    requires cmd.Receive?
    ensures SourceStream(cmd, mem0, ReadFrom(mem0, cmd, 0, eb).value.packets)
    ensures |ReadFrom(mem1, cmd, 1, eb).value.packets| == if TwoSources(cmd) then cmd.chunkNum else 0
    ensures |L3Read(cmd, 2, eb).value.packets| == if ThreeSources(cmd) then cmd.chunkNum else 0
    ensures ReadFrom(mem0, cmd, 0, eb).value.log + ReadFrom(mem1, cmd, 1, eb).value.log
      + L3Read(cmd, 2, eb).value.log == ReceiveSpec(cmd, mem0, mem1, eb).readLog
  {
    ActiveReadLog(mem0, cmd, 0, eb);
    ActiveReadLog(mem1, cmd, 1, eb);
    ActiveReadLog(L3, cmd, 2, eb);
  }

  /** The streams in a Receive pipeline whose stages all have their inputs. */
  lemma ReceiveStreams(cmd: Command, mem0: Memory, mem1: Memory, eb: ElementBytes)
    requires cmd.Receive?
    requires cmd.chunkNum == 0 || ((cmd.mul ==> TwoSources(cmd)) && (cmd.add ==> ThreeSources(cmd)))
    ensures ExecuteReceive(cmd, mem0, mem1, eb) == Ok(ReceiveSpec(cmd, mem0, mem1, eb))
  {
    ReceiveReads(cmd, mem0, mem1, eb);
    var r0 := ReadFrom(mem0, cmd, 0, eb).value;
    var r1 := ReadFrom(mem1, cmd, 1, eb).value;
    var ra := L3Read(cmd, 2, eb).value;
    ComputeChain(cmd, r0.packets, r1.packets, ra.packets);
    var act := Act(cmd, r0.packets).value;
    var mq := MulQuant(cmd, act.packets, r1.packets).value;
    assert Add(cmd, mq.packets, ra.packets) == Ok(StageOut(r0.packets, 0));
    ForkedWrites(cmd, mem0, r0.packets, eb);
    var fk := Fork(cmd, r0.packets, eb).value;
    var w0 := WriteDma(cmd, 0, fk.out0).value;
    var w1 := WriteDma(cmd, 1, fk.out1).value;
    assert ExecuteReceive(cmd, mem0, mem1, eb) == Ok(Outcome(r0.log + r1.log + ra.log, w0 + w1, act.latency + mq.latency));
  }

  /**
   * A Receive command with valid source locations completes exactly when each
   * enabled combining stage has its second source; it then reads every active
   * source chunk by chunk (the source's capacity-1 FIFOs stop a source that no
   * stage consumes after two reads, which this closed form does not model),
   * writes the chunk read at `src0 + i` to `dst0 + i`
   * (and to `dst1 + i` when `dst1_flag` is set) at the destination widths, and
   * charges per-chunk time for act and mul only.
   */
  lemma ReceiveOutcome(cmd: Command, eb: ElementBytes)
    requires cmd.Receive? && SourceMemory(cmd.src0Loc).Ok? && SourceMemory(cmd.src1Loc).Ok?
    requires cmd.chunkNum == 0 || ((cmd.mul ==> TwoSources(cmd)) && (cmd.add ==> ThreeSources(cmd)))
    ensures Execute(cmd, eb) ==
      Ok(ReceiveSpec(cmd, SourceMemory(cmd.src0Loc).value, SourceMemory(cmd.src1Loc).value, eb))
  {
    TopologyShape(cmd);
    ReceiveStreams(cmd, SourceMemory(cmd.src0Loc).value, SourceMemory(cmd.src1Loc).value, eb);
  }

  /**
   * A Receive command with at least one chunk whose enabled mul (add) stage has
   * no second (addend) source never completes.
   */
  lemma ReceiveBlocks(cmd: Command, eb: ElementBytes)
    requires cmd.Receive? && SourceMemory(cmd.src0Loc).Ok? && SourceMemory(cmd.src1Loc).Ok?
    requires cmd.chunkNum > 0 && ((cmd.mul && !TwoSources(cmd)) || (cmd.add && !ThreeSources(cmd)))
    ensures Execute(cmd, eb) == Err(Blocked)
  {
    var n := cmd.chunkNum;
    var mem0 := SourceMemory(cmd.src0Loc).value;
    var mem1 := SourceMemory(cmd.src1Loc).value;
    TopologyShape(cmd);
    ActiveReadLog(mem0, cmd, 0, eb);
    ActiveReadLog(mem1, cmd, 1, eb);
    ActiveReadLog(L3, cmd, 2, eb);
    var r0 := ReadFrom(mem0, cmd, 0, eb).value;
    var r1 := ReadFrom(mem1, cmd, 1, eb).value;
    var ra := L3Read(cmd, 2, eb).value;
    assert r0.packets[..n] == r0.packets;
    ComputeForwards(cmd, r0.packets, r1.packets);
    var act := Act(cmd, r0.packets).value;
    if !(cmd.mul && !TwoSources(cmd)) {
      var mq := MulQuant(cmd, act.packets, r1.packets).value;
      ComputeForwards(cmd, mq.packets, ra.packets);
    }
  }

  /** A Receive command whose source location is neither 'l3' nor 'reduce' fails before it runs. */
  lemma ReceiveBadLocation(cmd: Command, eb: ElementBytes)
    requires cmd.Receive? && (SourceMemory(cmd.src0Loc).Err? || SourceMemory(cmd.src1Loc).Err?)
    ensures Execute(cmd, eb) == Err(BadSourceLoc)
  {
    TopologyShape(cmd);
  }

  /** When a Receive command completes, and when it cannot. */
  lemma ReceiveCompletes(cmd: Command, eb: ElementBytes)
    requires cmd.Receive?
    ensures Execute(cmd, eb).Ok? <==>
      SourceMemory(cmd.src0Loc).Ok? && SourceMemory(cmd.src1Loc).Ok? &&
      (cmd.chunkNum == 0 || ((cmd.mul ==> TwoSources(cmd)) && (cmd.add ==> ThreeSources(cmd))))
    ensures Execute(cmd, eb).Err? ==> Execute(cmd, eb).error in {BadSourceLoc, Blocked}
  {
    if SourceMemory(cmd.src0Loc).Err? || SourceMemory(cmd.src1Loc).Err? {
      ReceiveBadLocation(cmd, eb);
    } else if cmd.chunkNum == 0 || ((cmd.mul ==> TwoSources(cmd)) && (cmd.add ==> ThreeSources(cmd))) {
      ReceiveOutcome(cmd, eb);
    } else {
      ReceiveBlocks(cmd, eb);
    }
  }

  /**
   * A Quant command always completes: it reads `chunk_num` chunks of L3 from
   * `src` and writes chunk i, narrowed to int8, to `dstq + i`, charging nothing.
   */
  lemma QuantOutcome(cmd: Command, eb: ElementBytes)
    requires cmd.Quant?
    ensures Execute(cmd, eb) == Ok(Outcome(
      seq(cmd.chunkNum, i => Read(L3, cmd.src + i, 1, cmd.free, cmd.chunkSize, cmd.batchSize, eb(cmd.srcDtype))),
      CopyWrites(cmd.dstq, L3, cmd.src, cmd.chunkSize, cmd.batchSize, QuantElementBytes, cmd.chunkNum),
      0))
  {
    var n := cmd.chunkNum;
    var r0 := L3Read(cmd, 0, eb).value;
    assert r0.packets[..n] == r0.packets;
    QuantRewraps(cmd, r0.packets, []);
    var mq := MulQuant(cmd, r0.packets, []).value;
    var fk := Fork(cmd, mq.packets, eb).value;
    assert fk.out0 == mq.packets;
    WriteLog(cmd, 0, fk.out0);
    assert WriteDma(cmd, 0, fk.out0).value ==
      CopyWrites(cmd.dstq, L3, cmd.src, cmd.chunkSize, cmd.batchSize, QuantElementBytes, n);
  }

  /**
   * The RECEIVE_MONO command of the chip test: 32 chunks of the reduce buffer
   * from address 100, each read with repeat 4 and free set, written to L3 from
   * address 500 at the fp16 width, with no time charged by act or mul.  The
   * test leaves `src1_loc` at its default, which must be a valid location.
   */
  lemma MonoScenario(cmd: Command, eb: ElementBytes)
    requires cmd.Receive? && cmd.opcode == "RECEIVE_MONO"
    requires cmd.chunkSize == 128 && cmd.batchSize == 16 && cmd.chunkNum == 32
    requires cmd.dst0 == 500 && cmd.dst0Type == "fp16" && !cmd.dst1Flag
    requires cmd.src0 == 100 && cmd.src0Dtype == "fp32" && cmd.src0Loc == "reduce" && cmd.free0
    requires cmd.redcount == 4 && !cmd.act && !cmd.mul && !cmd.add
    requires cmd.src1Loc == "l3" || cmd.src1Loc == "reduce"
    ensures Execute(cmd, eb).Ok?
    ensures Execute(cmd, eb).value.readLog == seq(32, i => Read(ReduceBuffer, 100 + i, 4, true, 128, 16, 2))
    ensures Execute(cmd, eb).value.writeLog ==
      seq(32, i => Write(500 + i, Chunk(ReduceBuffer, 100 + i), true, 128, 16, eb("fp16")))
    ensures Execute(cmd, eb).value.latency == 0
  {
    ReceiveOutcome(cmd, eb);
    var o := ReceiveSpec(cmd, ReduceBuffer, SourceMemory(cmd.src1Loc).value, eb);
    assert o.readLog == SourceReads(cmd, 0, ReduceBuffer, eb);
    assert o.writeLog == CopyWrites(500, ReduceBuffer, 100, 128, 16, eb("fp16"), 32);
  }
}
