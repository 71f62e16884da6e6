/**
 * The FIFO names the stage handlers of NeutronSim/ReceiveEngine.py look up in
 * the port maps the pipeline graph hands them, checked against the edges the
 * two graphs declare.  A stage's input map is taken to hold exactly the edges
 * that end at it, and its output map exactly the edges that start at it.
 */
module ReceivePorts {
  import opened ReceiveModel

  /** Some edge named `n` ends at stage `s`. */
  predicate HasInput(edges: seq<Edge>, s: StageName, n: FifoName) {
    exists i | 0 <= i < |edges| :: edges[i].target == s && edges[i].name == n
  }

  /** Some edge named `n` starts at stage `s`. */
  predicate HasOutput(edges: seq<Edge>, s: StageName, n: FifoName) {
    exists i | 0 <= i < |edges| :: edges[i].source == s && edges[i].name == n
  }

  /** Some FIFO named `n` carries the output of `from` into `to`, and every FIFO of that name does. */
  predicate Carries(edges: seq<Edge>, n: FifoName, from: StageName, to: StageName) {
    (exists i | 0 <= i < |edges| :: edges[i].source == from && edges[i].target == to && edges[i].name == n) &&
    forall j | 0 <= j < |edges| && edges[j].name == n :: edges[j].source == from && edges[j].target == to
  }

  /** Stage `s` finds each of the input names `ins` and output names `outs` among its FIFOs. */
  predicate StageResolves(edges: seq<Edge>, s: StageName, ins: seq<FifoName>, outs: seq<FifoName>) {
    (forall k | 0 <= k < |ins| :: HasInput(edges, s, ins[k])) &&
    (forall k | 0 <= k < |outs| :: HasOutput(edges, s, outs[k]))
  }

  /** The handlers as the source writes them, or as the graphs' edges mean them. */
  datatype Lookups = AsWritten | Intended

  /** Every name a stage of `t` looks up, under lookups `l` for command `cmd`, is a FIFO the graph gives that stage. */
  predicate PortsResolve(t: Topology, l: Lookups, cmd: Command) {
    forall i | 0 <= i < |t.stages| ::
      StageResolves(t.edges, t.stages[i].name, InputNames(l, cmd, t.stages[i].name), OutputNames(l, cmd, t.stages[i].name))
  }

  /** The input names stage `s` looks up. */
  function InputNames(l: Lookups, cmd: Command, s: StageName): seq<FifoName> {
    if l.AsWritten? then InputsAsWritten(s) else Inputs(cmd, s)
  }

  /** The output names stage `s` looks up. */
  function OutputNames(l: Lookups, cmd: Command, s: StageName): seq<FifoName> {
    if l.AsWritten? then OutputsAsWritten(s) else Outputs(cmd, s)
  }

  /**
   * The input names each handler looks up as written, for either command kind
   * (ReceiveEngine.py:305, 339, 357-358, 392-393, 418).  Handlers look them up
   * before their chunk loop; read DMAs have no input.
   */
  function InputsAsWritten(s: StageName): seq<FifoName> {
    match s
    case ActName => [ToAct]
    case MulQuantName => [ToMulQuant0, ToMulQuant1]
    case AddName => [ToAdd1, ToAdd2]
    case ForkName => [ToFork]
    case WriteDma0Stage => [ToWriteDma0]
    case WriteDma1Stage => [ToWriteDma1]
    case _ => []
  }

  /** The output names a handler looks up as written: only fork names its outputs (ReceiveEngine.py:420-421). */
  function OutputsAsWritten(s: StageName): seq<FifoName> {
    if s == ForkName then [ToWriteDma0, ToWriteDma1] else []
  }

  /**
   * The input names each handler should look up, primary input first: the
   * stream `Execute` feeds it as its first argument.  A Quant command's
   * mul/quant stage has one input and its fork one output.
   */
  function Inputs(cmd: Command, s: StageName): seq<FifoName> {
    match s
    case ActName => [ToAct]
    case MulQuantName => if cmd.Receive? then [ToMulQuant1, ToMulQuant0] else [ToMulQuant0]
    case AddName => [ToAdd0, ToAdd1]
    case ForkName => [ToFork]
    case WriteDma0Stage => [ToWriteDma0]
    case WriteDma1Stage => [ToWriteDma1]
    case _ => []
  }

  /** The output names fork should look up: both write DMAs for Receive, one for Quant. */
  function Outputs(cmd: Command, s: StageName): seq<FifoName> {
    if s != ForkName then []
    else if cmd.Receive? then [ToWriteDma0, ToWriteDma1]
    else [ToWriteDma0]
  }

  /** The Receive graph names no FIFO `to_add_2`. */
  lemma ReceiveLacksAdd2()
    ensures forall j | 0 <= j < |ReceiveEdges| :: ReceiveEdges[j].name != ToAdd2
  {
  }

  /** The Quant graph names no FIFO `to_mul_quant_1` and none `to_write_dma_1`. */
  lemma QuantLacksSecondPorts()
    ensures forall j | 0 <= j < |QuantEdges| :: QuantEdges[j].name != ToMulQuant1 && QuantEdges[j].name != ToWriteDma1
  {
  }

  /** As written the Receive add stage asks for `to_add_2`, which no edge carries. */
  lemma ReceivePortsAsWritten(cmd: Command, mem0: Memory, mem1: Memory)
    ensures !PortsResolve(ReceiveGraph(mem0, mem1), AsWritten, cmd)
  {
    ReceiveLacksAdd2();
    var r := ReceiveGraph(mem0, mem1);
    assert r.stages[5].name == AddName && InputNames(AsWritten, cmd, AddName)[1] == ToAdd2;
    assert !HasInput(r.edges, AddName, ToAdd2);
  }

  /**
   * As written the Quant mul/quant stage asks for `to_mul_quant_1`, and its
   * fork for `to_write_dma_1`; the Quant graph carries neither.
   */
  lemma QuantPortsAsWritten(cmd: Command)
    ensures !PortsResolve(QuantGraph(), AsWritten, cmd)
    ensures !HasOutput(QuantEdges, ForkName, OutputsAsWritten(ForkName)[1])
  {
    QuantLacksSecondPorts();
    var q := QuantGraph();
    assert q.stages[1].name == MulQuantName && InputNames(AsWritten, cmd, MulQuantName)[1] == ToMulQuant1;
    assert !HasInput(q.edges, MulQuantName, ToMulQuant1);
  }

  /**
   * As written, in the Receive graph the FIFO mul/quant reads as its activated
   * input (its first lookup) carries read DMA 1's stream, not act's, and the
   * one add reads as mul/quant's output carries read DMA a's.
   */
  lemma ReceiveInputsSwapped()
    ensures Carries(ReceiveEdges, InputsAsWritten(MulQuantName)[0], ReadDma1Stage, MulQuantName)
    ensures Carries(ReceiveEdges, InputsAsWritten(AddName)[0], ReadDmaAStage, AddName)
  {
    ReceiveNamesDistinct();
    CarriesAt(ReceiveEdges, 1);
    CarriesAt(ReceiveEdges, 4);
  }

  /** An edge whose name no other edge shares is the one FIFO of that name. */
  lemma CarriesAt(edges: seq<Edge>, i: int)
    requires 0 <= i < |edges|
    requires forall j | 0 <= j < |edges| && j != i :: edges[j].name != edges[i].name
    ensures Carries(edges, edges[i].name, edges[i].source, edges[i].target)
  {
  }

  /** No two FIFOs of the Receive graph share a name. */
  lemma ReceiveNamesDistinct()
    ensures forall i, j | 0 <= i < |ReceiveEdges| && 0 <= j < |ReceiveEdges| && j != i ::
      ReceiveEdges[j].name != ReceiveEdges[i].name
  {
  }

  /**
   * In the Receive graph each intended lookup of act and mul/quant names the
   * one FIFO from the stage `Execute` takes that stream from: act from read
   * DMA 0; mul/quant from act, then read DMA 1.
   */
  lemma ReceiveWiringFront(cmd: Command)
    requires cmd.Receive?
    ensures Carries(ReceiveEdges, Inputs(cmd, ActName)[0], ReadDma0Stage, ActName)
    ensures Carries(ReceiveEdges, Inputs(cmd, MulQuantName)[0], ActName, MulQuantName)
    ensures Carries(ReceiveEdges, Inputs(cmd, MulQuantName)[1], ReadDma1Stage, MulQuantName)
  {
    ReceiveNamesDistinct();
    CarriesAt(ReceiveEdges, 0);
    CarriesAt(ReceiveEdges, 2);
    CarriesAt(ReceiveEdges, 1);
  }

  /**
   * In the Receive graph add reads mul/quant's stream, then read DMA a's; fork
   * reads add's; each write DMA reads fork's.
   */
  lemma ReceiveWiringBack(cmd: Command)
    requires cmd.Receive?
    ensures Carries(ReceiveEdges, Inputs(cmd, AddName)[0], MulQuantName, AddName)
    ensures Carries(ReceiveEdges, Inputs(cmd, AddName)[1], ReadDmaAStage, AddName)
    ensures Carries(ReceiveEdges, Inputs(cmd, ForkName)[0], AddName, ForkName)
    ensures Carries(ReceiveEdges, Inputs(cmd, WriteDma0Stage)[0], ForkName, WriteDma0Stage)
    ensures Carries(ReceiveEdges, Inputs(cmd, WriteDma1Stage)[0], ForkName, WriteDma1Stage)
  {
    ReceiveNamesDistinct();
    CarriesAt(ReceiveEdges, 3);
    CarriesAt(ReceiveEdges, 4);
    CarriesAt(ReceiveEdges, 5);
    CarriesAt(ReceiveEdges, 6);
    CarriesAt(ReceiveEdges, 7);
  }

  /**
   * In the Quant graph mul/quant reads read DMA 0's stream, fork reads
   * mul/quant's and write DMA 0 reads fork's.
   */
  lemma QuantWiring(cmd: Command)
    requires cmd.Quant?
    ensures Carries(QuantEdges, Inputs(cmd, MulQuantName)[0], ReadDma0Stage, MulQuantName)
    ensures Carries(QuantEdges, Inputs(cmd, ForkName)[0], MulQuantName, ForkName)
    ensures Carries(QuantEdges, Inputs(cmd, WriteDma0Stage)[0], ForkName, WriteDma0Stage)
  {
    var e := QuantEdges;
    assert e[0].name == ToMulQuant0 && e[1].name == ToFork && e[2].name == ToWriteDma0;
  }

  /** With the intended lookups the Receive graph's stage `s` finds its FIFOs. */
  lemma ReceiveStageResolves(cmd: Command, s: StageName)
    requires cmd.Receive?
    ensures StageResolves(ReceiveEdges, s, Inputs(cmd, s), Outputs(cmd, s))
  {
    var e := ReceiveEdges;
    match s
    case ActName => assert e[0].target == ActName && e[0].name == ToAct;
    case MulQuantName =>
      assert e[2].target == MulQuantName && e[2].name == ToMulQuant1;
      assert e[1].target == MulQuantName && e[1].name == ToMulQuant0;
    case AddName =>
      assert e[3].target == AddName && e[3].name == ToAdd0;
      assert e[4].target == AddName && e[4].name == ToAdd1;
    case ForkName =>
      assert e[5].target == ForkName && e[5].name == ToFork;
      assert e[6].source == ForkName && e[6].name == ToWriteDma0;
      assert e[7].source == ForkName && e[7].name == ToWriteDma1;
    case WriteDma0Stage => assert e[6].target == WriteDma0Stage && e[6].name == ToWriteDma0;
    case WriteDma1Stage => assert e[7].target == WriteDma1Stage && e[7].name == ToWriteDma1;
    case _ =>
  }

  /** With the intended lookups the Quant graph's stage `s` finds its FIFOs. */
  lemma QuantStageResolves(cmd: Command, s: StageName)
    requires cmd.Quant? && s in {ReadDma0Stage, MulQuantName, ForkName, WriteDma0Stage}
    ensures StageResolves(QuantEdges, s, Inputs(cmd, s), Outputs(cmd, s))
  {
    var e := QuantEdges;
    match s
    case MulQuantName => assert e[0].target == MulQuantName && e[0].name == ToMulQuant0;
    case ForkName =>
      assert e[1].target == ForkName && e[1].name == ToFork;
      assert e[2].source == ForkName && e[2].name == ToWriteDma0;
    case WriteDma0Stage => assert e[2].target == WriteDma0Stage && e[2].name == ToWriteDma0;
    case _ =>
  }

  /** With the intended lookups every stage of the Receive graph finds its FIFOs. */
  lemma ReceivePortsResolve(cmd: Command, mem0: Memory, mem1: Memory)
    requires cmd.Receive?
    ensures PortsResolve(ReceiveGraph(mem0, mem1), Intended, cmd)
  {
    var t := ReceiveGraph(mem0, mem1);
    forall i | 0 <= i < |t.stages|
      ensures StageResolves(t.edges, t.stages[i].name, Inputs(cmd, t.stages[i].name), Outputs(cmd, t.stages[i].name))
    {
      ReceiveStageResolves(cmd, t.stages[i].name);
    }
  }

  /** With the intended lookups every stage of the Quant graph finds its FIFOs. */
  lemma QuantPortsResolve(cmd: Command)
    requires cmd.Quant?
    ensures PortsResolve(QuantGraph(), Intended, cmd)
  {
    var t := QuantGraph();
    forall i | 0 <= i < |t.stages|
      ensures StageResolves(t.edges, t.stages[i].name, Inputs(cmd, t.stages[i].name), Outputs(cmd, t.stages[i].name))
    {
      QuantStageResolves(cmd, t.stages[i].name);
    }
  }

  /**
   * With the intended lookups every handler finds its FIFOs in the graph its
   * command selects, and the primary input of mul/quant and of the stage after
   * it is the FIFO from the stage `Execute` takes that stream from.
   */
  lemma PortsIntended(cmd: Command)
    requires SelectTopology(cmd).Ok?
    ensures PortsResolve(SelectTopology(cmd).value, Intended, cmd)
    ensures cmd.Receive? ==>
      Carries(SelectTopology(cmd).value.edges, Inputs(cmd, MulQuantName)[0], ActName, MulQuantName) &&
      Carries(SelectTopology(cmd).value.edges, Inputs(cmd, AddName)[0], MulQuantName, AddName)
    ensures cmd.Quant? ==>
      Carries(SelectTopology(cmd).value.edges, Inputs(cmd, MulQuantName)[0], ReadDma0Stage, MulQuantName) &&
      Carries(SelectTopology(cmd).value.edges, Inputs(cmd, ForkName)[0], MulQuantName, ForkName)
  {
    if cmd.Receive? {
      var mem0, mem1 := SourceMemory(cmd.src0Loc).value, SourceMemory(cmd.src1Loc).value;
      assert SelectTopology(cmd).value == ReceiveGraph(mem0, mem1);
      ReceivePortsResolve(cmd, mem0, mem1);
      ReceiveWiringFront(cmd);
      ReceiveWiringBack(cmd);
    } else {
      QuantPortsResolve(cmd);
      QuantWiring(cmd);
    }
  }
}
