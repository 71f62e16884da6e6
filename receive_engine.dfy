/**
 * The receive engine of NeutronSim/ReceiveEngine.py as an object: the command
 * being executed is a field, each stage handler is a method whose chunk loop
 * reads its input streams and builds its output streams, and `RunCommand`
 * builds the command's graph and runs its stages in the order of its edges.
 * Every handler is proved to compute its stage function of receive_model.dfy.
 */
module ReceivePipeline {
  import opened Wrappers
  import opened ReceiveModel

  class ReceiveEngine {
    /** `current_command`: set while a command's pipeline runs. */
    var currentCommand: Option<Command>

    constructor()
      ensures currentCommand == None
    {
      currentCommand := None;
    }

    /** `l3_read_dma_handler` for read DMA `id`. */
    method L3ReadDmaHandler(id: int, eb: ElementBytes) returns (r: Result<ReadOut, Fault>)
      requires currentCommand.Some?
      ensures r == L3Read(currentCommand.value, id, eb)
    {
      var cmd := currentCommand.value;
      var active :- ReadDmaInUse(cmd, id);
      if !active {
        return Ok(ReadOut([], []));
      }
      var src := ReadSource(cmd, id);
      var log: seq<Read> := [];
      var packets: seq<Packet> := [];
      for i := 0 to cmd.chunkNum
        invariant |log| == i && |packets| == i
        invariant forall k :: 0 <= k < i ==>
          log[k] == Read(L3, src + k, 1, L3ReadFree(cmd, id), cmd.chunkSize, cmd.batchSize, eb(L3ReadDtype(cmd, id)))
        invariant forall k :: 0 <= k < i ==> packets[k] == Delivered(log[k])
      {
        var free := L3ReadFree(cmd, id);
        var elementBytes := eb(L3ReadDtype(cmd, id));
        var rd := Read(L3, src + i, 1, free, cmd.chunkSize, cmd.batchSize, elementBytes);
        log := log + [rd];
        packets := packets + [Delivered(rd)];
      }
      assert ReadOut(log, packets) == ReadRun(L3, src, 1, L3ReadFree(cmd, id), cmd.chunkSize, cmd.batchSize,
                                             eb(L3ReadDtype(cmd, id)), cmd.chunkNum);
      return Ok(ReadOut(log, packets));
    }

    /** `reduce_read_dma_handler` for read DMA `id`. */
    method ReduceReadDmaHandler(id: int) returns (r: Result<ReadOut, Fault>)
      requires currentCommand.Some?
      ensures r == ReduceRead(currentCommand.value, id)
    {
      var cmd := currentCommand.value;
      var active :- ReadDmaInUse(cmd, id);
      if !active {
        return Ok(ReadOut([], []));
      }
      if cmd.Quant? {
        return Err(NotReceive);
      }
      var src := ReadSource(cmd, id);
      var log: seq<Read> := [];
      var packets: seq<Packet> := [];
      for i := 0 to cmd.chunkNum
        invariant |log| == i && |packets| == i
        invariant forall k :: 0 <= k < i ==>
          log[k] == Read(ReduceBuffer, src + k, cmd.redcount, if id == 0 then cmd.free0 else cmd.free1,
                         cmd.chunkSize, cmd.batchSize, ReduceElementBytes)
        invariant forall k :: 0 <= k < i ==> packets[k] == Delivered(log[k])
      {
        var free := if id == 0 then cmd.free0 else cmd.free1;
        var rd := Read(ReduceBuffer, src + i, cmd.redcount, free, cmd.chunkSize, cmd.batchSize, ReduceElementBytes);
        log := log + [rd];
        packets := packets + [Delivered(rd)];
      }
      assert ReadOut(log, packets) == ReadRun(ReduceBuffer, src, cmd.redcount, if id == 0 then cmd.free0 else cmd.free1,
                                             cmd.chunkSize, cmd.batchSize, ReduceElementBytes, cmd.chunkNum);
      return Ok(ReadOut(log, packets));
    }

    /** The read handler a graph registers for memory `mem`. */
    method ReadDmaHandler(mem: Memory, id: int, eb: ElementBytes) returns (r: Result<ReadOut, Fault>)
      requires currentCommand.Some?
      ensures r == ReadFrom(mem, currentCommand.value, id, eb)
    {
      if mem == L3 {
        r := L3ReadDmaHandler(id, eb);
      } else {
        r := ReduceReadDmaHandler(id);
      }
    }

    /** `act_handler`. */
    method ActHandler(input: seq<Packet>) returns (r: Result<StageOut, Fault>)
      requires currentCommand.Some?
      ensures r == Act(currentCommand.value, input)
    {
      var cmd := currentCommand.value;
      var out: seq<Packet> := [];
      var latency: nat := 0;
      for i := 0 to cmd.chunkNum
        invariant i <= |input|
        invariant out == input[..i]
        invariant latency == if cmd.Receive? && cmd.act then ChunkLatency * i else 0
        invariant 0 < i ==> cmd.Receive?
      {
        if |input| <= i {
          return Err(Blocked);
        }
        var packet := input[i];
        if cmd.Quant? {
          return Err(NotReceive);
        }
        if cmd.act {
          latency := latency + ChunkLatency;
        }
        out := out + [packet];
      }
      return Ok(StageOut(out, latency));
    }

    /** `mul_quant_handler`; `primary` is the activated (Receive) or read DMA 0 (Quant) stream. */
    method MulQuantHandler(primary: seq<Packet>, secondary: seq<Packet>) returns (r: Result<StageOut, Fault>)
      requires currentCommand.Some?
      ensures r == MulQuant(currentCommand.value, primary, secondary)
    {
      var cmd := currentCommand.value;
      var out: seq<Packet> := [];
      var latency: nat := 0;
      for i := 0 to cmd.chunkNum
        invariant i <= |primary|
        invariant cmd.Receive? && cmd.mul ==> i <= |secondary|
        invariant cmd.Receive? ==> out == primary[..i]
        invariant cmd.Quant? ==> out == Retyped(primary[..i], QuantElementBytes)
        invariant latency == if cmd.Receive? && cmd.mul then ChunkLatency * i else 0
      {
        var packet;
        if cmd.Receive? {
          if cmd.mul {
            if |primary| <= i || |secondary| <= i {
              return Err(Blocked);
            }
            packet := primary[i];
            latency := latency + ChunkLatency;
          } else {
            if |primary| <= i {
              return Err(Blocked);
            }
            packet := primary[i];
          }
        } else {
          if |primary| <= i {
            return Err(Blocked);
          }
          packet := primary[i].WithElementBytes(QuantElementBytes);
          assert Retyped(primary[..i + 1], QuantElementBytes) == Retyped(primary[..i], QuantElementBytes) + [packet];
        }
        out := out + [packet];
      }
      return Ok(StageOut(out, latency));
    }

    /** `add_handler`; `primary` is the mul/quant stream, `secondary` the addend stream. */
    method AddHandler(primary: seq<Packet>, secondary: seq<Packet>) returns (r: Result<StageOut, Fault>)
      requires currentCommand.Some?
      ensures r == Add(currentCommand.value, primary, secondary)
    {
      var cmd := currentCommand.value;
      var out: seq<Packet> := [];
      for i := 0 to cmd.chunkNum
        invariant i <= |primary|
        invariant cmd.Receive? && cmd.add ==> i <= |secondary|
        invariant out == primary[..i]
      {
        if cmd.Receive? && cmd.add {
          if |primary| <= i || |secondary| <= i {
            return Err(Blocked);
          }
        } else if |primary| <= i {
          return Err(Blocked);
        }
        out := out + [primary[i]];
      }
      return Ok(StageOut(out, 0));
    }

    /** `fork_handler`. */
    method ForkHandler(input: seq<Packet>, eb: ElementBytes) returns (r: Result<ForkOut, Fault>)
      requires currentCommand.Some?
      ensures r == Fork(currentCommand.value, input, eb)
    {
      var cmd := currentCommand.value;
      var out0: seq<Packet> := [];
      var out1: seq<Packet> := [];
      for i := 0 to cmd.chunkNum
        invariant i <= |input|
        invariant cmd.Quant? ==> out0 == input[..i] && out1 == []
        invariant cmd.Receive? ==> out0 == Retyped(input[..i], eb(cmd.dst0Type))
        invariant cmd.Receive? ==> out1 == if cmd.dst1Flag then Retyped(input[..i], eb(cmd.dst1Type)) else []
      {
        if |input| <= i {
          return Err(Blocked);
        }
        var packet := input[i];
        if cmd.Receive? {
          var packet0 := packet.WithElementBytes(eb(cmd.dst0Type));
          assert Retyped(input[..i + 1], eb(cmd.dst0Type)) == Retyped(input[..i], eb(cmd.dst0Type)) + [packet0];
          if cmd.dst1Flag {
            var packet1 := packet.WithElementBytes(eb(cmd.dst1Type));
            assert Retyped(input[..i + 1], eb(cmd.dst1Type)) == Retyped(input[..i], eb(cmd.dst1Type)) + [packet1];
            out1 := out1 + [packet1];
          }
          out0 := out0 + [packet0];
        } else {
          out0 := out0 + [packet];
        }
      }
      return Ok(ForkOut(out0, out1));
    }

    /** `l3_write_dma_handler` for write DMA `id`. */
    method WriteDmaHandler(id: int, input: seq<Packet>) returns (r: Result<seq<Write>, Fault>)
      requires currentCommand.Some?
      ensures r == WriteDma(currentCommand.value, id, input)
    {
      var cmd := currentCommand.value;
      var active :- WriteDmaInUse(cmd, id);
      if !active {
        return Ok([]);
      }
      var writeAddr := 0;
      if cmd.Receive? {
        if id == 0 {
          writeAddr := cmd.dst0;
        } else if id == 1 {
          writeAddr := cmd.dst1;
        }
      } else {
        writeAddr := cmd.dstq;
      }
      assert writeAddr == WriteAddr(cmd, id);
      var log: seq<Write> := [];
      for i := 0 to cmd.chunkNum
        invariant i <= |input|
        invariant |log| == i
        invariant forall k :: 0 <= k < i ==> log[k] == WriteOf(writeAddr + k, input[k])
      {
        if |input| <= i {
          return Err(Blocked);
        }
        var packet := input[i];
        log := log + [Write(writeAddr + i, packet.payload, true, packet.numElements, packet.batchSize, packet.elementBytes)];
      }
      assert log == WriteDma(cmd, id, input).value;
      return Ok(log);
    }

    /** The stages of the Receive graph, run along its edges. */
    method RunReceiveGraph(mem0: Memory, mem1: Memory, eb: ElementBytes) returns (r: Result<Outcome, Fault>)
      requires currentCommand.Some? && currentCommand.value.Receive?
      ensures r == ExecuteReceive(currentCommand.value, mem0, mem1, eb)
    {
      var read0 := ReadDmaHandler(mem0, 0, eb);
      var read1 := ReadDmaHandler(mem1, 1, eb);
      var readA := L3ReadDmaHandler(2, eb);
      var r0, r1, ra := read0.value, read1.value, readA.value;
      var act :- ActHandler(r0.packets);
      var mq :- MulQuantHandler(act.packets, r1.packets);
      var ad :- AddHandler(mq.packets, ra.packets);
      var fk :- ForkHandler(ad.packets, eb);
      var w0 :- WriteDmaHandler(0, fk.out0);
      var w1 :- WriteDmaHandler(1, fk.out1);
      return Ok(Outcome(r0.log + r1.log + ra.log, w0 + w1, act.latency + mq.latency));
    }

    /** The stages of the Quant graph, run along its edges. */
    method RunQuantGraph(eb: ElementBytes) returns (r: Result<Outcome, Fault>)
      requires currentCommand.Some?
      ensures r == ExecuteQuant(currentCommand.value, eb)
    {
      var read0 := L3ReadDmaHandler(0, eb);
      var r0 := read0.value;
      var mq :- MulQuantHandler(r0.packets, []);
      var fk :- ForkHandler(mq.packets, eb);
      var w0 :- WriteDmaHandler(0, fk.out0);
      return Ok(Outcome(r0.log, w0, mq.latency));
    }

    /**
     * One command of `process`: make it current, build its graph, run the
     * stages along the graph's edges, and clear it once the graph finishes.  A
     * failure leaves the command current, as the exception does in the source.
     */
    method RunCommand(cmd: Command, eb: ElementBytes) returns (r: Result<Outcome, Fault>)
      modifies this
      ensures r == Execute(cmd, eb)
      ensures currentCommand == if r.Ok? then None else Some(cmd)
    {
      currentCommand := Some(cmd);
      var topo :- SelectTopology(cmd);
      if cmd.Receive? {
        r := RunReceiveGraph(topo.stages[0].handler.mem, topo.stages[1].handler.mem, eb);
      } else {
        r := RunQuantGraph(eb);
      }
      if r.Ok? {
        currentCommand := None;
      }
    }
  }
}
