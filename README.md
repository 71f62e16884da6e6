# NeutronSim atom arbiter and receive engine, modelled in Dafny

This project models two parts of the NeutronSim chip simulator.

**The atom resource arbiter** (`NeutronSim/Atom.py`, with an older copy of the same algorithm in
`NeutronSim/AtomManager.py`).
- Engines submit acquire and release requests. Each names a list of atom ids and a resource type,
  `link` or `compute`. Each atom keeps, for each resource type, a FIFO of requests and a current holder.
- One arbitration pass runs in a fixed order:
  1. it applies every pending release;
  2. it registers every pending acquire on the waiting list and at the tail of each named atom's FIFO;
  3. it scans the waiting list in arrival order, granting a request only when every atom it names has
     the resource free and the request at the head of its FIFO;
  4. it removes the granted requests from the waiting list.
- The model has three modules:
  - `AtomState`: the data, and the pass as a fold of pure functions (`PassSpec`);
  - `AtomProofs`: what a pass guarantees — exclusivity, all-or-nothing grants, no preemption, FIFO
    fairness per atom, conservation of requests, notifications and progress;
  - `Atom`: the class `AtomManager`, whose fields are the source's deques and atom dictionary and whose
    methods are the source's loops. Each method is proved equal to the pure pass.
- Each request gets its arrival index as its identity (`Ticket`).
- "In use" is the holder being present: `AtomInstance.LinkInUse` / `ComputeInUse`
  (Atom.py:40-44, AtomManager.py:23-27).

**The receive engine** (`NeutronSim/ReceiveEngine.py`).
- A command is `Receive` or `Quant`.
- `ReceiveModel` holds:
  - the read and write DMA activation checks;
  - the two pipeline graphs `process` builds;
  - every stage handler, as a function over whole packet streams;
  - their composition (`Execute`) into the read log, the write log and the charged latency.
- `ReceivePipeline.ReceiveEngine` is the engine object. `currentCommand` is a field, every handler is
  a method with the source's chunk loop, proved to compute its stage function, and `RunCommand`
  composes the handlers.
- `ReceiveProofs` states:
  - the activation rules;
  - the shape of both graphs and that they are acyclic;
  - the per-stage transformations;
  - the end-to-end effect of a command, and when it blocks or fails.
- `ReceivePorts` checks the FIFO names the handlers look up against the edges the graphs declare.
- Packet payloads are abstracted as the (memory, address) of the read that produced them.
- A stage whose input stream is too short is `Err(Blocked)`: the pipeline would never finish.
- `element_bytes_dict` is a function parameter `eb`.

## Model

| member | source | states |
|---|---|---|
| AtomState.ClearHolders | NeutronSim/Atom.py:86-90 | every named atom's holder of the request's type becomes empty; every other atom, every FIFO and the other type are unchanged; a typeless release changes nothing |
| AtomState.ApplyReleases | NeutronSim/Atom.py:85-90 | after a batch of releases, a holder is empty exactly when some release of the batch named that atom and type, otherwise it is as before; FIFOs are untouched |
| AtomState.RegisterTickets | NeutronSim/Atom.py:93-99 | each registered acquire lands exactly once, in arrival order, at the tail of the matching FIFO of each atom it names; holders are untouched |
| AtomState.MakeTickets | NeutronSim/Atom.py:93-94 | a batch of acquires gets consecutive arrival ids from the counter, keeping each request's type and ids; a ticket is well formed exactly when its request is |
| AtomState.Grant | NeutronSim/Atom.py:122-131 | granting sets every named atom's holder to the request, and that atom's FIFO loses exactly its head; other atoms and the other type are unchanged |
| AtomState.Without | NeutronSim/Atom.py:136-137 | the waiting list after removal holds exactly the waiting tickets that were not issued, in their original order |
| AtomState.IndexOf | NeutronSim/Atom.py:137 | the position `deque.remove` deletes: the first occurrence of the element |
| AtomProofs.ScanQueues | NeutronSim/Atom.py:102-131 | during the scan, each atom's FIFO is the projection of the tickets still waiting: those not issued so far, then those not yet reached |
| AtomProofs.ScanHolders | NeutronSim/Atom.py:108-131 | a holder changes during the scan only from empty, and only to a ticket the scan issued that names that atom and type; every issued ticket still holds all its atoms when the scan ends |
| AtomProofs.ScanPartition | NeutronSim/Atom.py:102-120 | the issued tickets plus the skipped ones are exactly the waiting list, as a multiset |
| AtomProofs.IssuedAtTurn | NeutronSim/Atom.py:103-119 | a ticket the scan issued passed the issue test against the state at its own turn |
| AtomProofs.WaiterBlocks | NeutronSim/Atom.py:108-116 | a ticket still waiting keeps each later ticket for the same atom and type away from that FIFO's head |
| AtomProofs.ScanFair | NeutronSim/Atom.py:102-131 | FIFO order per atom: if a later ticket for an atom and type is issued, every earlier one for the same atom and type was issued before its turn |
| AtomProofs.WithoutOneMore | NeutronSim/Atom.py:136-137 | each `remove` in the removal loop deletes that ticket from what remains |
| AtomProofs.NotificationsOf | NeutronSim/Atom.py:122-134 | a request is notified exactly when it is granted and names at least one atom |
| AtomProofs.HoldersAfterPass | NeutronSim/Atom.py:122-137 | after a pass, every holder is a request already registered and no longer waiting |
| AtomProofs.PassPreservesInv | NeutronSim/Atom.py:79-137 | every pass keeps the invariant: the waiting list increases, each FIFO is the projection of the waiting list, and holders are issued requests |
| AtomProofs.PassAllOrNothing | NeutronSim/Atom.py:118-131 | a request granted by a pass holds every atom it named, of its type, when the pass ends |
| AtomProofs.PassHolders | NeutronSim/Atom.py:85-131 | no preemption: a holder that no release of the batch cleared keeps its resource, and a resource changes hands only to a request the pass granted that names it |
| AtomProofs.PassFifoFair | NeutronSim/Atom.py:102-131 | grants come in arrival order, and a request is granted only if every earlier request for a shared atom and type was granted too |
| AtomProofs.PassConserves | NeutronSim/Atom.py:102-137 | a pass loses and invents no request: granted plus still waiting is exactly what was scanned |
| AtomProofs.PassNotifies | NeutronSim/Atom.py:134 | the pass notifies a request exactly when it grants it and it names some atom |
| AtomProofs.PassGrantsUncontended | NeutronSim/Atom.py:102-131 | progress: a waiting request is granted in this pass when all its atoms are free after the releases and no earlier waiter competes for them |
| AtomProofs.RegisteredFacts | NeutronSim/AtomManager.py:65-79 | after the releases and registrations, each FIFO is the projection of the waiting list, and a holder is cleared exactly when a release named it |
| Atom.AtomManager.constructor | NeutronSim/Atom.py:62-77 | an arbiter over the given atoms, all idle, with nothing pending or waiting |
| Atom.AtomManager.HandleAcquireRequest | NeutronSim/Atom.py:141-147 | accepted exactly when the access type is `acquire` and the finish event is present; an accepted request is appended to the pending acquires, and nothing else changes |
| Atom.AtomManager.HandleReleaseRequest | NeutronSim/Atom.py:149-153 | accepted exactly when the access type is `release`; an accepted request is appended to the pending releases, and nothing else changes |
| Atom.AtomManager.GetAtomInstance | NeutronSim/Atom.py:156-157 | the atom under the id, present exactly when the dictionary has that key |
| Atom.AtomManager.ReleaseOne | NeutronSim/Atom.py:86-90 | the table after one release is `ClearHolders` of the old table; nothing else changes |
| Atom.AtomManager.ProcessReleases | NeutronSim/Atom.py:85-90 | the release loop yields `ApplyReleases` of the old table |
| Atom.AtomManager.RegisterOne | NeutronSim/Atom.py:95-99 | appending to the FIFOs yields `RegisterTicket` of the old table |
| Atom.AtomManager.RegisterAcquire | NeutronSim/Atom.py:94-99 | one acquire gets the next id, joins the end of the waiting list and is registered on its FIFOs |
| Atom.AtomManager.RegisterAcquires | NeutronSim/Atom.py:93-99 | the registration loop yields `RegisterTickets` of the old table and appends the batch's tickets to the waiting list |
| Atom.AtomManager.CheckIssue | NeutronSim/Atom.py:104-116 | the atom-by-atom test with early `break` returns exactly `CanIssue` (free, and at the head of that atom's own FIFO) |
| Atom.AtomManager.GrantTicket | NeutronSim/Atom.py:122-134 | the grant loop yields `Grant` of the old table and one notification per named id |
| Atom.AtomManager.IssueWaiting | NeutronSim/Atom.py:102-134 | the scan loop yields the table and issue list of `Scan`, and the notifications of the issued requests |
| Atom.AtomManager.RemoveIssued | NeutronSim/Atom.py:136-137 | the removal loop leaves `Without(waiting, issued)` |
| Atom.AtomManager.Pass | NeutronSim/Atom.py:79-137 | one pass computes exactly `PassSpec` of the old state and keeps the invariant |
| Atom.AtomManager.Process | NeutronSim/Atom.py:79-137 | the pass over both pending lists, consuming them |
| Atom.AtomManager.ProcessAsWritten | NeutronSim/Atom.py:79-137 | the pass as written: the same pass, but both pending lists are left as they were |
| AtomFindings.CanIssueAsWritten | NeutronSim/Atom.py:105-116 | the test as written succeeds only for a request with no type or no atom; it raises exactly when the first named atom is free |
| AtomFindings.FirstRequestAsWritten | NeutronSim/Atom.py:105-116 | on a fresh atom, the first link request raises in the test as written, while the intended pass grants it |
| AtomFindings.FirstPassState | NeutronSim/Atom.py:79-137 | after that first pass nothing is waiting, the next id is 1 and the invariant holds |
| AtomFindings.PendingReplayedAsWritten | NeutronSim/Atom.py:85-99 | if the pending list is not cleared, the next pass registers the already granted request again under a new id and grants it a second time |
| ReceiveModel.ReadDmaInUse | NeutronSim/ReceiveEngine.py:142-153 | read DMA ids other than 0, 1 and 2 are an error |
| ReceiveModel.WriteDmaInUse | NeutronSim/ReceiveEngine.py:155-165 | write DMA ids other than 0 and 1 are an error |
| ReceiveModel.L3Read | NeutronSim/ReceiveEngine.py:227-294 | the L3 read DMA fails exactly on a bad DMA id |
| ReceiveModel.ReduceRead | NeutronSim/ReceiveEngine.py:169-223 | the reduce read DMA fails exactly on a bad id, or on an active DMA under a Quant command |
| ReceiveModel.ReadFrom | NeutronSim/ReceiveEngine.py:63-88 | the read handler a source location selects cannot fail for a Receive command and DMA 0-2 |
| ReceiveModel.SourceMemory | NeutronSim/ReceiveEngine.py:64-78 | a source location is valid exactly when it is 'l3' or 'reduce'; any other is the `assert False` error |
| ReceiveModel.SelectTopology | NeutronSim/ReceiveEngine.py:63-129 | the Receive graph has 9 stages and the Quant graph 4; the first stages are read handlers |
| ReceiveProofs.ActivationNested | NeutronSim/ReceiveEngine.py:142-165 | read and write DMA 0 always run; read DMA 2 only with DMA 1; Quant and RECEIVE_MONO use only DMA 0; write DMA 1 runs exactly for Receive with `dst1_flag` |
| ReceiveProofs.InactiveDmaSilent | NeutronSim/ReceiveEngine.py:177-178 | an inactive DMA reads, writes and sends nothing, and a bad id is an error in every handler (also lines 232-233 and 299-300) |
| ReceiveProofs.ActiveReadLog | NeutronSim/ReceiveEngine.py:194-217 | an active read DMA issues `chunk_num` reads at `src+i` (L3 with repeat 1, reduce with `redcount` and 2-byte width) and sends one packet per read, in order (also lines 247-289) |
| ReceiveProofs.AddendReadFailsAsWritten | NeutronSim/ReceiveEngine.py:249-250 | as written, read DMA 2 of RECEIVE_TRI with at least one chunk raises KeyError; the intended stage reads the addend chunks |
| ReceiveProofs.L3ReadAsWrittenElsewhere | NeutronSim/ReceiveEngine.py:247-289 | outside that case the as-written L3 read equals the intended one |
| ReceiveProofs.QuantRewraps | NeutronSim/ReceiveEngine.py:373-380 | quantisation keeps each chunk's payload, element count and batch size, sets its width to 1, and charges nothing |
| ReceiveProofs.ComputeForwards | NeutronSim/ReceiveEngine.py:340-351 | for Receive, act, mul and add forward the primary stream unchanged; mul and add complete exactly when their flagged second input has `chunk_num` packets (also lines 360-371 and 394-402) |
| ReceiveProofs.ForkWidths | NeutronSim/ReceiveEngine.py:423-446 | fork sends each chunk to write 0 at the `dst0_type` width, and to write 1 at the `dst1_type` width exactly when `dst1_flag` is set |
| ReceiveProofs.WriteLog | NeutronSim/ReceiveEngine.py:307-329 | an active write DMA stores packet i at `dst+i` with free set and the packet's shape; `dst` is dst0/dst1, or dstq for Quant |
| ReceiveProofs.TopologyShape | NeutronSim/ReceiveEngine.py:63-129 | Receive: 9 stages, 8 capacity-1 edges, sinks write 0 and write 1; Quant: 4 stages, 3 edges, sink write 0; only a bad Receive source location fails |
| ReceiveProofs.TopologyOrdered | NeutronSim/ReceiveEngine.py:89-129 | both graphs list their stages in an order every edge follows, and no edge leaves a sink |
| ReceiveProofs.PathGoesForward | NeutronSim/ReceiveEngine.py:99-106 | along any path of a forward graph, stage ranks strictly increase |
| ReceiveProofs.TopologyAcyclic | NeutronSim/ReceiveEngine.py:99-126 | neither graph has a cycle |
| ReceiveProofs.ForkedWrites | NeutronSim/ReceiveEngine.py:416-449 | fork and the write DMAs copy the source stream to both destinations |
| ReceiveProofs.ReceiveStreams | NeutronSim/ReceiveEngine.py:63-109 | a Receive pipeline whose stages all have their inputs yields `ReceiveSpec` (which counts `chunk_num` reads even for a source no stage consumes; see "## Left out") |
| ReceiveProofs.ReceiveOutcome | NeutronSim/ReceiveEngine.py:63-109 | a completing Receive command reads each active source `chunk_num` times (an unconsumed source reads fewer in the source; see "## Left out"), writes chunk `src0+i` to `dst0+i` (and to `dst1+i` when flagged), and charges act and mul time only |
| ReceiveProofs.ReceiveBlocks | NeutronSim/ReceiveEngine.py:360-402 | a Receive command with chunks whose enabled mul or add stage has no second source never completes |
| ReceiveProofs.ReceiveBadLocation | NeutronSim/ReceiveEngine.py:64-78 | a bad Receive source location fails before anything runs |
| ReceiveProofs.ReceiveCompletes | NeutronSim/ReceiveEngine.py:63-109 | a Receive command completes exactly when its locations are valid and each enabled combining stage has its source; otherwise it fails on the location or blocks |
| ReceiveProofs.QuantOutcome | NeutronSim/ReceiveEngine.py:112-129 | a Quant command always completes, reading `chunk_num` L3 chunks from `src` and writing each, narrowed to int8, to `dstq+i` |
| ReceiveProofs.MonoScenario | test/test_chip.py:112-138 | the chip test's RECEIVE_MONO command: 32 reduce reads from address 100 with repeat 4, written to L3 from 500 at the fp16 width. The test never sets `src1_loc` and its default is not part of this model, so the lemma assumes that default is 'l3' or 'reduce'; otherwise `process` stops at the `assert False` of ReceiveEngine.py:78 even for RECEIVE_MONO |
| ReceivePipeline.ReceiveEngine.constructor | NeutronSim/ReceiveEngine.py:31-45 | a new engine has no current command |
| ReceivePipeline.ReceiveEngine.L3ReadDmaHandler | NeutronSim/ReceiveEngine.py:227-294 | the chunk loop computes `L3Read` for the current command |
| ReceivePipeline.ReceiveEngine.ReduceReadDmaHandler | NeutronSim/ReceiveEngine.py:169-223 | the chunk loop computes `ReduceRead` |
| ReceivePipeline.ReceiveEngine.ReadDmaHandler | NeutronSim/ReceiveEngine.py:66-78 | the read handler chosen by source location computes `ReadFrom` |
| ReceivePipeline.ReceiveEngine.ActHandler | NeutronSim/ReceiveEngine.py:337-353 | the chunk loop computes `Act`: forward, charging 100 per chunk when `act` is set |
| ReceivePipeline.ReceiveEngine.MulQuantHandler | NeutronSim/ReceiveEngine.py:355-388 | the chunk loop computes `MulQuant` |
| ReceivePipeline.ReceiveEngine.AddHandler | NeutronSim/ReceiveEngine.py:390-413 | the chunk loop computes `Add` |
| ReceivePipeline.ReceiveEngine.ForkHandler | NeutronSim/ReceiveEngine.py:416-453 | the chunk loop computes `Fork` |
| ReceivePipeline.ReceiveEngine.WriteDmaHandler | NeutronSim/ReceiveEngine.py:296-332 | the chunk loop computes `WriteDma` |
| ReceivePipeline.ReceiveEngine.RunReceiveGraph | NeutronSim/ReceiveEngine.py:63-109 | running the Receive graph's handlers along its edges computes `ExecuteReceive` |
| ReceivePipeline.ReceiveEngine.RunQuantGraph | NeutronSim/ReceiveEngine.py:112-129 | running the Quant graph's handlers computes `ExecuteQuant` |
| ReceivePipeline.ReceiveEngine.RunCommand | NeutronSim/ReceiveEngine.py:58-137 | one command computes `Execute`; the current command is cleared on completion and stays set on a failure |
| ReceivePorts.ReceivePortsAsWritten | NeutronSim/ReceiveEngine.py:392-393 | as written, the Receive add stage looks up `to_add_2`, which no edge of the graph provides |
| ReceivePorts.QuantPortsAsWritten | NeutronSim/ReceiveEngine.py:357-358 | as written, the Quant mul/quant stage looks up `to_mul_quant_1` and fork looks up `to_write_dma_1` (line 421); the Quant graph has neither |
| ReceivePorts.ReceiveInputsSwapped | NeutronSim/ReceiveEngine.py:100-103 | as written, the FIFO mul/quant reads as the act output carries read DMA 1's stream, and the one add reads as the mul/quant output carries read DMA a's |
| ReceivePorts.ReceiveWiringFront | NeutronSim/ReceiveEngine.py:99-101 | with the intended names, act reads read DMA 0, and mul/quant reads act first and read DMA 1 second, each through a FIFO no other edge shares |
| ReceivePorts.ReceiveWiringBack | NeutronSim/ReceiveEngine.py:102-106 | with the intended names, add reads mul/quant then read DMA a, fork reads add, and each write DMA reads fork |
| ReceivePorts.QuantWiring | NeutronSim/ReceiveEngine.py:124-126 | in the Quant graph, mul/quant reads read DMA 0, fork reads mul/quant, and write 0 reads fork |
| ReceivePorts.ReceivePortsResolve | NeutronSim/ReceiveEngine.py:89-106 | with the intended names, every stage of the Receive graph finds each FIFO it looks up |
| ReceivePorts.QuantPortsResolve | NeutronSim/ReceiveEngine.py:118-126 | with the intended names, every stage of the Quant graph finds each FIFO it looks up |
| ReceivePorts.PortsIntended | NeutronSim/ReceiveEngine.py:63-129 | for either command, the intended lookups resolve, and the primary inputs come from the stages `Execute` takes them from |

## Left out

- Coroutines and time:
  - the Desim scheduler (`SimModule`, `Event`, `SimTime`, FIFOs, `PipeGraph`, `PipeStage`, memory
    ports) is not part of this model;
  - FIFOs are whole streams, memory ports are access logs, and a stage waiting forever is `Blocked`;
  - FIFO capacity and back-pressure, bandwidth timing and absolute times are not modelled. Latency is
    the sum of the per-chunk charges.
- ReceiveProofs.ReceiveOutcome and ReceiveProofs.ReceiveStreams: `ReceiveSpec` logs `chunk_num` reads
  for every active source, including one whose stream no stage consumes: read DMA 1 of RECEIVE_BIN or
  RECEIVE_TRI when `mul` is off (ReceiveEngine.py:368-370), and read DMA a of RECEIVE_TRI when `add` is
  off (ReceiveEngine.py:400-402). In the source every FIFO has capacity 1 (ReceiveEngine.py:100-106),
  so such a DMA performs `min(2, chunk_num)` reads and then blocks forever on its next write, while
  the command still completes because only the write DMAs are sinks (line 109). For `chunk_num >= 3`
  the model's read log therefore holds more reads of that source than the source performs, and with
  its free flag set it releases reduce-buffer entries the source never touches.
- The `process` coroutine loops of both files and their `update_event`/`wait_time` waits are not
  modelled. A pass and a command run to completion.
- `notify` on the finish event is recorded as a list of request ids; the event itself is not modelled.
- `Atom.py:161-236` (`AtomModule`) is not part of this model. It is a semaphore handshake with empty
  stub handlers.
- `AtomManager.py` is the same algorithm as `Atom.py`, and one model covers both.
  - It declares `resources_id: list[int] = []` (line 34), a mutable dataclass default that Python
    refuses when the class is defined. That failure is not modelled.
  - Its holder field is spelled `current_compute_rquest` in both the reads and the writes, so it
    agrees with itself.
- Atom.AtomManager.HandleAcquireRequest:
  - requires the ids to be in the table, and distinct when the request has a type. The source accepts
    anything and fails later, in the pass, with a KeyError or the holder assert (Atom.py:126/130).
  - A failed `assert` in either handler is modelled as `accepted == false` with nothing changed.
- Atom.AtomManager.HandleReleaseRequest: requires a typed release's ids to be in the atom table. The
  source appends any release whose access type is `release` (Atom.py:149-153); one naming a missing
  atom then fails in the next pass with a KeyError at Atom.py:88/90, which the model does not reach.
- Request identity is the arrival index, not the dataclass's structural equality. Two equal requests
  stay distinct, where `==` and `remove` (Atom.py:109, 137) would confuse them.
- The model passes the head-of-line test against the atom's own FIFO. The source's class-attribute read
  and the never-cleared pending lists are under Findings; the rest of the model uses the corrected
  versions.
- `element_bytes_dict` is not defined in the repository's configuration. It is a total function
  parameter, so a missing type never raises KeyError.
- The reduce read DMA is labelled fp32 but passes a width of 2 bytes (ReceiveEngine.py:204, 209). The
  model follows the code: `ReduceElementBytes == 2`.
- `l3_write_dma_helper` has no `return` of its inner handler (ReceiveEngine.py:332), so the graph would
  register `None`. The model uses the handler.
- The handlers' FIFO names as written are modelled in `ReceivePorts`. `Execute` composes the stages
  along the edges as intended. The map from names to FIFOs is assumed to hold exactly the edges that
  end at (or start at) a stage, since `PipeGraph` is not part of this model.
- A Quant command reaching act (`raise ValueError`) is `NotReceive`. A command that is neither kind
  cannot occur in the datatype.
- `chunk_num` is a `nat`; a negative count would run no chunk in the source.
- The opcode of a Quant command counts as neither RECEIVE_BIN nor RECEIVE_TRI.
- `process`'s end-of-list return and finish flag (ReceiveEngine.py:52-56, 132-137) are not modelled.
  One command is one `RunCommand`.

## Findings

| source | as written | input that shows it | evidently intended | confidence | as-written member | corrected member |
|---|---|---|---|---|---|---|
| NeutronSim/Atom.py:109 | the head-of-FIFO test reads `AtomInstance.link_request_queue[0]` (also 114, and AtomManager.py:89/94), an attribute of the class that does not exist, so the test raises AttributeError whenever the first named atom is free | a fresh arbiter over atom 0 and one link acquire for atom 0 | compare against the atom's own FIFO head | high, not executed | AtomFindings.FirstRequestAsWritten | AtomProofs.PassGrantsUncontended |
| NeutronSim/Atom.py:85 | the pass iterates the pending release and acquire lists (85, 93) and never empties them, although they are meant to hold only requests new since the last pass (comment at 65) | the first link acquire is granted; then the holder's release is submitted and a second pass runs | a pass consumes the pending lists | high, not executed | AtomFindings.PendingReplayedAsWritten | Atom.AtomManager.Process |
| NeutronSim/ReceiveEngine.py:249 | read DMA 2 looks up its free flag and data type under key 3 (249-250), while the dictionaries have keys 0-2, so it raises KeyError | any RECEIVE_TRI command with `chunk_num > 0` | key 2, the addend's `afree` / `adtype` | high, not executed | ReceiveProofs.AddendReadFailsAsWritten | ReceiveModel.L3Read |
| NeutronSim/ReceiveEngine.py:392 | add looks up `to_add_1` and `to_add_2` (392-393), but the Receive edges are `to_add_0` and `to_add_1` (102-103). Mul/quant reads `to_mul_quant_0` as act's output, but that edge comes from read DMA 1 (100-101, 357-358). The Quant graph has no `to_mul_quant_1` or `to_write_dma_1` | any Receive command (add's lookup of `to_add_2`) or any Quant command (mul/quant's lookup of `to_mul_quant_1`) | each handler looks up the edges its graph declares | medium (depends on how the pipeline graph keys its port maps), not executed | ReceivePorts.ReceivePortsAsWritten | ReceivePorts.PortsIntended |
