# nomos-rt: a verified model of the real-time core

This project models the parts of nomos-rt whose correctness is not visible in any one function, and proves what
they promise over every input, every interleaving and every run. `dafny verify dfyconfig.toml` checks all of it.

| component | modules |
|---|---|
| control-graph compiler and interpreter | `ControlGraph` (expressions, operators, reference semantics), `GraphCompiler`, `GraphRuns`, `GraphShape`, `GraphModulator` (the mutable code), `GraphMeaning` (what each form denotes), `GraphOutputs` (which drives which output), `GraphPhasor`, `GraphSlew` |
| lock-free queue between two threads | `SpscQueue` |
| copy-on-write table under RCU, and the engine over it | `Rcu`, `ModulatorEngine`, `EngineRuns`, `EngineTurns` (ticks taken turn by turn), `EngineRcu` (these over the protocol), `EngineGraphs` and `EngineParams` (control graphs inside the engine) |
| beat scheduler | `EventScheduler`, `EventOrder` |
| OSC messages | `OscCodec`, `Bytes` |
| framed control socket | `IpcChannel`, `Bytes` |
| shift register | `RegisterWord` (32-bit words), `ShiftRegister`, `RegisterRuns`, `RegisterModes`, `RegisterFeedback`, `Lcg`, `LcgPeriod`; for exact periods `Orbits`, `Primality`, `MaximalLength`, `LfsrPeriods`, and the certificates in `PrimeFactors`, `LfsrLengthsTo16`, `LfsrLengthsTo24`, `LfsrLengthsTo32` and `LfsrCertificates` |
| slew limiter and function generator | `Slew`, `SlewRuns`, `SlewStages`, `Parameters` |
| stochastic source with its déjà-vu loop | `Stochastic`, `StochasticEvents`, `StochasticClock`, `DejaVuRuns`, `Lcg`, `Parameters` |
| MIDI Tuning Standard dumps | `Mts` |
| shared definitions | `Basics`, `Numbers` |

Code that updates objects in place is a class or a method with loops, proved equal to a function of the old state;
the results over runs are then proved about those functions. Threads are step systems: one step per atomic load,
store or exchange, and every interleaving of enabled steps is a run.

## Assumptions

- Atomics are sequentially consistent. A grace period is what liburcu documents: a retired table is reclaimed only
  when every reader that was inside a read-side section at the time of its retirement has left it.
- The control graph is proved for an arbitrary value type with arbitrary operators, so nothing there depends on
  real arithmetic, and the result holds for floats. `GraphPhasor` and the witness in `GraphSlew` alone interpret them
  as reals.
- Beats, phases, levels and pitches elsewhere are reals. The exponential, the logarithm, sine and cosine are
  arbitrary functions; the slew coefficient is only taken to be above 0 and at most 1.
- A parameter update is one step, never in the middle of a modulator's own turn in a tick.
- System calls follow a script that may cut each of them short, interrupt it or fail it; after the script they do
  all they are asked. So a call is interrupted only finitely often.
- A 32-bit word of the shift register is its sequence of bits. The generator and the lengths in the frame code wrap
  modulo 2^32.

## Where the code differs from its documentation

- `src/shift_register_modulator.hpp:27-28` says that in turing mode the parameter 1 is random. The generator never
  draws 1, so every bit is inverted: the register repeats every 2N edges (`RegisterFeedback.Recirculation`).
- `include/nomos/rt/event_scheduler.hpp:42-43` says that events are delivered in beat order. Across ticks that holds
  exactly when no event is drained behind one that has fired (`EventScheduler.SortedExactlyWhenNoneBehind`), that is,
  when no event is pushed after a tick at which one of a later beat was due, and then ticked itself
  (`EventOrder.SortedExactlyWhenNoneLate`); a run in which it fails is `EventScheduler.LateRun`.
- `include/nomos/rt/modulator_engine.hpp:34-38` promises the previous tick's value of a source that is not ahead. The
  value read is that of the previous tick exactly when the source was active in that tick
  (`EngineRuns.ReadsPreviousTickExactly`). `stop` leaves the recorded output in place, so a stopped source is still
  read ticks later (`EngineRuns.StoppedSourceStillRead`).
- `src/graph_modulator.hpp:28` describes the phasor's state as a phase in [0, 1). The code wraps only at 1, so a phasor
  that runs backwards goes negative (`GraphPhasor.BackwardsPhasorLeavesRange`, and `GraphPhasor.PhaseIsFractionExactly`
  for the exact condition).
- `src/graph_modulator.hpp:84` says that a parse error gives a graph without nodes. That is so exactly when none of the
  four outputs parses at its head (`GraphRuns.EmptyExactly`); a bad sub-expression inside a graph only makes its own
  input -1, which reads as 0 (`GraphRuns.BadArgumentKeepsGraph`).
- `src/graph_modulator.cpp:154` says that the fall time of a slew node defaults to its rise time. The code gives it the
  constant 0.01, so on any tick the two are equal if and only if the rise time is 0.01 (`GraphSlew.FallDefault`), and
  the node does what the comment says as long as it falls only then (`GraphSlew.SlewsAgree`). With a rise time of 0 it
  does not (`GraphSlew.OmittedFallIsSlow`).
- `src/stochastic_modulator.hpp:26` says that at déjà vu 0 the loop never replays. An event there writes a new entry
  but plays the one at the read position, so it plays what it has just drawn if and only if both positions are the same
  (`DejaVuRuns.PlaysFreshExactly`). They are in a run that never leaves 0 (`DejaVuRuns.PositionsTogether`), and one event
  at 0.5 parts them (`DejaVuRuns.ReplaysAtZero`).
- `include/nomos/rt/ipc_channel.hpp:42-44` promises to transfer the full frame. A payload above 1 MiB is written but
  never read back, and one of 4 GiB or more is cut to its length modulo 2^32 (`IpcChannel.FrameRoundTrip`).
- `src/shift_register_modulator.cpp:135` gives the generator a period of about 2^31. It is exactly 2^32, from every seed
  (`LcgPeriod.FullPeriod`).
- The MTS entry 7F 7F 7F means "no change", and the encoder produces it for a band of pitches above 127
  (`Mts.ReservedEntry`).

## Model

| member | source | states |
|---|---|---|
| GraphModulator.ParseNode | src/graph_modulator.cpp:19-180 | appends one contiguous block, the image of the expression, to whatever is there and returns its last index, -1 exactly when nothing was appended |
| GraphModulator.ParseArgs | src/graph_modulator.cpp:39-51 | the children of an operator are appended block after block and their roots are its inputs; a missing optional argument becomes a constant node, a bad or missing one -1, extra ones are ignored |
| GraphModulator.ParseFirst | src/graph_modulator.cpp:41-51 | one child or child_or_const call: appends the block of the argument, of its default, or nothing, and returns its root or -1 |
| GraphModulator.ParseControlGraph | src/graph_modulator.cpp:318-340 | the graph object built step by step is the compiled machine: cv, aux, gate and gate2 in this order, or a single expression as cv |
| GraphModulator.Modulator.Tick | src/graph_modulator.cpp:348-366 | the in-place forward loop reports the outputs of one pass and leaves every node in its next state |
| GraphModulator.Modulator.Update | src/graph_modulator.cpp:368-370 | sets one parameter and nothing else |
| GraphModulator.PassKeepsWiring | src/graph_modulator.cpp:184-312 | a pass changes node states only, never operators or inputs |
| GraphCompiler.BlockCorrect | src/graph_modulator.cpp:184-312 | one pass over the block of any expression, after any values, computes the value the tree denotes and advances every state of the block by one tick |
| GraphRuns.TickCorrect | src/graph_modulator.cpp:348-366 | one tick of the flat array reports the reference outputs after any history |
| GraphRuns.RunCorrect | src/graph_modulator.cpp:348-370 | from the machine reached by any history, every further run of ticks and updates reports the reference outputs |
| GraphRuns.CompilerCorrect | src/graph_modulator.cpp:318-370 | compiler correctness: for every graph, every initial parameters and every run of ticks and updates, the flat machine and the recursive evaluator with one state per occurrence report the same outputs on every tick |
| GraphOutputs.OutputsByName | src/graph_modulator.cpp:323-337 | in every run of a map of outputs the reported cv, aux, gate and gate2 are what the first entries under those keywords denote on the inputs read so far, a gate being high when its entry parses and exceeds one half; zero and low where there is none |
| GraphOutputs.ExpressionIsCv | src/graph_modulator.cpp:334-337 | anything but a map is the cv output, in every run, and the other outputs are zero and low |
| GraphOutputs.RunAt | src/graph_modulator.cpp:348-370 | every tick of a compiled graph reports its output expressions on the parameters as updated, the beats and the reciprocals of the tick rates so far |
| GraphRuns.NonInterference | src/graph_modulator.cpp:323-337 | changing other outputs' expressions never alters an output, in any run |
| GraphRuns.NodeMeaning | src/graph_modulator.cpp:174-180 | the value at the end of the block of any occurrence is the value of that sub-expression, on every tick |
| GraphRuns.EqualSubexpressions | src/graph_modulator.cpp:53-55 | two occurrences of the same sub-expression carry the same value on every tick although each has its own state |
| GraphRuns.OccurrenceBlock | src/graph_modulator.cpp:39-51 | the block of every occurrence lies contiguously inside the compiled array |
| GraphRuns.SingleOutput | src/graph_modulator.cpp:334-337 | a single expression compiles to its own block and is the cv output |
| GraphRuns.EmptyExactly | src/graph_modulator.cpp:318-340 | a graph compiles to no nodes if and only if none of its four outputs is a form that parses at its head |
| GraphRuns.BadArgumentKeepsGraph | src/graph_modulator.cpp:39-45 | a concrete graph with a bad argument: two nodes, first input -1, value 0 + x |
| GraphMeaning.Numbers | src/graph_modulator.cpp:20-59 | a number denotes itself, const its double or zero, beat the beat |
| GraphMeaning.Parameter | src/graph_modulator.cpp:61-64 | param denotes the live parameter of that name, or zero |
| GraphMeaning.OtherModulator | src/graph_modulator.cpp:66-76 | mod-out denotes the named field of the other modulator, a gate as one or zero, the cv for any other field, and zero without an output |
| GraphMeaning.PhaseOfBeat | src/graph_modulator.cpp:226-231 | beat-phase denotes the remainder of beats over the period, one by default, and zero unless the period is positive |
| GraphMeaning.Sine | src/graph_modulator.cpp:243-244 | sin denotes the sine of its argument in turns |
| GraphMeaning.Cosine | src/graph_modulator.cpp:245-246 | cos denotes the cosine of its argument in turns |
| GraphMeaning.Sawtooth | src/graph_modulator.cpp:254-255 | saw takes 0 to -1 and 1 to 1 |
| GraphMeaning.Triangle | src/graph_modulator.cpp:248-252 | tri goes from -1 at 0 up to 1 at one half and down again |
| GraphMeaning.SquareWave | src/graph_modulator.cpp:257-258 | square is 1 below its width, one half by default, and -1 from there on |
| GraphMeaning.Sum | src/graph_modulator.cpp:268-269 | add denotes the sum of its arguments, missing ones being zero |
| GraphMeaning.Product | src/graph_modulator.cpp:270-271 | mul denotes the product |
| GraphMeaning.Negation | src/graph_modulator.cpp:272-273 | neg denotes the negative |
| GraphMeaning.Absolute | src/graph_modulator.cpp:274-275 | abs denotes the absolute value |
| GraphMeaning.AboveLevel | src/graph_modulator.cpp:305-306 | threshold is one exactly when its argument exceeds the level, one half by default |
| GraphMeaning.Compared | src/graph_modulator.cpp:308-309 | comparator is one exactly when the first exceeds the second |
| GraphMeaning.Scaled | src/graph_modulator.cpp:260-263 | scale takes 0 and 1 to its bounds, 0 and 1 by default |
| GraphMeaning.Clamped | src/graph_modulator.cpp:265-266 | clamp holds its argument between its bounds, 0 and 1 by default |
| GraphMeaning.Mixed | src/graph_modulator.cpp:277-280 | mix goes from the first to the second with its third argument, one half by default and held within 0 and 1 |
| GraphMeaning.HeldSinceOpening | src/graph_modulator.cpp:294-303 | after any history sample-hold denotes what its signal was on the last tick on which the gate went above one half from at most one half |
| GraphMeaning.HeldBeforeOpening | src/graph_modulator.cpp:294-303 | and zero until there is such a tick |
| GraphMeaning.PhasorRuns | src/graph_modulator.cpp:233-241 | a phasor starts at zero, puts out its phase before moving on, adds rate times time step, and drops the whole part once it reaches one |
| GraphMeaning.SlewMoves | src/graph_modulator.cpp:282-292 | on every tick a slew moves from what it put out before towards its signal, by the time step over the time for that direction, 0.01 by default, without passing it, and at once if that time is not positive |
| GraphMeaning.ParsesExactly | src/graph_modulator.cpp:19-176 | an expression parses exactly when it is a number or a vector that starts with one of the 22 operator keywords |
| GraphMeaning.NonsenseIsZero | src/graph_modulator.cpp:19-176 | everything else denotes zero |
| GraphShape.BlockShape | src/graph_modulator.cpp:174-180 | in a block all inputs point strictly backwards inside the block and no node has two parents |
| GraphShape.ArgsShape | src/graph_modulator.cpp:41-51 | the same for an operator's arguments together, whose roots nobody else reads |
| GraphPhasor.PhaseStep | src/graph_modulator.cpp:233-241 | one tick adds rate times dt to the stored phase and wraps at 1 |
| GraphPhasor.PhaseCongruent | src/graph_modulator.cpp:233-241 | after any history the stored phase and the summed advance differ by an integer, and the phase is below 1 |
| GraphPhasor.PhaseIsFraction | src/graph_modulator.cpp:233-241 | if the phasor never ran backwards the stored phase is the fractional part of the summed rate times dt |
| GraphPhasor.PhaseIsFractionExactly | src/graph_modulator.cpp:233-241 | in general it is so after a tick if and only if the tick did not take the phase below 0 |
| GraphPhasor.BackwardsPhasorLeavesRange | src/graph_modulator.cpp:233-241 | a concrete backwards phasor stores -0.25 |
| GraphSlew.FallDefault | src/graph_modulator.cpp:149-154 | without a third argument the fall time is the constant 0.01, which is the rise time on a tick if and only if that is 0.01 |
| GraphSlew.SlewsAgree | src/graph_modulator.cpp:149-154 | over any history in which the level falls only while the rise time is 0.01, leaving the fall time out and writing the rise time for it denote the same |
| GraphSlew.SlewStep | src/graph_modulator.cpp:282-292 | one tick moves the level towards the signal by the time step over the rise or fall time, without passing it, and puts it out |
| GraphSlew.OmittedFallIsSlow | src/graph_modulator.cpp:149-154 | with a rise time of 0 and no fall time, a fall by one covers a tenth in a millisecond, where the comment has it immediate |
| SpscQueue.StepKeepsInv | include/nomos/rt/spsc_queue.hpp:29-47 | every single load, slot access and store of either thread keeps the invariant that ties indices, slots and histories together |
| SpscQueue.RunKeepsInv | include/nomos/rt/spsc_queue.hpp:29-47 | so it holds in every state of every interleaving |
| SpscQueue.CheckPush | include/nomos/rt/spsc_queue.hpp:30-33 | at the instant of the acquire load the full test succeeds if and only if there is no room |
| SpscQueue.CheckPop | include/nomos/rt/spsc_queue.hpp:41-43 | at the instant of the acquire load the empty test succeeds if and only if nothing is in flight |
| SpscQueue.FifoOrder | include/nomos/rt/spsc_queue.hpp:29-47 | in every reachable state the popped items are a prefix of the accepted pushes and at most Capacity - 1 are in flight |
| SpscQueue.NoSlotRace | include/nomos/rt/spsc_queue.hpp:34-44 | no slot is written while it is being read or while an unread item is in it |
| SpscQueue.RefinesFifo | include/nomos/rt/spsc_queue.hpp:29-47 | every micro-step is a stutter or one step of an atomic bounded FIFO, including when push and pop fail |
| SpscQueue.Monotone | include/nomos/rt/spsc_queue.hpp:35-45 | along a run the histories only grow and each index moves only with its own history |
| SpscQueue.SizeForConsumer | include/nomos/rt/spsc_queue.hpp:53-57 | called by the consumer, size is the number in flight when head was loaded and never more than there is on return |
| SpscQueue.SizeForProducer | include/nomos/rt/spsc_queue.hpp:53-57 | called by the producer, size is the number in flight when tail was loaded |
| SpscQueue.EmptyForConsumer | include/nomos/rt/spsc_queue.hpp:49-51 | called by the consumer, empty is exact at the load of head |
| SpscQueue.EmptyForProducer | include/nomos/rt/spsc_queue.hpp:49-51 | called by the producer, empty is exact at the load of tail |
| SpscQueue.DrainIsAtomic | include/nomos/rt/event_scheduler.hpp:48-49 | under every interleaving, popping until a pop fails takes exactly what was in flight when it began and what was accepted meanwhile, in order, and leaves nothing at the instant of the failing check |
| SpscQueue.RingBuffer.Push | include/nomos/rt/spsc_queue.hpp:29-37 | in one thread, enqueues at the end unless Capacity - 1 items are held |
| SpscQueue.RingBuffer.Pop | include/nomos/rt/spsc_queue.hpp:40-47 | in one thread, takes the oldest item unless there is none |
| Rcu.RunKeepsInv | include/nomos/rt/rcu.hpp:95-160 | the ownership and life-time invariant holds in every run of any number of readers and mutex-serialised writers |
| Rcu.NoUseAfterFree | include/nomos/rt/rcu.hpp:95-160 | no step dereferences a freed table or a destroyed modulator |
| Rcu.SnapshotAlive | src/modulator_engine.cpp:8-28 | every modulator in a table a reader holds is alive, and the tick order lists exactly its ids, even after stop or a replacing start |
| Rcu.SnapshotStable | include/nomos/rt/rcu.hpp:95-116 | the table a reader holds does not change under it |
| Rcu.RetiredOnce | include/nomos/rt/rcu.hpp:128-160 | the current table is never freed, each table is retired and freed at most once, and freed only after being retired |
| Rcu.NoLeak | include/nomos/rt/rcu.hpp:128-160 | between writers every allocated table is current or waiting for its grace period, and every living modulator is listed by an allocated table or still in the hands of the start that brings it |
| Rcu.SwapInstallsEdit | src/modulator_engine.cpp:8-28 | start and stop take effect atomically: the table installed is the edit of the one it replaces, with no update lost |
| Rcu.CurrentIsHistory | src/modulator_engine.cpp:8-28 | after every run the current table is what the installed starts and stops, one after the other, make of the empty table |
| Rcu.SnapshotIsHistory | include/nomos/rt/rcu.hpp:95-116 | what a reader holds is that history at the step of its own load, after it entered its read-side section, and it has held this very table ever since, whatever has been installed meanwhile |
| Rcu.OnlyReclaimDestroys | src/modulator_engine.cpp:8-28 | nothing is destroyed by start, stop or a reader, only by reclamation |
| ModulatorEngine.Engine.Start | src/modulator_engine.cpp:8-16 | a new id goes last in the order, a known one keeps its place; recorded outputs stay |
| ModulatorEngine.Engine.Stop | src/modulator_engine.cpp:18-28 | removes the modulator and its place, keeps everyone else's order and all recorded outputs |
| ModulatorEngine.Engine.UpdateParam | src/modulator_engine.cpp:30-38 | gives the named modulator this value under this key, if there is such a modulator, and leaves all others as they are |
| ModulatorEngine.Engine.Tick | include/nomos/rt/modulator_engine.hpp:55-67 | takes the model's tick: every modulator runs once in order, from its own state, on the earlier outputs overlaid by those of the modulators ahead of it |
| ModulatorEngine.Engine.RunAll | include/nomos/rt/modulator_engine.hpp:59-66 | the loop computes all turns of the tick and what they record |
| ModulatorEngine.Engine.LastOutput | src/modulator_engine.cpp:40-43 | after any history of start, stop, update and tick, the most recent output ever recorded under the id |
| ModulatorEngine.Engine.Size | src/modulator_engine.cpp:45-49 | the number of active modulators, which is the length of the tick order |
| ModulatorEngine.RunToRan | include/nomos/rt/modulator_engine.hpp:59-66 | after n turns exactly the first n modulators have run, each from its own state before the tick, and the others are as they were |
| EngineRuns.SeenDuringTick | include/nomos/rt/modulator_engine.hpp:34-38 | a modulator sees its source's output of this tick if the source is ahead of it, and otherwise, itself included, the most recent one recorded before |
| EngineRuns.ReadsPreviousTickExactly | include/nomos/rt/modulator_engine.hpp:34-38 | in any run, with any starts, stops and updates between two ticks, the record read of a source that is not ahead is the previous tick's if and only if the source was active in that tick; otherwise it is the one that could be read before that tick |
| EngineRuns.StoppedSourceStillRead | src/modulator_engine.cpp:18-28 | a run in which a stopped source's output of the first tick is still read in the third |
| EngineTurns.RunAgrees | include/nomos/rt/modulator_engine.hpp:55-67 | in every state of every run of turns, starts, stops and updates, the engine is an atomic one with the later calls made after the tick under way, whose waiting modulators are as they were before it |
| EngineTurns.TicksAreAtomic | include/nomos/rt/modulator_engine.hpp:55-67 | between ticks the engine is what the calls made so far, each tick one of them, make of it one by one; a call made during a tick counts as made after it, unless it is an update of a modulator that the tick has still to run |
| EngineTurns.RecordsSoFar | include/nomos/rt/modulator_engine.hpp:59-66 | at any point of a tick its records are the first records of the atomic tick |
| EngineTurns.TickAtLoad | include/nomos/rt/modulator_engine.hpp:55-67 | a tick records what an atomic tick at its load would, whatever is started and stopped meanwhile, unless an update reaches a modulator before its turn |
| EngineTurns.BeforeMoves | src/modulator_engine.cpp:30-38 | only such an update counts as made before the tick under way |
| EngineTurns.EarlySetMidTick | src/modulator_engine.cpp:30-38 | an update that reaches a modulator before its turn leaves the tick as if it had been made before the load |
| EngineRcu.ProtocolTakesTurns | src/modulator_engine.cpp:8-38 | over the copy-on-write protocol, with any number of readers and every interleaving, the engine takes only such steps: a swap installs or removes one modulator, a use of the held table is a turn, and all else is invisible |
| EngineRcu.NewToAll | src/modulator_engine.cpp:8-16 | no table that anyone else can reach points to the modulator that a start is about to install |
| EngineRcu.EngineIsAtomic | include/nomos/rt/modulator_engine.hpp:16-27 | so in every run of the protocol, whenever the event thread is not in a tick, the modulators behind the current table, its order and everything recorded are those of atomic calls |
| EngineRcu.WritesWhatItTouches | src/modulator_engine.cpp:30-38 | the modulators whose content a step changes are alive and the ones that the protocol says it touches |
| EngineGraphs.SimulationLifts | include/nomos/rt/modulator_engine.hpp:55-67 | replacing every modulator by one that behaves the same changes no record in any run |
| EngineGraphs.EngineCorrect | src/graph_modulator.cpp:201-221 | in every run of starts, stops, updates and ticks, an engine of compiled graphs that read one another and themselves records exactly what the source expressions denote |
| EngineGraphs.StartCompiles | src/graph_modulator.cpp:318-340 | the starts in those runs are starts of the compiled graph |
| EngineGraphs.ModOutReads | src/graph_modulator.cpp:201-221 | a mod-out expression denotes the cv that last_output returns, or 0 |
| EngineParams.UpdateIsHeard | src/modulator_engine.cpp:30-38 | in every run of an engine of compiled graphs, a modulator whose cv is a param form records the value that update_param last gave that parameter, from the next tick on and until the modulator is stopped or replaced or the parameter is set again, whatever else is called meanwhile |
| EngineGraphs.FeedbackDelay | include/nomos/rt/modulator_engine.hpp:38-38 | self-reference is one tick of delay, in any run in which the modulator was active in the previous tick |
| ModulatorEngine.AfterAgrees | src/modulator_engine.cpp:40-43 | looking up the recorded outputs gives the latest record under the id |
| EventScheduler.SortCorrect | include/nomos/rt/event_scheduler.hpp:55-57 | the stable sort sorts by beat and keeps the arrival order at each beat |
| EventScheduler.SortedUnique | include/nomos/rt/event_scheduler.hpp:55-57 | and is the only sequence that does both |
| EventScheduler.RunConserves | include/nomos/rt/event_scheduler.hpp:46-72 | in every run, at every beat, the accepted pushes are the fired, pending and staged ones in order of arrival, late events included |
| EventScheduler.ExactlyOnce | include/nomos/rt/event_scheduler.hpp:46-72 | the accepted pushes are the disjoint union of fired, pending and staged events |
| EventScheduler.TickFiresExactlyTheDue | include/nomos/rt/event_scheduler.hpp:59-71 | nothing fires before its beat and nothing due stays pending |
| EventScheduler.RunBounds | include/nomos/rt/event_scheduler.hpp:46-72 | with ordered ticks everything fired is due at the last tick and everything pending is not |
| EventScheduler.FiredSorted | include/nomos/rt/event_scheduler.hpp:41-46 | in a timely run events fire in beat order across ticks |
| EventScheduler.FiredInBeatOrder | include/nomos/rt/event_scheduler.hpp:46-72 | in a timely run what has fired up to beat b is the due part of the stable sort of the whole push sequence |
| EventScheduler.TickScheduleIndependence | include/nomos/rt/event_scheduler.hpp:46-72 | two timely runs with the same pushes and the same last beat have fired the same sequence, however pushes and ticks were interleaved |
| EventScheduler.InOrderExactlyWhenSorted | include/nomos/rt/event_scheduler.hpp:46-72 | in every run with ordered ticks that is so if and only if events fired in beat order and nothing due is still waiting to be drained |
| EventScheduler.SortedExactlyWhenNoneBehind | include/nomos/rt/event_scheduler.hpp:41-46 | events fire in beat order if and only if none is ever drained behind one that has fired |
| EventScheduler.InOrderExactlyWhenNoneBehind | include/nomos/rt/event_scheduler.hpp:46-72 | in every run with ordered ticks it is so if and only if no event was ever drained behind one that had fired and nothing due is still waiting |
| EventOrder.FiredMembers | include/nomos/rt/event_scheduler.hpp:46-71 | an event has fired if and only if a tick came after its push at which it was due |
| EventOrder.StagedMembers | include/nomos/rt/event_scheduler.hpp:46-49 | an event waits to be drained if and only if no tick came after its push |
| EventOrder.NoneBehindExactlyWhenNoneLate | include/nomos/rt/event_scheduler.hpp:46-71 | no event is drained behind a fired one if and only if no push with an earlier beat than an event due at a tick before it is followed by a tick |
| EventOrder.SortedExactlyWhenNoneLate | include/nomos/rt/event_scheduler.hpp:42-43 | with ordered ticks, events fire in beat order if and only if that holds of the pushes and ticks made |
| EventOrder.InOrderExactlyWhenNoneLate | include/nomos/rt/event_scheduler.hpp:42-43 | what has fired by the last tick is the due part of the stable sort of all pushes if and only if, besides, every push since that tick is for later |
| EventScheduler.LateEventBreaksOrder | include/nomos/rt/event_scheduler.hpp:27-28 | in any run, an event pushed after a later beat has fired is delivered on the next tick, out of beat order |
| EventScheduler.LateRun | include/nomos/rt/event_scheduler.hpp:27-28 | such a run: push, tick, late push, tick |
| EventScheduler.Scheduler.Stage | include/nomos/rt/event_scheduler.hpp:32-32 | accepts an event exactly when the staging ring has room |
| EventScheduler.Scheduler.Drain | include/nomos/rt/event_scheduler.hpp:48-49 | moves all staged events behind the pending ones in order |
| EventScheduler.Scheduler.Route | include/nomos/rt/event_scheduler.hpp:61-68 | an OSC event is offered to the queue, kept if there is a queue with room, a CLAP event goes to the callback |
| EventScheduler.Scheduler.FireDue | include/nomos/rt/event_scheduler.hpp:59-70 | fires exactly the due prefix; callback and OSC queue each get their kind in firing order, the queue as far as it has room |
| EventScheduler.Scheduler.SortAndFire | include/nomos/rt/event_scheduler.hpp:55-71 | sorts, fires and erases what is due, keeps the rest |
| EventScheduler.Scheduler.FireIfAny | include/nomos/rt/event_scheduler.hpp:51-70 | the early return without pending events does what sorting and firing none would |
| EventScheduler.Scheduler.Tick | include/nomos/rt/event_scheduler.hpp:46-72 | the object takes exactly the model's tick, and routes what fired by kind |
| OscCodec.PadsAgree | src/osc_server.cpp:34-36 | the encoder's and the decoders' padding agree, are multiples of four and leave room for the terminator |
| OscCodec.PacketAligned | include/nomos/rt/osc_encode.hpp:52-101 | a message is a multiple of four bytes and never too short for the receiver |
| OscCodec.PacketLayout | include/nomos/rt/osc_encode.hpp:52-101 | the bytes of a message: padded address, a comma and one tag per argument, padded, and the arguments' bytes |
| OscCodec.ArgLayout | include/nomos/rt/osc_encode.hpp:78-97 | i is four bytes of two's complement and f four bytes of its pattern, most significant first, s is padded with one to four zeros, anything else is no argument |
| OscCodec.SmallVector.Clear | include/nomos/rt/small_vector.hpp:62-62 | empties the buffer |
| OscCodec.SmallVector.PushBack | include/nomos/rt/small_vector.hpp:44-49 | appends one byte exactly when there is room |
| OscCodec.SmallVector.Append | include/nomos/rt/small_vector.hpp:53-60 | appends all bytes or none |
| OscCodec.SmallVector.AppendOscString | include/nomos/rt/osc_encode.hpp:29-38 | appends the padded string, or has no effect if it does not fit |
| OscCodec.SmallVector.AppendU32Be | include/nomos/rt/osc_encode.hpp:41-48 | appends four bytes, most significant first, or none |
| OscCodec.SmallVector.AppendTags | include/nomos/rt/osc_encode.hpp:65-76 | appends the padded tag string exactly when it fits, otherwise an initial part of it |
| OscCodec.SmallVector.AppendArg | include/nomos/rt/osc_encode.hpp:79-98 | appends one argument exactly when its tag is known and it fits |
| OscCodec.SmallVector.AppendBody | include/nomos/rt/osc_encode.hpp:78-100 | appends all arguments exactly when all tags are known and all fit |
| OscCodec.SmallVector.Encode | include/nomos/rt/osc_encode.hpp:57-101 | succeeds if and only if every tag is known and the whole message fits, and then holds the message; otherwise an initial part of it |
| OscCodec.DecodeArgs | src/luajit_participant.cpp:434-454 | the argument loop computes the decoding of tags against bytes |
| OscCodec.SkipsUnknown | src/luajit_participant.cpp:434-454 | a tag that is not known, or lacks its bytes, yields nothing and uses up nothing |
| OscCodec.ReadsString | src/luajit_participant.cpp:434-454 | a string is read up to its first NUL, or to the end if it has none, and the next argument starts at the next multiple of four |
| OscCodec.TakeArg | src/luajit_participant.cpp:437-452 | one turn of the loop: what is pushed and the next offset; unknown tags and missing bytes are skipped |
| OscCodec.DecodeArg | src/luajit_participant.cpp:437-452 | decoding an encoded argument gives it back and leaves exactly what follows |
| OscCodec.DecodeBody | src/luajit_participant.cpp:434-454 | decoding all encoded arguments gives them back |
| OscCodec.SplitPacket | src/osc_server.cpp:171-194 | splitting an encoded message gives back its address, tags and argument bytes |
| OscCodec.SplitExactly | src/osc_server.cpp:171-187 | a packet is taken apart if and only if it has eight bytes, its address ends and the next field starts with a comma |
| OscCodec.SplitFields | src/osc_server.cpp:176-194 | then address, tags and arguments are exactly the bytes between its NULs and fields |
| OscCodec.SplitNulFree | src/osc_server.cpp:176-191 | every address the receiver extracts, from any packet, is NUL-free |
| OscCodec.DecodeNulFree | src/luajit_participant.cpp:446-449 | so is every string it decodes, from any bytes |
| OscCodec.RoundTrip | include/nomos/rt/osc_encode.hpp:52-101 | a message survives encoding, splitting and decoding if and only if its address and strings are NUL-free |
| OscCodec.BuildStringMessage | src/osc_server.cpp:40-56 | byte for byte the packet the encoder makes for one string argument |
| IpcChannel.Descriptor.ReadExact | src/ipc_channel.cpp:16-34 | under any short reads and interruptions delivers exactly the next n bytes, or fails because the stream ended (errno 0) or a call failed |
| IpcChannel.Descriptor.WriteExact | src/ipc_channel.cpp:37-53 | under any short writes and interruptions sends exactly the bytes in order; after a failure a proper initial part |
| IpcChannel.Descriptor.ReadMessage | src/ipc_channel.cpp:57-82 | whatever the calls do, a message returned is the next one of the stream and exactly its bytes are gone; each error has its cause |
| IpcChannel.Descriptor.WriteMessage | src/ipc_channel.cpp:84-99 | one frame, or after a failure a proper initial part of it |
| IpcChannel.Descriptor.WriteAll | src/rt_control_thread.cpp:296-301 | messages written in turn put exactly their frames on the wire; after a failure an initial part that ends before the last frame does |
| IpcChannel.Descriptor.ReadAll | src/rt_control_thread.cpp:312-317 | the connection loop yields a prefix of the stream's messages; all of them and the stream's own end if calls are only cut short or interrupted and running_ stays set, and as many as it stayed set for otherwise |
| IpcChannel.FrameRoundTrip | src/ipc_channel.cpp:57-99 | a frame is read back as its message if and only if the payload is at most 1 MiB; one that is longer, below 4 GiB, is refused as too large |
| IpcChannel.FrameLayout | src/ipc_channel.cpp:84-99 | the bytes of a frame: the length in four bytes, most significant first, the kind, three zeros and the payload |
| Bytes.BigEndianAt | src/ipc_channel.cpp:88-89 | byte k of a number of n bytes is its digit at 256^(n - 1 - k) |
| IpcChannel.CutFrame | src/ipc_channel.cpp:59-79 | a frame cut anywhere inside reads as the end of the stream |
| IpcChannel.CutStream | src/ipc_channel.cpp:57-99 | a stream cut after any number of bytes yields exactly the messages sent in full and then eof |
| IpcChannel.WholeCounts | src/ipc_channel.cpp:57-99 | how many messages those are, by the lengths of their frames |
| IpcChannel.StreamRoundTrip | src/ipc_channel.cpp:57-99 | every list of messages is parsed back whole and in order, then eof |
| IpcChannel.Transfer | src/ipc_channel.cpp:16-99 | writer and reader end to end, whatever the system calls do: the reader gets a prefix of the messages; with at most short and interrupted reads exactly those sent in full and then eof; with at most short and interrupted writes too, all of them |
| IpcChannel.WireAppend | src/ipc_channel.cpp:84-99 | each further message extends the stream by its frame |
| IpcChannel.CutAnything | src/ipc_channel.cpp:57-82 | of any bytes at all, a shorter stream yields nothing that the longer one would not |
| IpcChannel.DispatchAgrees | src/rt_control_thread.cpp:1331-1350 | on any buffer, dispatching a message within the limit and reading it from the socket agree exactly when header and payload fit the buffer's length in 32 bits |
| IpcChannel.DispatchRoundTrip | src/rt_control_thread.cpp:1331-1350 | a frame followed by anything is dispatched as its message if and only if header and payload fit the buffer's length in 32 bits |
| IpcChannel.DispatchWholeFrame | src/rt_control_thread.cpp:1331-1350 | a frame on its own is dispatched as its message if and only if header and payload together are below 4 GiB |
| RegisterWord.ShiftIn | src/shift_register_modulator.cpp:93-94 | the new bit enters first, the oldest drops out, and the word stays within N bits |
| RegisterWord.MaskValue | src/shift_register_modulator.cpp:93-93 | the mask is the number 2^N - 1, for N = 32 too |
| RegisterWord.FoldIsParity | src/shift_register_modulator.cpp:115-124 | the shift-and-xor fold is the parity of all 32 bits |
| RegisterWord.TableMatches | src/shift_register_modulator.cpp:18-52 | each of the 31 tap masks has exactly the bits of its documented polynomial, whose degree is the register length |
| RegisterWord.FeedbackIsPolynomial | src/shift_register_modulator.cpp:115-124 | the feedback bit is the exclusive or of the bits the polynomial names |
| ShiftRegister.Modulator.constructor | src/shift_register_modulator.cpp:54-60 | clamps lengths and starts with every parameter at its documented default |
| ShiftRegister.InitialWordFits | src/shift_register_modulator.cpp:57-59 | the starting word fits and its lowest bit is set, for every length |
| RegisterModes.FirstWord | src/shift_register_modulator.cpp:57-59 | a register of length N starts with the low N bits of 0xACE1, which are never all zero |
| ShiftRegister.Modulator.EnteringBit | src/shift_register_modulator.cpp:73-91 | the bit of each mode; only turing mode draws a number |
| RegisterModes.EnteringBits | src/shift_register_modulator.cpp:78-90 | rungler mode inverts the oldest bit when data exceeds the parameter, turing mode when the next number drawn is below it, open mode enters whether data exceeds one half |
| RegisterModes.OpenSamples | src/shift_register_modulator.cpp:88-90 | in every open run the register is the last N samples of data above one half, on top of what it started with |
| RegisterModes.DrawsPerEdge | src/shift_register_modulator.cpp:83-87 | turing mode draws one number per edge and the other modes none |
| RegisterModes.TuringEdge | src/shift_register_modulator.cpp:83-87 | in every turing run the n-th edge inverts the bit going round exactly when the n-th number drawn is below the parameter |
| RegisterModes.TickInFull | src/shift_register_modulator.cpp:62-98 | a tick adds clock rate over tick rate to the phase and has an edge exactly when that reaches one, which takes one off it |
| ShiftRegister.Modulator.Tick | src/shift_register_modulator.cpp:62-98 | takes the model's tick; the gate is high exactly when an edge fired and a one entered |
| ShiftRegister.Modulator.Update | src/shift_register_modulator.cpp:100-109 | sets the clamped parameter |
| Parameters.RegisterUpdate | src/shift_register_modulator.cpp:100-109 | the parameter named takes the value, held within its documented range, and nothing else changes |
| ShiftRegister.DacReadsOldestBits | src/shift_register_modulator.cpp:126-132 | the output is evenly placed in [-1, 1] as the number in the oldest bits is among all numbers of as many bits |
| RegisterRuns.PhaseAccount | src/shift_register_modulator.cpp:62-71 | in every run edges plus residual phase equal the starting phase plus all increments |
| RegisterRuns.EdgesAreFloor | src/shift_register_modulator.cpp:62-71 | edges are the floor of that sum if and only if less than one period is left over |
| RegisterRuns.SlowClockKeepsUp | src/shift_register_modulator.cpp:62-71 | which is so whenever the clock rate never exceeds the tick rate |
| RegisterRuns.ConstantRate | src/shift_register_modulator.cpp:62-71 | at constant rates the edges are those of the slower of clock and ticks |
| RegisterRuns.RegisterHistory | src/shift_register_modulator.cpp:93-95 | in every mode the register is the most recent bits entered, in order, on top of those it started with |
| RegisterRuns.RegisterIsLastBits | src/shift_register_modulator.cpp:93-95 | after N edges it is exactly the last N bits entered |
| RegisterFeedback.RunIterates | src/shift_register_modulator.cpp:73-95 | between two moments of a run a self-fed register advances by as many iterations as there were edges |
| RegisterFeedback.Recirculation | src/shift_register_modulator.cpp:78-87 | turing mode at parameter 0 or 1, or rungler mode with its comparison settled: N edges bring back every bit, inverted or not, and the word repeats if and only if they are not |
| RegisterFeedback.TwoRounds | src/shift_register_modulator.cpp:78-87 | 2N edges always repeat the word |
| RegisterFeedback.LfsrReversible | src/shift_register_modulator.cpp:75-94 | for every length the lfsr step is injective, and a word is zero exactly when its successor is |
| RegisterFeedback.LfsrNeverZero | src/shift_register_modulator.cpp:54-98 | from a non-zero word no run of lfsr mode reaches zero |
| MaximalLength.FeedbackRelation | src/shift_register_modulator.cpp:115-124 | N edges are the sum of N - e edges over the exponents e of the polynomial |
| MaximalLength.ProductStands | src/shift_register_modulator.cpp:115-124 | polynomials in the step multiply, modulo that relation, as numbers of edges add |
| Orbits.PeriodByPrimes | src/shift_register_modulator.hpp:22-24 | m is the exact period of a point if and only if m steps lead back and m / q steps do not, for each prime factor q of m |
| LfsrPeriods.MaximalExactly | src/shift_register_modulator.hpp:22-24 | for every length, all non-zero words have period 2^N - 1 if and only if 2^N - 1 edges lead back to one particular word and (2^N - 1) / q edges do not, for each prime factor q |
| LfsrPeriods.CoefMul | src/shift_register_modulator.cpp:18-52 | products computed on 32-bit words are those of the polynomials they stand for |
| LfsrPeriods.RunReturnsExactly | src/shift_register_modulator.hpp:22-24 | with a maximal length, every lfsr run from a non-zero word is back at it exactly at the multiples of 2^N - 1 edges |
| LfsrCertificates.AllMaximal | src/shift_register_modulator.cpp:18-52 | every length from 2 to 32 is maximal: all non-zero words have exactly the period 2^N - 1 |
| LfsrCertificates.DocumentedPeriod | src/shift_register_modulator.hpp:22-24 | every lfsr run from a non-zero word is back at it exactly at the multiples of 2^N - 1 edges, with every length |
| Slew.Modulator.Tick | src/slew_modulator.cpp:15-52 | takes the model's tick and reports level, end of rise and end of cycle |
| Slew.Modulator.Advance | src/slew_modulator.cpp:15-38 | pulses are cleared first; without a positive rate nothing else happens; a trigger restarts the rise from -1 |
| Slew.Modulator.Move | src/slew_modulator.cpp:30-49 | the lag or the running stage, and the stage change at either end |
| Slew.Modulator.Update | src/slew_modulator.cpp:54-67 | sets the clamped parameter or arms the trigger |
| SlewRuns.LevelInRange | src/slew_modulator.cpp:30-49 | in every run the level stays in [-1, 1] |
| SlewStages.TickInFull | src/slew_modulator.cpp:15-52 | a live tick runs one stage from one level: the gap to its goal shrinks by one minus the coefficient of its time, and within 0.001 of the end of a rise or a fall the stage ends with its pulse |
| SlewStages.TriggerRestarts | src/slew_modulator.cpp:21-25 | in every run the first live tick after a trigger starts a rise from -1, whatever was under way |
| SlewStages.CycleRestarts | src/slew_modulator.cpp:27-28 | with cycle on an idle modulator rises again on the next live tick |
| SlewStages.CycleGoesOn | src/slew_modulator.cpp:27-49 | so an end of cycle is followed by a rise from -1 on the very next live tick |
| SlewStages.IdleClosesIn | src/slew_modulator.cpp:30-33 | with the input held, an idle level stays idle and is after n live ticks within 2 (1 - c)^n of the input |
| Parameters.SlewUpdate | src/slew_modulator.cpp:54-67 | the parameter named takes the value, held within its documented range, or the trigger is armed, and nothing else changes |
| SlewRuns.StageStep | src/slew_modulator.cpp:15-52 | the only ways in and out of the falling stage, and when a trigger can become pending |
| SlewRuns.PulsesNeverCoincide | src/slew_modulator.cpp:40-48 | end of rise and end of cycle never coincide |
| SlewRuns.RiseBetweenCycles | src/slew_modulator.cpp:40-48 | two ends of cycle have an end of rise between them |
| SlewRuns.CycleBetweenRises | src/slew_modulator.cpp:21-48 | two ends of rise without a trigger in between have an end of cycle between them |
| SlewRuns.StageEnds | src/slew_modulator.cpp:34-48 | with coefficients of at least c and no trigger, a rise or a fall ends within any n live ticks with 2 (1 - c)^n <= 0.001 |
| Stochastic.Modulator.constructor | src/stochastic_modulator.cpp:9-15 | both buffers hold successive draws and every parameter its documented default |
| Lcg.Draw | src/stochastic_modulator.cpp:75-78 | a draw is never negative and never 1 |
| LcgPeriod.FullPeriod | src/shift_register_modulator.cpp:134-138 | from every seed the generator is back for the first time after exactly 2^32 draws |
| LcgPeriod.StepAndDraw | src/stochastic_modulator.cpp:75-78 | a step multiplies by 1664525 and adds 1013904223 modulo 2^32, and a draw is the top 24 bits over 2^24 |
| Stochastic.Modulator.ClockEvent | src/stochastic_modulator.cpp:28-51 | one event: rearm, decide replay and freeze, write or not, play, advance or not, with the draws in this order |
| StochasticEvents.EventInFull | src/stochastic_modulator.cpp:30-51 | an event replays exactly when the second number drawn is below twice déjà vu, freezes exactly when the third is below twice its excess over one half, otherwise writes a gate with probability bias and a level from the next two, and plays the entry at the read position |
| StochasticEvents.LevelMeans | src/stochastic_modulator.cpp:80-89 | a level is the draw spread around the bias by the spread to either side, held within its range, and with quantising the nearest of steps + 1 even places |
| StochasticEvents.TickInFull | src/stochastic_modulator.cpp:17-28 | a tick adds rate over tick rate to the phase and has an event exactly when that reaches the threshold, which is taken off it |
| StochasticClock.ClockAccount | src/stochastic_modulator.cpp:23-28 | in every run the thresholds reached plus the phase left equal the starting phase plus all that was added |
| StochasticClock.ThresholdStep | src/stochastic_modulator.cpp:30-31 | an event sets the threshold as far from one period to the logarithm of its first draw, held above 1e-6, as the jitter says; nothing else changes it |
| StochasticClock.EventsAreFloor | src/stochastic_modulator.cpp:17-31 | at jitter 0 the events are the whole part of the elapsed clock if and only if less than one period is left over |
| StochasticClock.RegularClock | src/stochastic_modulator.cpp:17-31 | which is so whenever the rate never exceeds the tick rate |
| Stochastic.Modulator.Tick | src/stochastic_modulator.cpp:17-54 | takes the model's tick; the gate is only high on a tick on which the clock fired |
| Stochastic.Modulator.Update | src/stochastic_modulator.cpp:56-73 | sets the clamped or rounded parameter |
| Parameters.StochasticUpdate | src/stochastic_modulator.cpp:56-73 | the parameter named takes the value, held within its documented range, length and steps rounded to the nearest integer, and nothing else changes |
| DejaVuRuns.EventKeeps | src/stochastic_modulator.cpp:39-51 | an event keeps both positions inside the buffers whatever the length was set to |
| DejaVuRuns.TickKeeps | src/stochastic_modulator.cpp:17-54 | so does a tick |
| Stochastic.LevelWithin | src/stochastic_modulator.cpp:80-89 | every generated level is in [-1, 1], quantised or not |
| DejaVuRuns.RunWithin | src/stochastic_modulator.cpp:17-89 | in every run all levels, held and put out, stay in [-1, 1] |
| DejaVuRuns.LockedEvent | src/stochastic_modulator.cpp:33-51 | from déjà vu 0.5 up every event replays; at 0.5 it moves on, at 1.0 it does not |
| DejaVuRuns.BuffersLocked | src/stochastic_modulator.cpp:33-45 | while déjà vu is at least 0.5 both buffers stay as they are |
| DejaVuRuns.PositionAdvances | src/stochastic_modulator.cpp:47-51 | at 0.5 with a fixed length the read position goes round once per length events |
| DejaVuRuns.LoopRepeats | src/stochastic_modulator.cpp:33-53 | at 0.5 with a fixed length the events from the second on repeat with period length |
| DejaVuRuns.FrozenConstant | src/stochastic_modulator.cpp:33-53 | at 1.0 all events put out the same level and gate |
| DejaVuRuns.FreshEvent | src/stochastic_modulator.cpp:33-51 | at déjà vu 0 an event writes the level it draws, plays the entry at the read position and moves both positions on |
| DejaVuRuns.PlaysFreshExactly | src/stochastic_modulator.hpp:26 | at 0 what an event puts out is the level just drawn, whatever the buffer holds, if and only if the positions are equal |
| DejaVuRuns.PositionsTogether | src/stochastic_modulator.cpp:33-51 | in a run that never leaves 0 they stay equal, whatever the length does |
| DejaVuRuns.ReplaysAtZero | src/stochastic_modulator.hpp:26 | after one event at 0.5, an event at 0 puts out an old level |
| Mts.EncodeNote | src/rt_control_thread.cpp:51-69 | the rounding and bending computes an entry within 1/16384 semitone of the pitch of the frequency given, or of the key's own without a positive one, if and only if that lies in [0, 128) |
| Mts.AccurateInRange | src/rt_control_thread.cpp:55-68 | the pitch read back is within 1/16384 semitone if and only if the pitch lies in [0, 128) |
| Mts.NearestInRange | src/rt_control_thread.cpp:65-68 | in that range it is the nearest pitch an entry can stand for, unless that is the next semitone: then one unit short of it |
| Mts.OutsideRange | src/rt_control_thread.cpp:59-68 | outside that range the entry keeps the fraction and has semitone 0 or 127 |
| Mts.TunedInDump | src/rt_control_thread.cpp:91-99 | for every key with a positive frequency the three bytes at its place in the dump read as that pitch within 1/16384 semitone, if and only if it lies in [0, 128) |
| Mts.UntunedInDump | src/rt_control_thread.cpp:91-99 | for every other key they read as its own number, given that the pitch of its equal-tempered frequency is its number |
| Mts.DumpFrame | src/rt_control_thread.cpp:79-106 | the bytes before and after the entries: F0 7E device 08 01 program, sixteen zeros, and the masked exclusive or of bytes 1 to 405 and F7 |
| Mts.MonotoneInRange | src/rt_control_thread.cpp:55-68 | in that range a higher pitch never reads lower |
| Mts.IdentityKey | src/rt_control_thread.cpp:50-56 | a key without a positive frequency gets its own entry with no fraction, given that the pitch of its equal-tempered frequency is its number |
| Mts.ReservedEntry | src/rt_control_thread.cpp:65-68 | for which pitches the entry 7F 7F 7F is produced |
| Mts.BulkDump | src/rt_control_thread.cpp:74-109 | the byte vector built by the loops is the 408-byte dump |
| Mts.AllNotes | src/rt_control_thread.cpp:91-99 | the loop over the keys appends every key's entry in order |
| Mts.Checksum | src/rt_control_thread.cpp:102-104 | the exclusive or of all bytes after the first |
| Mts.DumpSevenBit | src/rt_control_thread.cpp:74-109 | between F0 and F7 every byte has seven bits if and only if program and device id do |
| Mts.ChecksumCancels | src/rt_control_thread.cpp:101-105 | the bytes from the second through the checksum cancel out if and only if program and device id agree in their top bit |
| Mts.KeyInPlace | src/rt_control_thread.cpp:91-99 | each key's entry stands at its place in the dump |

## Left out

- Sockets, threads, file descriptors, signals, the command line, audio and MIDI devices, Link and the session log: plumbing around libraries.
- The EDN parser and the field extraction in `dispatch_message`; graphs start from an EDN value.
- LuaJIT evaluation and handler lookup; of `dispatch_osc` only the argument loop.
- Weak memory orders and the inside of liburcu; the destructor of `rcu_managed`.
- The relaxed race between `update` and `tick` on float members.
- IEEE rounding, NaN and infinities outside the control graph; conversions of out-of-range floats to integers.
- `std::clamp` with its bounds the wrong way round, which the standard leaves undefined.
- The concurrent consumer of the OSC output queue while a tick fires; the queue's own interleavings are `SpscQueue`.
- The reserved header bytes of a frame that is read; they are written as zero and nothing reads them.
- The statistics of the generator, and how likely replay and freeze are between the settings proved.
- The chaos modulators (slope, fractal, sloth, genie, squid, faust), whose properties are mostly ranges of transcendental functions, and the small finite modulators and buffers, each of which is a short table or counter.
