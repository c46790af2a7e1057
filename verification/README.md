# Stratamoto: a verified model

Stratamoto fuzzes Stratum V2 roles with programs in a small typed language, instruction lists in single assignment
form. A builder checks one as it grows, a compiler lowers it to flat actions, a runner carries them out on a
deployment, and oracles judge what came of it. Mutators, generators and minimizers rewrite programs, and a simulated
runtime gives tests a clock and a network. This project models that pipeline in Dafny and proves what it keeps.

How it is organised, in the order the parts depend on each other:

- `Ir` is the language. `Builder` is the type and scope checker, as a transition function on values and as the class
  that performs it. `Scoping` proves its invariants, and that its ids mean lexical blocks. `Lifecycle` proves what
  `finalize` and replay promise, and when they do not keep it. `Renaming` holds one simulation behind every rewrite.
- `Concat`, `Insertion`, `Removal`, `Mutators` are the rewrites; `Nopping`, `Cutting`, `Block` the minimizers; `Stage`
  the fuzzer's stage that drives one, and `Minimization` the three stages repeated.
- `Compiler` is the lowering, again as a function and as the class proved against it. `Soundness` is type soundness,
  and exactly when a valid program does not compile; `Failures` is when and why any program does not. `Texts` reads a
  program without its compiler: what it loads, writes and sends is what its own instructions say. `Protocols` proves that
  the protocols in types are those of the setups sent. `Simulation`, `Homomorphism` and `Weakening` are what rewriting a
  program does to its actions, `Ledger` what the compiler's books say.
- `Events` is the dispatcher, `Runner` the interpreter, `Sightings` what a probe reports. `Blocks` gives compiled actions
  back their block structure and a recursive reading. `Staging` is a reference semantics for programs themselves, with no
  compiled form: values are settled everywhere, effects happen only outside blocks that are skipped.
  `Dominance`, `Runs`, `Traces` and `Owed` state what holds of every run, `Overtaken` shows one, and `Oracle` is what the
  verdicts mean. `Answers`, `Histories`, `Hearings` and `Findings` tell all of that by the frames the peer sends: what an
  await shows, what each action asks and gets, what is known of each connection, and which frames make a finding.
- `Generators`, `Fragments` and `Setups` are the generators: what they append, what it compiles to, what they promise;
  `Placed` is the same at any point outside every block, and `Verdicts` what the oracle makes of each departure they send.
- `Time`, `Waiting` and `Simulated` are the timer, the clock, the network and the executor; `Delivery` is where messages
  and the clock end up, `Sendings` which messages the network takes and that just those arrive, `Turns` that tasks run in
  the order they are made ready, and `Wakeups` that no task waits in vain.

Each source object that changes in place is a class here, and each of its methods is proved equal to a function of its
old state; the theorems are about those functions, over every input, every peer and every run.

A peer is anything that is a function of what the harness has done so far: whether a connection opens, whether a send
fails, which frames arrive while an answer is awaited and why no more do. Random choices are parameters.

Where the code does not do what its documentation says, the code is modelled and the difference is a theorem:

- `finalize` is documented to return a valid program. It does exactly when no earlier append was a block end of the
  wrong kind, since that refusal has already left the scope (`Lifecycle.FinalizedValidIff`, `Lifecycle.MisclosedExample`).
- Checking validity is documented to answer yes or no. It panics exactly on a success-block end that the code before
  it leaves nothing open for (`Lifecycle.ReplayPanicsExactly`, `Lifecycle.ReplayPanicsExample`); on what minimizers
  propose it never does (`Lifecycle.NeverPanics` and the lemmas that use it).
- The simulated clock can go back: asleep until 7 and then arming a timer for 5 takes it from 7 to 5
  (`Delivery.ClockGoesBackExample`). Arming a timer sends it back exactly when the deadline given to `add_timer` is
  before the clock (`Delivery.ArmingSendsBackIff`), and a run's clock goes back exactly when a timer so armed fires
  (`Delivery.ClockGoesBackExactly`). Sleeping and sending never arm one (`Delivery.SleepAndSendArmAhead`).
- A minimizing pass is documented to give up after 200 rejected candidates in a row. It is the 201st that makes it, and
  the stage counts across entries: a pass that gives up has made all those rejections itself exactly when it accepted
  something or nothing was counted before it (`Stage.IrMinimizerStage.GivesUpExactly`). Once the count is past the limit
  a pass does nothing at all, whatever the entry (`Stage.IrMinimizerStage.SpentDoesNothing`):
  in `Minimization.SpentPatienceExample` a stage leaves an entry alone that a fresh one reduces.

## Model

| member | source | states |
|---|---|---|
| Builder.ProgramBuilder.Append | crates/stratamoto-ir/src/builder.rs:121-217 | an append takes the instruction, refuses it with the first failed check, or panics; a refused block end has left its scope all the same |
| Builder.ProgramBuilder.CloseBlock | crates/stratamoto-ir/src/builder.rs:153-167 | the innermost scope is left before its kind is compared with the end's |
| Builder.ProgramBuilder.Check | crates/stratamoto-ir/src/builder.rs:125-151 | input count, scope, types and the context's bounds, in that order, decide the refusal |
| Builder.CheckInputTypes | crates/stratamoto-ir/src/operation.rs:212-229 | reports the first input whose type is not the one wanted, given type first |
| Builder.ProgramBuilder.AppendEach | crates/stratamoto-ir/src/builder.rs:64-73 | a prefix is replayed up to the first instruction not taken |
| Builder.ProgramBuilder.GetNearestVariable | crates/stratamoto-ir/src/builder.rs:254-259 | the latest variable in scope of a type, or none exactly when there is none |
| Builder.ProgramBuilder.GetRandomVariable | crates/stratamoto-ir/src/builder.rs:241-251 | one of the variables in scope of a type, by a draw |
| Builder.IsStaticallyValid | crates/stratamoto-ir/src/lib.rs:49-57 | a program is valid when it replays and finalizes; answers yes or no, or panics where replay does |
| Scoping.RefusalIffInadmissible | crates/stratamoto-ir/src/builder.rs:125-151 | the checks pass exactly when every input is in scope and of its type and the context has what is loaded |
| Scoping.RefusalTold | crates/stratamoto-ir/src/builder.rs:125-151 | the error names the first thing wrong: the count, else the first input out of sight, else the first of the wrong type and both types, else the role or connection there is not |
| Scoping.CloseTold | crates/stratamoto-ir/src/builder.rs:153-167 | a block end of the wrong kind is refused naming the innermost beginning and itself |
| Scoping.FinalizeTold | crates/stratamoto-ir/src/builder.rs:261-273 | a builder finalizes to just its code exactly at global scope, and otherwise names the innermost open beginning |
| Scoping.FreshTold | crates/stratamoto-ir/src/builder.rs:169-217 | what an append hands back is what the operation defines, outer before inner, numbered on from what there was |
| Scoping.AppendPanicsExactly | crates/stratamoto-ir/src/builder.rs:153-167 | the one append that panics is a success-block end at global scope |
| Scoping.StepTaken | crates/stratamoto-ir/src/builder.rs:121-217 | exactly the admissible instructions are taken, block ends only of the innermost block; ids only grow, and the builder stays well formed |
| Scoping.RejectedWellformed | crates/stratamoto-ir/src/builder.rs:156-166 | a refused append too leaves a well formed builder |
| Scoping.Reached | crates/stratamoto-ir/src/builder.rs:90-107 | after any accepted code the stack, the id set and the counter agree with each other and with the lexical blocks |
| Scoping.VisibleIffBlockOpen | crates/stratamoto-ir/src/builder.rs:230-237 | a variable can be seen exactly when the block it was defined in is still open; a nop's never can, scope zero never being active |
| Lifecycle.ValidIsBalanced | crates/stratamoto-ir/src/builder.rs:261-273 | a valid program opens as many blocks as it ends |
| Lifecycle.FinalizedReplays | crates/stratamoto-ir/src/builder.rs:261-273 | a builder with no misclosed block finalizes to a program that replays to the same state |
| Lifecycle.FinalizedValidIff | crates/stratamoto-ir/src/builder.rs:261-273 | what finalize returns is valid exactly when no attempted end was of the wrong kind |
| Lifecycle.MisclosedExample | crates/stratamoto-ir/src/builder.rs:156-166 | two appends after which finalize returns an invalid program |
| Lifecycle.ReplayPanicsExactly | crates/stratamoto-ir/src/lib.rs:49-57 | replay panics exactly at a success-block end with nothing open |
| Lifecycle.ReplayPanicsExample | crates/stratamoto-ir/src/lib.rs:49-57 | checking the program that only ends a success block panics |
| Lifecycle.ValidEndsInside | crates/stratamoto-ir/src/builder.rs:153-167 | in a valid program every block end is inside some block |
| Lifecycle.NeverPanics | crates/stratamoto-ir/src/lib.rs:49-57 | a program whose block ends are all inside blocks is checked without a panic, valid or not |
| Renaming.StepsRelated | crates/stratamoto-ir/src/builder.rs:121-217 | code accepted in one builder is accepted, its inputs renamed, in any builder that can see what it reads, and leaves as many blocks open |
| Renaming.ValidIffGlobal | crates/stratamoto-ir/src/builder.rs:261-273 | valid means replayed to global scope |
| Concat.Splice | crates/stratamoto-ir/src/mutators/concat.rs:27-52 | gives the first program then the second moved past its variables, when that is valid, and fails or panics as its check does otherwise; two valid programs of one context always splice |
| Concat.CountVariables | crates/stratamoto-ir/src/mutators/concat.rs:55-61 | counts every variable, inner ones too |
| Concat.SplicedValid | crates/stratamoto-ir/src/mutators/concat.rs:27-52 | splicing two valid programs is valid, in any context as large as both |
| Concat.FittedValid | crates/stratamoto-ir/src/mutators/concat.rs:27-52 | a program that splices validly loads nothing the first one's context lacks, and is valid in it |
| Insertion.OpenPoints | crates/stratamoto-libafl/src/mutators.rs:158-172 | finds every point outside all blocks, and no other |
| Insertion.DepthIsBuilderDepth | crates/stratamoto-libafl/src/mutators.rs:160-171 | the scan's depth is the builder's, so zero is global scope |
| Insertion.InsertedValid | crates/stratamoto-libafl/src/mutators.rs:174-204 | weakening: inserting any balanced fragment the builder takes there, later inputs shifted, keeps a valid program valid |
| Insertion.InsertedValidIff | crates/stratamoto-libafl/src/mutators.rs:174-204 | and only such fragments do |
| Insertion.Generate | crates/stratamoto-libafl/src/mutators.rs:155-207 | picks a point outside every block and does there just what `Generated` says |
| Insertion.PointDrawn | crates/stratamoto-libafl/src/mutators.rs:155-172 | every point outside all blocks can be the one drawn |
| Insertion.GeneratedMutates | crates/stratamoto-libafl/src/mutators.rs:155-207 | what is inserted is acceptable; on a valid program a fragment that fits is inserted if the result has at most 4096 instructions and skipped if it has more, never a panic |
| Insertion.MoveInputs | crates/stratamoto-libafl/src/mutators.rs:189-198 | what is defined later is read under its new number, the rest as before |
| Removal.BuildMapping | crates/stratamoto-ir/src/lib.rs:75-88 | kept variables are numbered in order; dropped ones point at whatever comes next |
| Removal.WithoutMarked | crates/stratamoto-ir/src/lib.rs:74-108 | the unmarked instructions in order, their inputs renumbered |
| Removal.DropNops | crates/stratamoto-ir/src/lib.rs:60-67 | exactly the nops are dropped |
| Removal.ValidInRange | crates/stratamoto-ir/src/lib.rs:97-101 | renumbering a valid program never reads past the mapping |
| Removal.RemoveNopsValid | crates/stratamoto-ir/src/lib.rs:60-67 | dropping the nops of a valid program leaves a valid one without any |
| Nopping.NoppedValidIff | crates/stratamoto-ir/src/instruction.rs:25-35 | nopping an instruction of a valid program leaves it valid exactly when nothing later reads what it defines |
| Nopping.NoppedNeverPanics | crates/stratamoto-ir/src/minimizers/nopping.rs:55-60 | checking a valid program with an instruction nopped never panics |
| Nopping.NoppableIff | crates/stratamoto-ir/src/instruction.rs:16-35 | just what opens no block and closes none can be nopped |
| Nopping.NoppingLowersLiveCount | crates/stratamoto-ir/src/minimizers/nopping.rs:41-64 | each nop leaves one instruction fewer to try |
| Nopping.NoppingMinimizer.Next | crates/stratamoto-ir/src/minimizers/nopping.rs:41-64 | the next valid candidate; every instruction passed over could not be nopped, or not validly; from a valid program it never panics |
| Nopping.NoppingMinimizer.Success | crates/stratamoto-ir/src/minimizers/nopping.rs:22-27 | an accepted candidate becomes the program and a measure falls |
| Nopping.NoppingMinimizer.Failure | crates/stratamoto-ir/src/minimizers/nopping.rs:28-32 | a rejected one is passed over and the measure falls |
| Cutting.WithoutTail | crates/stratamoto-ir/src/minimizers/cutting.rs:43-55 | dropping the last instructions leaves a prefix, nothing renumbered |
| Cutting.PrefixNeverPanics | crates/stratamoto-ir/src/minimizers/cutting.rs:43-60 | checking a prefix of a valid program never panics |
| Cutting.FirstCutHalves | crates/stratamoto-ir/src/minimizers/cutting.rs:43-60 | the cut proposed is the length halved some number of times, and every halving before it was invalid |
| Cutting.CuttingMinimizer.Next | crates/stratamoto-ir/src/minimizers/cutting.rs:43-60 | proposes the first valid cut among a length and its halvings, each at most half the program; the program is a valid prefix of the first |
| Cutting.CuttingMinimizer.Success | crates/stratamoto-ir/src/minimizers/cutting.rs:23-28 | length plus cut falls, and the cut stays at most half |
| Cutting.CuttingMinimizer.Failure | crates/stratamoto-ir/src/minimizers/cutting.rs:30-33 | the cut halves, and the measure falls |
| Block.FindMatchingEnd | crates/stratamoto-ir/src/minimizers/block.rs:71-85 | the first end that closes one block more than the code since opens |
| Block.MatchFromPairs | crates/stratamoto-ir/src/minimizers/block.rs:71-85 | in any code, found or not, it is the one end whose innermost open block is the one begun |
| Block.MatchingEndPairs | crates/stratamoto-ir/src/minimizers/block.rs:71-85 | in a valid program there is one, and the builder pairs it with the same beginning |
| Block.WithoutBlockShorter | crates/stratamoto-ir/src/minimizers/block.rs:54-60 | removing a block leaves a shorter program |
| Block.WithoutBlockNeverPanics | crates/stratamoto-ir/src/minimizers/block.rs:54-64 | checking a valid program without one of its blocks never panics |
| Block.BlockMinimizer.Next | crates/stratamoto-ir/src/minimizers/block.rs:42-67 | the next block whose removal is valid; no block passed over was |
| Block.BlockMinimizer.Success | crates/stratamoto-ir/src/minimizers/block.rs:22-28 | an accepted candidate is shorter, and the scan starts over |
| Block.BlockMinimizer.Failure | crates/stratamoto-ir/src/minimizers/block.rs:29-32 | a rejected block is passed over |
| Stage.IrMinimizerStage.PerformBlock | crates/stratamoto-libafl/src/stages/mod.rs:82-160 | ends whatever is reported, though the executor fail now and then; runs candidates only while patient, counts failures as `Passed` says, keeps the last accepted and saves it without nops, shorter if any was; seen through, each block that can be removed validly was tried and rejected, so with a deterministic executor none is acceptably removable |
| Stage.IrMinimizerStage.PerformNopping | crates/stratamoto-libafl/src/stages/mod.rs:82-160 | the same of nops: what is kept is the entry with some instructions nopped; seen through with nothing accepted, each instruction that can be nopped validly was tried and rejected |
| Stage.IrMinimizerStage.PerformCutting | crates/stratamoto-libafl/src/stages/mod.rs:82-160 | the same of cuts: what is kept is a prefix of the entry; seen through, the last instruction of several cannot be cut off validly and acceptably |
| Stage.IrMinimizerStage.Try | crates/stratamoto-libafl/src/stages/mod.rs:124-141 | a crash must still crash, or every novelty be retained; patience is reset or spent; nothing changes when the executor itself fails |
| Stage.IrMinimizerStage.KeptReproduces | crates/stratamoto-libafl/src/stages/mod.rs:124-141 | a candidate is kept exactly if running it succeeds and, minimizing a crash, does not end well, or otherwise retains exactly the novelties of the entry |
| Stage.IrMinimizerStage.FailuresAreTrailing | crates/stratamoto-libafl/src/stages/mod.rs:107-141 | the count is of the rejections since the last acceptance, with what was counted before the pass if there was none |
| Stage.IrMinimizerStage.GivesUpExactly | crates/stratamoto-libafl/src/stages/mod.rs:107-110 | a pass that gives up leaves the count one over its patience, all of it rejections of its own exactly when it accepted something or started from zero |
| Stage.IrMinimizerStage.SpentDoesNothing | crates/stratamoto-libafl/src/stages/mod.rs:107-110 | a pass that starts with its patience spent runs nothing and leaves the entry as it is |
| Minimization.SpentPatienceExample | crates/stratamoto-libafl/src/stages/mod.rs:107-141 | one entry spends a stage's patience, and the next is untouched by it and reduced by a fresh stage |
| Minimization.OnlyInstructionExample | crates/stratamoto-ir/src/minimizers/cutting.rs:13-20 | a single instruction that could be cut off, validly and acceptably, is never tried |
| Minimization.Minimize | crates/stratamoto-libafl/src/instance.rs:373-405 | repeating the three passes while one made progress ends, within three passes for each instruction removed and three more, in a valid program that each stage with patience left can do nothing more with |
| Stage.SavedRunsTheSame | crates/stratamoto-libafl/src/stages/mod.rs:145-154 | what is saved is valid, no longer, compiles to the same actions and runs the same against every peer |
| Mutators.SwappedValidIff | crates/stratamoto-ir/src/mutators/input.rs:17-49 | an instruction swapped for one of its signature keeps a valid program valid exactly when the builder takes it there |
| Mutators.RewiredValidIff | crates/stratamoto-ir/src/mutators/input.rs:30-47 | a rewired input is valid exactly when the variable is in scope there and of the old one's type |
| Mutators.MutateInputValid | crates/stratamoto-ir/src/mutators/input.rs:17-49 | whatever the draws, a valid program is rewired to a valid one that differs in one input slot, or nothing was available |
| Mutators.MutateInputReaches | crates/stratamoto-ir/src/mutators/input.rs:17-49 | and every valid rewiring can be drawn |
| Mutators.InputMutator.Mutate | crates/stratamoto-ir/src/mutators/input.rs:17-49 | rewires one drawn input to a drawn variable, or leaves the program alone; a panic of the replay is told apart |
| Mutators.OtherIndexIsOneToOne | crates/stratamoto-ir/src/mutators/operation.rs:148-160 | the draws map one to one onto all other indices in range |
| Mutators.MutationKeepsSignature | crates/stratamoto-ir/src/mutators/operation.rs:84-142 | whether an operation can be rewritten does not depend on the draws; a rewrite changes it, keeps its types, and names what the context has |
| Mutators.MutationValid | crates/stratamoto-ir/src/mutators/operation.rs:84-142 | rewriting an operation of a valid program leaves it valid |
| Mutators.RewritesExactly | crates/stratamoto-ir/src/mutators/operation.rs:84-238 | the rewrites that can be drawn are exactly: another index in range; another word, flags or duration; no text, 255 or 256 letters, or a letter more; bytes a bit away, a byte longer or a byte shorter; one field of a raw header |
| Mutators.OperationMutator.Mutate | crates/stratamoto-ir/src/mutators/operation.rs:49-72 | the first instruction in the order that can be rewritten is, and no other changes; it fails exactly when none can |
| Compiler.Compiler.CompileProgram | crates/stratamoto-ir/src/compiler.rs:200-215 | connections that exist before count as sent on; instructions are compiled in order |
| Compiler.Compiler.CompileInstruction | crates/stratamoto-ir/src/compiler.rs:235-418 | inputs are read, then the instruction's effect is carried out, or the first error reported; `Texts.CompiledAsSaid` and `Failures.FailsExactly` say which, without it |
| Compiler.Compiler.CompileSetup | crates/stratamoto-ir/src/compiler.rs:318-362 | a fresh session, a frame and an await, first only if nothing was sent there; violations noted at the await |
| Compiler.Compiler.CompileExit | crates/stratamoto-ir/src/compiler.rs:378-385 | the exit is written back into the action that entered the block |
| Compiler.Compiler.CompileConnect | crates/stratamoto-ir/src/compiler.rs:261-271 | a fresh connection, its variable recorded |
| Compiler.CompileAllConcat | crates/stratamoto-ir/src/compiler.rs:200-215 | compiling code then more is compiling the first and going on |
| Texts.CompiledAsSaid | crates/stratamoto-ir/src/compiler.rs:235-418 | a valid program's values are what their defining instructions say, each setup with every field as last written or else the default; its actions, origins and tables are those its instructions say, in order |
| Failures.FailsExactly | crates/stratamoto-ir/src/compiler.rs:235-418 | any program fails to compile exactly at the first instruction with a fault, and reports the first: an input short, missing or of the wrong kind in the order read, a block end with none open, or a text over 255 bytes |
| Soundness.CompilerIsSound | crates/stratamoto-ir/src/compiler.rs:235-418 | on accepted code no value is missing or of the wrong shape and no block unbalanced; values are typed as the builder's variables, and open blocks are its success scopes |
| Soundness.ValidCompiles | crates/stratamoto-ir/src/compiler.rs:502-536 | a valid program fails to compile exactly when it sends a setup that, as staged before the send, has a string over 255 bytes; never if it loads none so long |
| Simulation.StepsSim | crates/stratamoto-ir/src/compiler.rs:235-418 | renamed code compiles in a related compiler to the same actions, ids and origins moved |
| Homomorphism.SplicedCompiles | crates/stratamoto-ir/src/mutators/concat.rs:27-52 | whatever the contexts, a valid splice compiles to the first program's actions then the second's, as compiled where it fits, with ids, ends, indices and tables moved; notes can gain only raw frames on connections that existed before |
| Homomorphism.SplicedViolations | crates/stratamoto-ir/src/compiler.rs:346-359 | with no connections beforehand the second program's violations are unchanged |
| Homomorphism.SplicedFails | crates/stratamoto-ir/src/mutators/concat.rs:27-52 | a first program that fails fails the splice the same way |
| Homomorphism.RemoveNopsCompiles | crates/stratamoto-ir/src/lib.rs:60-108 | dropping nops compiles to identical actions, violations and setups; only instruction and variable numbers are relabelled |
| Homomorphism.RelabellingKeepsOrder | crates/stratamoto-ir/src/lib.rs:74-108 | the relabelling never goes down, and goes up past everything kept |
| Weakening.InsertedCompiles | crates/stratamoto-libafl/src/mutators.rs:174-204 | inserting a fragment outside every block compiles to the actions before, the fragment's, and the rest's moved; the tables of instructions, variables and setups are joined so too; notes gain only on setups of earlier connections that the fragment sends on |
| Weakening.StepsKeepValues | crates/stratamoto-ir/src/compiler.rs:235-418 | what is compiled at global scope changes no value from before, a setup under construction being out of sight |
| Ledger.CompiledRecorded | crates/stratamoto-ir/src/compiler.rs:318-418 | the sets of used connections are the sends emitted, every table has an entry for each id and no other, ids are handed out once and in order |
| Ledger.FirstIffFirst | crates/stratamoto-ir/src/compiler.rs:318-362 | a setup is marked first exactly when its connection is new and nothing earlier sends there, exactly when it has no violations; those it has say what preceded it |
| Protocols.ProtocolsAgree | crates/stratamoto-ir/src/compiler.rs:235-418 | in a compiled valid program every answer is awaited for the protocol of the setup its session sent, and every success block is entered on a session whose setup is for the protocol the block names |
| Events.ConnectionState.Receive | crates/stratamoto/src/events.rs:87-132 | every frame is classified, kept, and may answer a pending setup; header issues only for decoded frames |
| Events.ConnectionState.Apply | crates/stratamoto/src/events.rs:157-177 | only a pending setup changes, and then as the event says; what that is of each message is `Events.FirstAnswerDecides` |
| Events.FirstAnswerDecides | crates/stratamoto/src/events.rs:87-177 | a pending setup is agreed to, refused or unexpected exactly as the first decoded message of extension zero is a success, an error or any other, with that message's own fields, whatever else comes before or after |
| Events.EveryFrameKept | crates/stratamoto/src/events.rs:87-132 | every frame is kept, in order, as classified |
| Events.EveryFrameTold | crates/stratamoto/src/events.rs:87-155 | each frame leaves the event that its header, its message type and what it decodes to make it, and is reported for its channel bit alone |
| Runner.Runner.RunActions | crates/stratamoto/src/runner.rs:134-180 | runs every action, or skips a block whole by its jump |
| Runner.Runner.PerformAction | crates/stratamoto/src/runner.rs:269-386 | what each action does to links, states, sessions and roles, and its outcome |
| Runner.Runner.PumpFrames | crates/stratamoto/src/runner.rs:228-265 | frames are dispatched until the setup settles or no more come |
| Runner.Runner.PerformAwait | crates/stratamoto/src/runner.rs:312-362 | the setup is pending, pumped, and its session recorded whatever the outcome; `Answers.AwaitShows` says what is recorded |
| Answers.AwaitShows | crates/stratamoto/src/runner.rs:228-362 | an await on an open connection shows the answer that the first decoded message of extension zero in its window is, or the fault if none is; its session keeps that; and no frame after it is taken |
| Runner.Runner.DrainLinks | crates/stratamoto/src/runner.rs:369-383 | a probe drains every open connection, in whatever order, and reports what it found in order of connection and type |
| Runner.ProbedExactly | crates/stratamoto/src/runner.rs:369-383 | what is reported is sorted, and is every frame found on an open connection, as often as it was, and no other |
| Runner.Runner.UnmetPrerequisite | crates/stratamoto/src/runner.rs:210-224 | a block is unmet exactly when its session was not agreed to |
| Runner.RunIsTotal | crates/stratamoto/src/runner.rs:142-177 | a run ends with one outcome per action, and keeps those it has recorded |
| Blocks.CompiledIsFlattened | crates/stratamoto-ir/src/compiler.rs:364-385 | back-patching is right: compiled actions are the flattening of their own block structure |
| Blocks.CompiledStands | crates/stratamoto-ir/src/compiler.rs:364-385 | every compiled block ends after it begins |
| Blocks.RunInterprets | crates/stratamoto/src/runner.rs:142-177 | where a block tree stands, running by jumps is interpreting it |
| Blocks.RunRefinesBlocks | crates/stratamoto/src/runner.rs:134-180 | for every valid program and peer, the flat run has the outcomes, sessions, states and calls of the recursive one |
| Staging.WalkReacts | crates/stratamoto-ir/src/compiler.rs:200-215 | staging code instruction by instruction has the effects of the actions it compiles to, wherever blocks end |
| Staging.ReactInterprets | crates/stratamoto/src/runner.rs:142-177 | carrying out a block tree's actions by counting open blocks, with no jumps, is interpreting the tree |
| Staging.RunRefinesWalk | crates/stratamoto/src/runner.rs:134-180 | for every valid program that compiles and every peer, the run of its flat actions is the walk of the program itself: every instruction staged, effects only outside skipped blocks |
| Dominance.CompiledIsScoped | crates/stratamoto-ir/src/builder.rs:133-142 | in compiled actions every use comes after its definition, in a block still open |
| Runs.PerformFits | crates/stratamoto/src/runner.rs:269-386 | what can become of each kind of action; never a harness error, never silence as an answer |
| Runs.InterpretDominates | crates/stratamoto/src/runner.rs:145-156 | interpreting scoped blocks attempts no use before its definition was attempted |
| Runs.ScopeDominates | crates/stratamoto/src/runner.rs:145-156 | in every run, an action attempted on a connection the program opens comes after that connect was attempted, and a block is tested only after its session was awaited |
| Traces.CompiledTraced | crates/stratamoto/src/runner.rs:269-386 | in every run the links are what connects opened and sessions what awaits agreed; an action lacks its connection exactly when no connect before it opened it |
| Traces.AttemptedIffAgreed | crates/stratamoto/src/runner.rs:210-224 | an action is attempted exactly when every block around it was reached with its session agreed to |
| Traces.SkippedForOutermost | crates/stratamoto/src/runner.rs:146-156 | otherwise the outermost unmet block is skipped whole, enter to exit, each outcome naming its session |
| Owed.OwedIsFirst | crates/stratamoto-ir/src/compiler.rs:318-362 | in every run an awaited setup's frame, its setup encoded under message type 0, is the call just before, and is the first frame the peer is sent on its connection exactly if every earlier send of the program's there was skipped, as when it is marked first; the outcome is what the window then shows |
| Histories.CompiledTold | crates/stratamoto/src/runner.rs:134-386 | in every run the peer is asked just what the actions not skipped ask, each once and in order; each outcome is what the peer then did; sessions hold the answers shown; probes report what they saw |
| Histories.EachTold | crates/stratamoto/src/runner.rs:269-386 | and each action asks what it says after just what those before it asked, its outcome being what the peer makes of that |
| Histories.AttemptedIffSucceeded | crates/stratamoto/src/runner.rs:210-224 | an action is attempted exactly when, for every block around it, the first message that answered its session's setup was a success |
| Hearings.RunHears | crates/stratamoto/src/events.rs:56-177 | in every run just the connections opened have a state and their role, and each state is what the frames heard on it tell: an event for each in order, the reports, and the setup by the first message since an answer was last awaited |
| Overtaken.NotMarkedYetFirst | crates/stratamoto-ir/src/compiler.rs:318-362 | a run in which a setup that is not marked first is the first frame sent on its connection, a raw frame before it being skipped with its block |
| Oracle.CheckIsExact | crates/stratamoto/src/oracle.rs:179-268 | passes exactly what is not owed, not sent, or conforms to specification and configuration, version rolling being bit 2 of the setup and bit 0 of the success |
| Oracle.RollingBits | crates/stratamoto/src/oracle.rs:13-16 | the masks are just those bits, counted arithmetically |
| Oracle.ScanIsFirst | crates/stratamoto/src/oracle.rs:90-131 | the first action with something against it is reported |
| Oracle.CompiledJudged | crates/stratamoto/src/oracle.rs:90-131 | action by action, what is held against a run is an owed setup not answered well, and never the harness |
| Oracle.JudgementIsExact | crates/stratamoto-scenarios/src/setup_connection.rs:63-84 | on every run integrity holds and no internal arm is reached; the finding is the first owed setup without a conforming answer, and says what is wrong with it; ok exactly when there is none and the deployment serves |
| Oracle.VerdictTold | crates/stratamoto/src/oracle.rs:40-131 | of any run at all: the infrastructure's fault exactly if the books do not balance, a finding at the first setup with something held against it, and otherwise by whether the deployment serves; with what is wrong in each case |
| Findings.VerdictByFrames | crates/stratamoto/src/oracle.rs:90-268 | on every run the finding is the first setup owed an answer whose first decoded message of extension zero is none the role may give, or does not come; ok exactly when there is none and the deployment serves |
| Generators.SetupTaken | crates/stratamoto-ir/src/generators/setup_connection.rs:226-268 | a setup is taken on any connection in scope, and leaves every block as it was |
| Generators.RawTaken | crates/stratamoto-ir/src/generators/raw_frame.rs:33-52 | so is a raw frame |
| Generators.OpenTaken | crates/stratamoto-ir/src/generators/setup_connection.rs:213-219 | opening a connection is taken exactly when the context has the role |
| Fragments.SetupCompiles | crates/stratamoto-ir/src/generators/setup_connection.rs:226-268 | it compiles to the setup asked for, whichever optional fields it writes |
| Fragments.RawCompiles | crates/stratamoto-ir/src/generators/raw_frame.rs:33-52 | it compiles to those bytes under that header |
| Setups.ConformingFragment | crates/stratamoto-ir/src/generators/setup_connection.rs:71-95 | after any valid program, for every draw, a fresh setup is version 2 to 2, has only flags its subprotocol defines, is first and has no violations |
| Setups.AdversarialFragment | crates/stratamoto-ir/src/generators/setup_connection.rs:139-193 | each variant departs in exactly the way it names, and put right in that alone conforms |
| Setups.VersionsDrawn | crates/stratamoto-ir/src/generators/setup_connection.rs:145-162 | no version is asked for as 3 to 2; an unknown one is 0, 1, 3 or 65535 by the draw |
| Setups.FlagsDrawn | crates/stratamoto-ir/src/generators/setup_connection.rs:163-172 | any defined flags can be drawn, and undefined ones added to them take none away |
| Setups.MiningAdded | crates/stratamoto-ir/src/generators/setup_connection.rs:163-172 | the undefined bits drawn are added, or the lowest one, bit 3, where none is drawn |
| Placed.ConformingPlaced | crates/stratamoto-libafl/src/mutators.rs:155-207 | at any point outside every block the conforming fragment adds a connection and its setup, and leaves the actions and notes around it as they were, later ids moved past its own |
| Placed.AdversarialPlaced | crates/stratamoto-libafl/src/mutators.rs:155-207 | so does each departing fragment, its own setup noted for just what came before it |
| Placed.ConformingIs | crates/stratamoto-ir/src/generators/setup_connection.rs:196-220 | what is appended for a new connection is its opening and then the setup |
| Verdicts.DeparturesJudged | crates/stratamoto/src/oracle.rs:179-268 | after any program and for every peer: a setup departing in a field is held against the role exactly when sent and badly answered; one after a raw frame, or a second one, never is |
| Verdicts.SetupHeld | crates/stratamoto/src/oracle.rs:107-131 | in any run a setup marked first is held to a conforming answer exactly when it was sent; one not first never is |
| Verdicts.OneVersionIsAgreed | crates/stratamoto/src/oracle.rs:226-268 | a single proposed version is agreed to or the setup refused, and only refused by a role without it |
| Verdicts.UndefinedFlagsDoNotMatter | crates/stratamoto/src/oracle.rs:226-268 | flags the subprotocol leaves undefined make no difference to what conforms |
| Verdicts.UnknownIsRefused | crates/stratamoto-ir/src/generators/setup_connection.rs:153-162 | against a role of version 2 alone, a departing unknown version can only be refused |
| Setups.SomeUndefined | crates/stratamoto-ir/src/generators/setup_connection.rs:163-172 | at least one undefined flag bit whatever the draw |
| Setups.ConformingTaken | crates/stratamoto-ir/src/generators/setup_connection.rs:71-95 | in any block, on a new or reused connection, the fragment is taken and balanced, or refused before anything for a role there is not |
| Setups.AdversarialTaken | crates/stratamoto-ir/src/generators/setup_connection.rs:139-193 | so are the departing ones |
| Setups.RawFragmentTaken | crates/stratamoto-ir/src/generators/raw_frame.rs:18-53 | so is the raw frame, which opens a connection only if none is in scope |
| Setups.RawFragmentBounded | crates/stratamoto-ir/src/generators/raw_frame.rs:18-53 | a raw frame has fewer than 64 bytes and an extension without the channel bit |
| Setups.FragmentFits | crates/stratamoto-libafl/src/mutators.rs:155-207 | such a fragment can be inserted at any point outside every block |
| Setups.Connection | crates/stratamoto-ir/src/generators/setup_connection.rs:196-220 | reuses a drawn connection in scope or opens one, by the choice |
| Setups.ReusedTold | crates/stratamoto-ir/src/generators/setup_connection.rs:196-220 | a connection is reused exactly if it may be, the draw is for it where it decides, and one is in scope |
| Setups.AnyIsReused | crates/stratamoto-ir/src/generators/setup_connection.rs:196-220 | and any in scope can be the one |
| Setups.SetupConnectionGenerator.Generate | crates/stratamoto-ir/src/generators/setup_connection.rs:71-95 | appends the conforming fragment, stopping at the first refusal |
| Setups.AdversarialSetupGenerator.Generate | crates/stratamoto-ir/src/generators/setup_connection.rs:139-193 | appends the departing fragment, stopping at the first refusal |
| Setups.RawFrameGenerator.Generate | crates/stratamoto-ir/src/generators/raw_frame.rs:18-53 | appends the raw fragment, stopping at the first refusal |
| Time.Timer.Fire | crates/stratamoto-dst/src/time/timer.rs:22-30 | fires what is due, earliest first, each once, and leaves the rest |
| Time.Timer.Pop | crates/stratamoto-dst/src/time/timer.rs:52-55 | takes a timer no other is due before |
| Time.NextTime | crates/stratamoto-dst/src/time/timer.rs:18-20 | the earliest deadline |
| Time.TimeRuntime.Advance | crates/stratamoto-dst/src/time/mod.rs:38-47 | fires what is due at the next deadline and then sets the clock there, never before its start |
| Time.FiresAtNext | crates/stratamoto-dst/src/time/mod.rs:38-47 | what fires is due exactly then |
| Simulated.RunKept | crates/stratamoto-dst/src/task.rs:113-148 | every step of every run keeps the books of timers armed, pending and fired, and of killed nodes |
| Simulated.TimersFireOnce | crates/stratamoto-dst/src/time/timer.rs:22-30 | in every run a timer fires at most once, when the clock is set to its deadline |
| Simulated.MessagesArriveOnce | crates/stratamoto-dst/src/net/network.rs:104-127 | in every run an accepted message arrives at most once, by default at least 1 ms and less than 10 ms after it was sent |
| Delivery.TimersNeverLost | crates/stratamoto-dst/src/time/timer.rs:14-30 | in every run each timer armed is still pending or has fired |
| Delivery.ReceivedInOrder | crates/stratamoto-dst/src/net/mod.rs:88-116 | in every run what was delivered to an address, in order, is what was received there, in order, and then what its mailbox holds |
| Delivery.MessagesArriveExactlyOnce | crates/stratamoto-dst/src/net/network.rs:104-127 | in every run, once the clock is past the longest latency, an accepted message has been delivered, exactly once, and that delivery was received in its turn or is in the mailbox |
| Sendings.SendsArm | crates/stratamoto-dst/src/net/network.rs:104-127 | in every run what is sent to an address in use, neither end clogged and not lost, has its delivery armed right then, of those data to that address after that latency; nothing else has one |
| Sendings.TakenArrives | crates/stratamoto-dst/src/net/network.rs:104-127 | so past the longest latency a message that was sent and taken was delivered exactly once, and was received in its turn or is in the mailbox |
| Turns.EffectsMade | crates/stratamoto-dst/src/time/mod.rs:73-103 | a task makes happen, in order and at the time the clock shows, just what it spawns, sleeps for, arms, sends and kills; a sleep wakes the task itself, and only one that ends later is armed |
| Turns.TurnsInOrder | crates/stratamoto-dst/src/task.rs:140-148 | in every run tasks spawned, woken by a timer or told of a message have their turns in that order, each once for each; a turn drops the task exactly if its node was killed before |
| Wakeups.WakeupsNotLost | crates/stratamoto-dst/src/net/mod.rs:88-116 | in every run, while a task waits at an address no more messages lie there than tasks have been told of one, and each told is ready or has run since |
| Wakeups.NoneWaitsInVain | crates/stratamoto-dst/src/task.rs:130-138 | when time is about to move, a task waits for a message that is there only if another told of one has run since and left it |
| Wakeups.LookTold | crates/stratamoto-dst/src/net/mod.rs:88-116 | a task that looks takes the oldest message, or is in line, at the end if it was not before |
| Wakeups.TryTold | crates/stratamoto-dst/src/net/mod.rs:100-104 | a task that takes without waiting takes the oldest, if any, and stays in every line |
| Delivery.ArmingSendsBackIff | crates/stratamoto-dst/src/time/mod.rs:100-103 | with nothing armed overdue, arming a timer sends the clock back exactly when its deadline is before the clock |
| Delivery.ClockGoesBackExactly | crates/stratamoto-dst/src/time/mod.rs:38-47 | in every run the clock goes back exactly when a timer fires that was armed for a moment before the clock |
| Delivery.ClockGoesBackExample | crates/stratamoto-dst/src/time/mod.rs:100-103 | a run of one task whose clock goes from 7 to 5 |
| Delivery.ClockNeverGoesBack | crates/stratamoto-dst/src/task.rs:130-148 | the clock moves only when nothing is ready, and never back unless a timer was armed for the past |
| Delivery.SleepAndSendArmAhead | crates/stratamoto-dst/src/time/mod.rs:73-84 | sleeping and sending arm nothing for the past |
| Simulated.KilledNeverRuns | crates/stratamoto-dst/src/task.rs:140-148 | once a node is killed nothing of it runs |
| Simulated.Executor.BlockOn | crates/stratamoto-dst/src/task.rs:113-138 | ready tasks run, each doing what it does in that round, and with none ready time moves as long as what is waited for is not done; what is done is a run; it panics exactly if the task then run does, finishes exactly when that is done with nothing ready, blocks only with nothing armed, and is else watched to the end of its rounds |
| Simulated.Executor.Advance | crates/stratamoto-dst/src/time/mod.rs:38-47 | time moves and callbacks run as a step of a run, a delivery making the first task in line for it ready |
| Simulated.Executor.SendMessage | crates/stratamoto-dst/src/net/network.rs:104-127 | what is sent is dropped, or armed for delivery after its latency; `Sendings.SendsArm` says which |
| Simulated.Executor.ReceiveMessage | crates/stratamoto-dst/src/net/mod.rs:88-116 | the oldest message is taken, or the task waits in line for one |
| Simulated.Executor.Drop | crates/stratamoto-dst/src/task.rs:140-148 | a task dropped unrun leaves every line, and the next in line is told in its place |

## Left out

- Bytes of a message and of its header: encoding a setup is opaque and fails only for a string over 255 bytes of UTF-8; the conversion failure of other fields and any other encoder error have no arm here.
- Sockets, the Noise handshake and the codec: a transport is frames in order and a reason for no more.
- Deadlines and elapsed times of a run: an await sees a finite window of frames chosen by the peer, from the history so far and whether the answer is owed.
- Machine integers: ids, indices and lengths are unbounded, so overflow of a counter is not modelled; 8, 16 and 32 bit message fields are exact.
- MutateOperation: a word or duration becomes any other value, a superset of the edges, bit flips and bounded durations drawn; the retry loops are one choice of a value that differs.
- Mutate: the order in which instructions are tried is any list of all their positions.
- ReceiveMessage: a channel is a queue of messages and a line of waiting tasks, told one by one of each message; a task that stops waiting hands on what it was told. How the channel library does that is not part of this model, nor is that `recv_from` copies only as much as its buffer holds.
- Pop: which of several timers with one deadline fires first is not fixed by the source; here it is the one armed longest.
- BlockOn: watched for a bounded number of rounds, since tasks may go on forever; the theorems are about runs of every length.
- PerformBlock, PerformNopping and PerformCutting: an executor that fails on one candidate for ever keeps the stage for ever, so the contracts ask that none does as long as there is an entry to reduce and patience left; the branch for a candidate that is not valid cannot be reached and is not here.
- SetupConnectionGenerator: fragments are appended as a list that stops at the first refusal, as the chain of early returns does.
- AnyRoleSetup and its siblings: a role drawn from the deployment and then the generators above.
- Text of errors, pretty printing, logging and file handling.
- Clog and unclog as effects: an address is clogged throughout a run or not at all.
- Task bodies, futures and wakers: what a task does is any list of effects; a node stands for its task information, so an address reused after a kill is another node.
- Comparison of server error codes, left to each implementation by section 3.5 of the Stratum V2 specification.
- Process, node, virtual machine, share directory and fuzzing framework code: calls into code outside the model.
