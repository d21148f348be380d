# Proofs about capnpc-wasm

Dafny models of the parts of the repository where a mistake would be hard to
see, and proofs of what they promise. `dafny verify dfyconfig.toml` checks them.

- **Interruptible WebAssembly.** The module rewriter that injects polls, as a
  compiler pass: `Wasm` (semantics), `Rewriter` and `Checks` (the pass on
  structured code), `Preservation` (meaning), `Latency` and `Exhaustion`
  (polls come in time), `Containment` (a stop ends the guest), `Runs` and
  `Runtime` (the host); `FunctionBody`, `Sections`, `SectionPass`,
  `IndexSpace`, `OutputSpace` and `Plans` (the pass on flat code and on
  sections); `Leb`, `Codec` and `BoundMemory` (bytes).
- **Worker cancellation.** `Protocol`, `ProtocolInvariant`, `ProtocolSafety`
  and, with the client's fields, `WorkerClient`.
- **The Go SDK.** `GuestPath`, `MemoryFs`, `MemoryFsSafety`, `MemoryFsMeaning`,
  `MemoryFsCalls`, `MemoryFsObjects` and `Staging` (the in-memory filesystem), `Utf8`,
  `Validate` and `ValidateGo` (the two validators), `Lifecycle` (jobs and Close).
- **Tools.** `SiteSwap` (publishing Schema Studio), `Publish`, `Paths`,
  `Arguments` and `Translation` (the launcher), `Spdx` (license expressions),
  `Ledger` (the nightly streak).

## How the models are built

- Wasm code is structured and its semantics takes fuel for calls and for
  loops that go round; running out of fuel is a result of its own, so
  divergence is a statement over all fuels. `Bad` and `Stuck` mark code that
  does not validate, about which nothing is claimed. Numbers are i32;
  references are opaque to the host, which returns numbers and cannot resize
  the memory. A meter, which no instruction can observe, counts the work and
  the ticks of the countdown between polls and lists what ran after a stop.
- `Plan` is what the section pass knows before the code section: at most one
  import is the exit call and the module names no import of the poll.
  `Plans.PlanHolds` derives the rest of what the code rewrite relies on from
  the sections that `SectionPass.Instrument` accepts.
- The worker client, its workers, the queues, the shared cell and the timers
  are one state; every callback, timer and message is an event, so a run is
  any sequence of events. Ids are unbounded and tokens are their 32-bit
  images. The Go lifecycle is modelled the same way: a mutex section, a channel
  operation and the entry and exit of the Once are one step each.
- In `MemoryFs`, `Validate` and the launcher's paths, a character stands for a
  byte wherever only `/` and other ASCII characters matter; sizes in UTF-8 are
  computed. Nodes are named by the order of their creation.
- `SiteSwap` and `Publish` let every file operation fail, and `SiteSwap` lets
  the process end between any two of them. Directory listings come in any
  order; that they are sorted matters only to `Publish`, which sorts.
- Times in `Ledger` are seconds and dates are day numbers. In `Spdx` the
  look-ups of identifiers are parameters.

## Findings

Claims of the documentation that the code meets only under a condition. Each
condition is stated on the input and proved both ways.

- A compile that names a path does not always end with a source prefix that
  holds the current directory, as the comment at bin/capnp-wasm.ts:1337-1347
  says. `Translation.CoveredExactly` has the condition, and
  `Translation.CoveredWithInclude` what is left of it when the launcher adds
  the bundled include; `Translation.DanglingOption`
  (`compile --no-standard-import a.capnp -o`) and `Translation.StrayName`
  (`compile -- --src-prefix .`) are inputs.
- A counted day of the nightly streak may hold a failed run, when a later run
  of the same day passed (scripts/audit-nightly.ts:74-79 promises otherwise of
  a second run): `Ledger.OldestDay` and `Ledger.CountedDayWithAFailure`. It is
  then the oldest counted day, and the recorded end names the run.
- The newest cycle is not on today or the day before, as
  scripts/audit-nightly.ts:77-78 says, when a completed run is dated later than
  today: `Ledger.NewestCycle` and `Ledger.CycleAfterToday`.

Outcomes that the documentation does not mention, with their exact condition.

- An open for creating and truncating without write access fails and leaves
  the new file: `MemoryFsMeaning.FailedOpen` and `MemoryFsMeaning.LeftBehind`.
- The comment at scripts/build-studio.ts:279-285 says that a failure of the
  swap puts the live entries back, as it does; entries with new names that had
  moved stay beside them, also after a recovery. `SiteSwap.OldSiteAlways` and
  `SiteSwap.OldSiteAfterRollBack` say when none can, and
  `SiteSwap.NewNameStays` is an input.

## Model

| member | source | states |
|---|---|---|
| Preservation.MeaningPreserved | sdk/typescript/rewriter.ts:948-1234 | under every host that answers each poll with 0, a call of any function of the original module and the same call in the instrumented module end alike: same results, memory, table, original globals, traps, exceptions and trace of import calls, up to the renumbering of function references; a finished run of either side is matched by the other |
| Preservation.DivergencePreserved | sdk/typescript/rewriter.ts:956-1189 | the instrumented call halts exactly when the original one does |
| Preservation.SimExec | sdk/typescript/rewriter.ts:956-1189 | the simulation itself, for every stretch of code, both states, any fuel: the rewritten code moves related states to related outcomes |
| Checks.ExecCheck | sdk/typescript/rewriter.ts:393-422 | running the injected check leaves stack and locals alone, polls exactly when the countdown is 0, traps on a nonzero answer and otherwise decrements the countdown |
| Checks.ExecCharge | sdk/typescript/rewriter.ts:425-483 | running the injected charge keeps the size operand on the stack, polls when its ticks, unsigned, reach the countdown, and subtracts them otherwise; only the scratch local and the countdown change |
| Checks.SmallIsFree | sdk/typescript/rewriter.ts:1132-1140 | a bulk operation goes uncharged exactly if its size is the literal right before it and comes to no ticks |
| Latency.PollLatency | sdk/typescript/rewriter.ts:948-1149 | under every host, at every point of every run: the ticks spent since the last poll and the countdown are together at most the interval, and every stretch between two polls, and the current one, spent at most the interval and did at most frame * (interval + depth at the poll that began it + 1) + one bulk operation of work |
| Latency.LaterLatency | sdk/typescript/runtime.ts:299-320 | the same from any store that an earlier call left, as _start after a start function: each further call from outside adds at most one leaf function to a stretch |
| Latency.NoPollIsFinite | sdk/typescript/rewriter.ts:948-1149 | a call that consults no poll is finite, recursion included: given more fuel than that bound, it ends or polls |
| Exhaustion.InvokeBurns | sdk/typescript/rewriter.ts:948-1008 | a run of any module that uses up its fuel executed at least as many instructions since it began, or since a poll |
| Latency.BudgetCovers | sdk/typescript/rewriter.ts:1122-1149 | the frame and leaf weights computed from a module cover all of its rewritten functions and thunks |
| Containment.StopContained | sdk/typescript/rewriter.ts:1009-1036 | under a host that zeroes the countdown when it records a stop, a run with a recorded stop traps, and after the stop it executed only the rest of a check: no guest instruction, no import, no catch handler; through direct calls, tail calls, tables and references alike |
| Runs.StopIsFinal | sdk/typescript/runtime.ts:275-300 | once a stop is recorded, no run of any module changes the stop, its reason or the trace of imports |
| Runs.InvokeKeeps | sdk/typescript/runtime.ts:275-300 | whatever every host answer keeps of the host's state, every run keeps |
| Runs.InvokeAlike | sdk/typescript/runtime.ts:313-320 | hosts that agree until one records a stop give runs that agree until then |
| Runtime.RuntimeHalts | sdk/typescript/runtime.ts:254-300 | once it holds the countdown, the runtime is a host as StopContained needs it |
| Runtime.NothingActsAfterStop | sdk/typescript/runtime.ts:275-300 | after a stop, no import acts and no poll changes what was recorded first |
| Runtime.KnownOrNot | sdk/typescript/runtime.ts:254-257 | before the countdown is known, the runtime behaves alike but for the zeroing |
| Runtime.RuntimeKeepsReason | sdk/typescript/interrupt.ts:155-172 | a recorded cancellation always carries the reason that the control observed first |
| Runtime.UndisturbedJob | sdk/typescript/runtime.ts:252-331 | a job that nobody cancels, with calls that never fail, ends as if its guest were not instrumented |
| Runtime.CommandContained | sdk/typescript/runtime.ts:252-331 | a stop recorded during _start contains the guest, whatever it had set up before |
| Runtime.StartContained | sdk/typescript/runtime.ts:303-320 | a start function either was stopped or leaves the guest ready for _start |
| Runtime.RuntimeHeeds | sdk/typescript/interrupt.ts:155-172 | every answer of the runtime keeps this: no moment that was looked at asked for anything, but for the last one, which carries the recorded reason; so a job stops at the first look at which its cell, its signal or its deadline asks it to |
| Runtime.PollStops | sdk/typescript/runtime.ts:291-300 | a poll answers 1 exactly when a stop is recorded, and else 0, and at a moment that asks for one it records the cancellation |
| Runtime.ExitRecords | sdk/typescript/runtime.ts:262-288 | proc_exit records the code that the guest passed, and leaves the memory alone |
| Runtime.ImportReturns | sdk/typescript/runtime.ts:279-288 | an undisturbed import gives the guest the results and the memory of the real one, once |
| Runtime.ImportRaises | sdk/typescript/runtime.ts:262-288 | an import that raises stops the guest with its error and leaves the memory alone |
| Runtime.RunCommand | sdk/typescript/runtime.ts:223-355 | the first recorded stop alone decides, by its kind: a cancellation rejects with its reason, a host error is reported, an exit with a code other than 0 or of a read-only job has no files, and an exit with 0 or a return of a writable job has exactly the collected files or their error; _start runs exactly when the start function was not stopped and the module is an instrumented command, and a trap, exception or exhaustion is an error of the guest |
| Runtime.JobControl.Cancelled | sdk/typescript/interrupt.ts:155-172 | the job halts exactly when it already had a reason, or the cell holds its token, or the signal does not throw and is aborted or the deadline has passed; the recorded reason is that of the first of these in this order, and a throwing signal is passed on |
| Runtime.JobControl.Sleep | sdk/typescript/interrupt.ts:183-200 | sleeping looks at the control between any number of waits and ends at the first reason |
| Runtime.Supervisor.Import | sdk/typescript/runtime.ts:279-288 | the wrapper around every import: inert after a stop, polls first, and turns an exception into a stop |
| Runtime.Supervisor.Interrupt | sdk/typescript/runtime.ts:291-300 | the poll: 1 after a stop or cancellation, and an exception of the signal stops the guest |
| FunctionBody.RewriteFunction | sdk/typescript/rewriter.ts:956-1189 | one pass over the flat instructions of a body emits exactly the flattening of the structured rewrite, with the entry check and the scratch local decided by what the body contains; it is refused exactly when a charged body leaves no local for sizes, and a function within the engines' limit stays within it |
| Rewriter.ReferenceKeepsType | sdk/typescript/rewriter.ts:590-601 | a renumbered reference keeps the type of the function it named and never names an import |
| Rewriter.ReferenceIsInjective | sdk/typescript/rewriter.ts:590-601 | distinct functions keep distinct references |
| SectionPass.Instrument | sdk/typescript/rewriter.ts:539-1390 | the pass succeeds exactly on sections in strictly increasing order whose types, exports, code and memory are in range (no reserved export, no undeclared reference, a memory, a body for every function); then its output has every section rewritten for the final layout, every added entry once, in required order, and a thunk for exactly the imports that escape |
| OutputSpace.IndicesLead | sdk/typescript/rewriter.ts:708-946 | position by position, for every section of an accepted module: an export, the start function, a function or segment entry and every reference in an initializer or in code names in the output what it named in the input; the exported countdown is the first global after the imported and the defined ones |
| OutputSpace.NamesLead | sdk/typescript/rewriter.ts:1240-1261 | each function name of the output names what it named in the input |
| OutputSpace.AddedLead | sdk/typescript/rewriter.ts:655-706 | a section that the input lacked holds the added entry alone: the poll's type or import, the countdown, its export, or the declared thunks |
| OutputSpace.SameType | sdk/typescript/rewriter.ts:580-581 | what names the same thing has the same type, and is never the added import |
| OutputSpace.FunctionTypesAre | sdk/typescript/rewriter.ts:741-780 | the function index space begins with the function imports in their order, each with its type |
| SectionPass.Pass.SynthesizeBefore | sdk/typescript/rewriter.ts:681-706 | everything due before a section of a given order is there when that section is written |
| SectionPass.Pass.ReferenceTo | sdk/typescript/rewriter.ts:590-601 | the index given to a reference while the thunk map grows is its index in the final layout; only a sealed map refuses, and only an unknown import |
| SectionPass.Pass.ReadMemory | sdk/typescript/rewriter.ts:1355-1361 | the memory section leaves its bounded payload, or is refused when it cannot be bounded |
| IndexSpace.ReferenceResolves | sdk/typescript/rewriter.ts:590-601 | in the output's function index space, every reference has the type it had, lies beyond the imports, and an escaping import has its own thunk |
| IndexSpace.ReferencesDiffer | sdk/typescript/rewriter.ts:590-601 | no two functions share a reference |
| IndexSpace.ShiftResolves | sdk/typescript/rewriter.ts:580-581 | direct calls, exports and start functions keep their type and never name the added import |
| IndexSpace.OncePerKind | sdk/typescript/rewriter.ts:655-706 | a section of the output of the same kind as one of the input is the rewritten one |
| IndexSpace.CodeAgrees | sdk/typescript/rewriter.ts:1194-1234 | code uses only references declared before it, and gives them the index that the other sections give |
| Plans.PlanHolds | sdk/typescript/rewriter.ts:580-601 | what the section pass accepts gives the code rewrite all it relies on: every type index is in range, every reference in the code is a defined function or has a thunk, and every thunk is an import |
| Leb.U32RoundTrip | sdk/typescript/rewriter.ts:17-80 | reading a written u32 gives it back, whatever follows, in at most five bytes |
| Leb.S32RoundTrip | sdk/typescript/rewriter.ts:17-162 | reading a written i32 gives it back, whatever follows |
| Leb.U32Accepted | sdk/typescript/rewriter.ts:30-45 | whatever is read is a u32, and at least one byte was consumed |
| Codec.Reader.U32 | sdk/typescript/rewriter.ts:30-45 | the loop over the groups computes the specified decoding and moves the position past it |
| Codec.Reader.S32 | sdk/typescript/rewriter.ts:46-61 | the same for signed integers, with the sign of the last group |
| Codec.Writer.Fill | sdk/typescript/rewriter.ts:126-135 | filling a slot puts the content where the slot was reserved, and the length grows with it |
| Codec.Writer.Finish | sdk/typescript/rewriter.ts:136-150 | the emitted bytes are the contents, and as many as the length says |
| Codec.WriteSection | sdk/typescript/rewriter.ts:603-612 | a framed section holds its id, the LEB128 size of its content, and the content |
| BoundMemory.OnlyTheMemoryChanges | sdk/typescript/rewriter.ts:216-258 | bounding succeeds only on a module with exactly one memory section; all others stay, byte for byte and in order, and the memory keeps its initial size with the lower of both maxima |
| BoundMemory.BoundTwice | sdk/typescript/rewriter.ts:184-258 | bounding by a and then by b is bounding by the lower of both, and fails when that fails |
| BoundMemory.BoundedMemory | sdk/typescript/rewriter.ts:184-213 | reading the payload and writing the new one, with each of its errors |
| BoundMemory.BoundMemory | sdk/typescript/rewriter.ts:216-258 | the whole module with its memory section replaced |
| ProtocolInvariant.RunInv | sdk/typescript/worker-client.ts:191-456 | the invariant of client, workers, messages and cells over every run of events |
| ProtocolInvariant.StepInv | sdk/typescript/worker-client.ts:191-456 | each event keeps it: start, reply, delivery, timeout, abort, error, end of grace, dispose |
| ProtocolSafety.CancellationHitsItsOwnJob | sdk/typescript/worker-client.ts:255-282 | a guest that finds its token in the cell belongs to an exchange whose caller was already told so, and a live worker's cell is nonzero only while the exchange with that token is stopping; ids may be of any size, so also after tokens wrap |
| ProtocolSafety.OneUnreportedMessage | sdk/typescript/worker-client.ts:212-338 | a live worker has at most one unreported message, exactly while an exchange with it is open, and every job it serves finds an engine |
| ProtocolSafety.SettlesOnce | sdk/typescript/worker-client.ts:219-321 | every caller's promise settles exactly once, when its exchange stops running |
| ProtocolSafety.WaiterWakes | sdk/typescript/worker-client.ts:341-360 | a job that waits for a cancelled one waits for an exchange that can still leave, or was already woken |
| ProtocolSafety.StepMoves | sdk/typescript/worker-client.ts:233-321 | what each event may do to each exchange: replies settle only the exchange they name, and a stopping exchange leaves only by its report, the end of grace or the stop of its worker |
| ProtocolSafety.GraceEnds | sdk/typescript/worker-client.ts:272-275 | the end of grace closes the exchange, wakes its waiter and terminates the worker |
| ProtocolSafety.InterruptEnds | sdk/typescript/worker-client.ts:255-276 | a cancelled start-up, and an aborted job without a cell, lose their worker at once; every other running job gets its grace, keeps its worker, and a shared cell holds its token |
| ProtocolSafety.ReportEnds | sdk/typescript/worker-client.ts:290-319 | a report settles a running exchange with its answer or unwinds a cancelled one, and leaves its worker attached, as ready as it was and with a clear cell |
| ProtocolSafety.FailureEnds | sdk/typescript/worker-client.ts:247-253 | a failing worker takes its open exchange with it and is detached |
| ProtocolSafety.TokenIs | sdk/typescript/worker-client.ts:190-194 | the token is the one 32-bit signed integer congruent to the id, which is what a shared cell keeps of it |
| ProtocolSafety.CancellationReaches | sdk/typescript/worker-client.ts:255-282 | in every run, a cell holds the token of the cancelled job until that job has left, so its guest finds it |
| ProtocolSafety.BeginWaits | sdk/typescript/worker-client.ts:341-360 | a new job waits exactly for the job that is still stopping, if there is one |
| ProtocolSafety.WaitEnds | sdk/typescript/worker-client.ts:341-367 | the wait ends well once the cancelled job has left; given up, it ends the new job and changes nothing else |
| ProtocolSafety.ReadyServes | sdk/typescript/worker-client.ts:412-427 | a ready worker gets the job's message under a fresh id, and no worker is started |
| ProtocolSafety.UnreadyStarts | sdk/typescript/worker-client.ts:412-450 | otherwise a start-up is posted first, to the attached worker or to a fresh one with a clear cell |
| ProtocolSafety.StartEnds | sdk/typescript/worker-client.ts:429-450 | a started worker is ready and takes the job; a failed start stops it and ends the job |
| ProtocolSafety.ReadyRefuses | sdk/typescript/worker-client.ts:412-427 | a job that is late or aborted when its turn comes posts nothing, and when postMessage throws, its exchange ends at once and the worker is stopped |
| ProtocolSafety.JobEnds | sdk/typescript/worker-client.ts:425-447 | a job is over once its exchange has an outcome, and one rejected before it had any is over at once, its unfinished start-up stopped |
| ProtocolSafety.FactoryEnds | sdk/typescript/worker-client.ts:429-450 | the factory yields a compiler exactly if its worker started, which is then ready; otherwise that worker is stopped |
| ProtocolSafety.WorkerTakes | sdk/typescript/worker.ts:68-72 | a worker takes its messages in order |
| ProtocolSafety.WorkerAnswers | sdk/typescript/worker.ts:68-100 | a worker answers the message it took under that message's id, gets its engine from a start-up that succeeds, and without one only has an error for a job |
| ProtocolSafety.NoWorkerAfterDispose | sdk/typescript/worker-client.ts:451-456 | after dispose, over every continuation: no worker is created, alive or attached, and no exchange is open |
| ProtocolSafety.DisposeEndsAll | sdk/typescript/worker-client.ts:451-456 | dispose ends everything pending at once |
| WorkerClient.Compiler.FreshId | sdk/typescript/worker-client.ts:191-194 | the next id is the smallest larger one whose 32-bit token is not 0 |
| WorkerClient.Compiler.Exchange | sdk/typescript/worker-client.ts:212-338 | the fields after posting a message, or after a refusal of postMessage, are those of the protocol's step |
| WorkerClient.Compiler.InterruptExchange | sdk/typescript/worker-client.ts:255-276 | interrupting updates state, cell and waiter as the protocol's step says |
| WorkerClient.Compiler.ReceiveReply | sdk/typescript/worker-client.ts:290-319 | a reply is consumed only by the exchange that it names |
| WorkerClient.Compiler.TerminateWorker | sdk/typescript/worker-client.ts:247-253 | terminating closes the exchange, stops the session and rejects a running promise |
| WorkerClient.Compiler.StopSession | sdk/typescript/worker-client.ts:204-210 | stopping a session detaches it and lets a waiting job go |
| WorkerClient.Compiler.Dispose | sdk/typescript/worker-client.ts:451-456 | dispose keeps the invariant and closes every exchange |
| MemoryFsSafety.RunInv | sdk/go/memoryfs.go:101-128 | every call keeps the invariant: the charge is the sum of the lengths of all nodes ever created and within the budget, names number at most the entries ever created, every name is canonical, fits its budget and lies in a live directory, no two names share a node |
| MemoryFsSafety.EveryRun | sdk/go/memoryfs.go:25-40 | so after any sequence of calls from the empty output filesystem on, and no file's name is a prefix of another entry's |
| MemoryFsSafety.NothingBelowFiles | sdk/go/memoryfs.go:180-189 | nothing lies below a file |
| MemoryFsMeaning.PwriteMeans | sdk/go/memoryfs.go:435-452 | a successful write stores its bytes at their offset, fills a gap with zeros and touches nothing else; a failed one touches no node |
| MemoryFsMeaning.ReadsBackLater | sdk/go/memoryfs.go:404-452 | what was written is read back by every open readable handle on the node, old or new, after any sequence of calls that neither write nor truncate the node, whatever they do to its name |
| MemoryFsMeaning.HandlesReadOn | sdk/go/memoryfs.go:297-352 | an open handle reads on after any such sequence, with its name unlinked, moved or replaced |
| MemoryFsMeaning.UnlinkSnapshot | sdk/go/memoryfs.go:297-312 | unlinking removes exactly that file from the snapshot |
| MemoryFsMeaning.MoveSnapshot | sdk/go/memoryfs.go:317-352 | renaming moves the file's contents, over the file that had the name |
| MemoryFsMeaning.NamedWrite | sdk/go/memoryfs.go:357-365 | a write shows up in the snapshot under its node's one name |
| MemoryFsMeaning.UnnamedWrite | sdk/go/memoryfs.go:357-365 | and nowhere once that name is gone |
| MemoryFsMeaning.ReadOnlyNeverChanges | sdk/go/memoryfs.go:191-352 | no sequence of calls changes a read-only filesystem |
| MemoryFsMeaning.FirstLimitStays | sdk/go/memoryfs.go:101-109 | the first budget that was exceeded is never overwritten |
| MemoryFsMeaning.PwriteLimit | sdk/go/memoryfs.go:435-478 | a write records the byte budget exactly when it fails with ERANGE |
| MemoryFsMeaning.OpenLimit | sdk/go/memoryfs.go:191-235 | an open records an entry or path budget exactly when that is why it fails |
| MemoryFsMeaning.FailedOpen | sdk/go/memoryfs.go:191-235 | a failing open changes a name exactly when it creates a file and was asked to truncate it without write access |
| MemoryFsMeaning.LeftBehind | sdk/go/memoryfs.go:191-235 | such an open: it fails with EBADF and leaves the file |
| MemoryFsMeaning.SeekIsExact | sdk/go/memoryfs.go:481-506 | for every int64 offset the wrap-around of the addition is unobservable: a seek succeeds exactly when the true sum is within the budget |
| MemoryFsCalls.RenameMoves | sdk/go/memoryfs.go:317-352 | with both paths resolved: each error and its cause, ENOENT for a missing source, the parent and the charge those of the target; a successful rename takes the source's name from the snapshot and puts its contents at the target's |
| MemoryFsCalls.RenameRefused | sdk/go/memoryfs.go:317-352 | a path that does not resolve fails the call with its own error, the source's first, and nothing changes but, for the target, the recorded budget |
| MemoryFsCalls.OpenMeans | sdk/go/memoryfs.go:191-235 | with its path resolved: each error and its cause; a successful open is of the node of that name, with the rights and mode that the flags ask for, at offset 0, and it creates an empty file or truncates exactly as told |
| MemoryFsCalls.OpenRefused | sdk/go/memoryfs.go:191-235 | an open of a path that does not resolve fails with its error, and only one for creating records a budget |
| MemoryFsCalls.MkdirMeans | sdk/go/memoryfs.go:274-295 | a new directory at that name, or the error that the tree shows |
| MemoryFsCalls.UnlinkMeans | sdk/go/memoryfs.go:297-312 | the name goes, or the error that the tree shows |
| MemoryFsCalls.TruncateMeans | sdk/go/memoryfs.go:455-478 | shrinking keeps the head of the data, growing adds zeros, and no other node changes |
| MemoryFsCalls.PwriteFails | sdk/go/memoryfs.go:435-452 | each error of a write, with the handle and the arguments that cause it |
| MemoryFsCalls.WriteMeans | sdk/go/memoryfs.go:426-433 | a write goes to the offset of its handle, or to the end of the file in append mode, and the offset moves past it |
| MemoryFsCalls.WritesJoin | sdk/go/memoryfs.go:426-433 | two writes on a handle leave what one write of both buffers leaves |
| MemoryFsCalls.AppendExtends | sdk/go/memoryfs.go:426-433 | a write in append mode extends the data by its bytes |
| MemoryFsCalls.ReadsJoin | sdk/go/memoryfs.go:404-424 | two reads on a handle give consecutive slices of the data |
| MemoryFsCalls.WrittenThenRead | sdk/go/memoryfs.go:404-433 | what two writes left is what a read from their first offset gives |
| MemoryFsCalls.SeekRefuses | sdk/go/memoryfs.go:481-506 | a directory is only rewound, and an unknown origin is refused |
| MemoryFsObjects.FileSystem.OpenFile | sdk/go/memoryfs.go:191-235 | the fields after an open are those of the specification, and the invariant is kept |
| MemoryFsObjects.FileSystem.Rename | sdk/go/memoryfs.go:317-352 | the same for a rename |
| MemoryFsObjects.FileSystem.Snapshot | sdk/go/memoryfs.go:357-365 | exactly the live files, by value |
| MemoryFsObjects.OpenedFile.Truncate | sdk/go/memoryfs.go:455-478 | the same for a truncation, with its charge |
| MemoryFsObjects.OpenedFile.Pwrite | sdk/go/memoryfs.go:435-452 | the same for a positioned write |
| MemoryFsObjects.OpenedFile.Seek | sdk/go/memoryfs.go:481-506 | the same for a seek, with the 64-bit addition of Go |
| GuestPath.ResolveConfines | sdk/go/memoryfs.go:154-178 | exactly the paths that are too long, hold a backslash or NUL, or leave the mount at some component, are refused |
| GuestPath.ResolvedIsCanonical | sdk/go/memoryfs.go:154-178 | a resolved name has no empty, . or .. component |
| GuestPath.ResolveIsIdempotent | sdk/go/memoryfs.go:154-178 | resolving a canonical name gives it back |
| GuestPath.TextIsInjective | sdk/go/memoryfs.go:154-178 | distinct names have distinct strings |
| GuestPath.GuestPath | sdk/go/memoryfs.go:154-178 | the loop over the components computes the specified resolution |
| Staging.NewMemoryFs | sdk/go/memoryfs.go:55-75 | staging a compatible set of files creates them, every directory above them and nothing else |
| Staging.StagedFilesOpen | sdk/go/memoryfs.go:77-91 | every staged file opens through the root under src/ or include/ and reads back exactly |
| Validate.ValidateTypeScript | sdk/typescript/limits.ts:97-230 | validateCompile accepts exactly the acceptable requests, in whatever order the files are listed |
| ValidateGo.ValidateRequest | sdk/go/compiler.go:826-920 | validate accepts exactly the same requests, with its own byte scans, seen-maps and order |
| ValidateGo.CutsArePrefixes | sdk/go/compiler.go:868-884 | the prefixes that Go cuts at slashes are the ones that TypeScript joins from components |
| ValidateGo.Blocked | sdk/go/compiler.go:890-897 | the collision scan finds exactly a file that stands where the name needs a directory |
| ValidateGo.Duplicated | sdk/go/compiler.go:972-981 | the seen-map finds exactly the lists with a repeated value |
| Validate.DistinctBySize | sdk/typescript/limits.ts:71-71 | a Set is as large as its array exactly when nothing repeats |
| Validate.Utf8Size | sdk/typescript/limits.ts:36-45 | the size is exact up to the maximum, and above it whenever the text is |
| Validate.SizeIsEncoding | sdk/typescript/limits.ts:36-45 | the size of a text is the length of its UTF-8 encoding |
| Utf8.EncodingReads | sdk/typescript/limits.ts:36-45 | that encoding, of section 3 of RFC 3629, reads back as the text, so no two texts share one |
| Validate.AcceptedStages | sdk/go/compiler.go:826-920 | an accepted mount can be staged, every name within the path budget |
| Validate.CountedEntriesAreStaged | sdk/go/memoryfs.go:55-75 | the entries a validator counts are the nodes that are staged, but for the root |
| Lifecycle.EveryInterleaving | sdk/go/compiler.go:529-609 | under every interleaving: idle is closed at most once, and exactly when the Compiler is closed and no job is registered; the runtimes are released at most once and never while a job is registered; the tokens in slots are the calls that hold one, within the bound |
| Lifecycle.FreeNeverBlocks | sdk/go/compiler.go:572-609 | freeing a slot never blocks |
| Lifecycle.NoJobAfterClose | sdk/go/compiler.go:529-609 | after Close, registered jobs only become fewer |
| Lifecycle.LastJobReleases | sdk/go/compiler.go:529-609 | the last job to leave a closed Compiler releases the runtimes, once, even if every Close gave up |
| Lifecycle.Compiler.Leave | sdk/go/compiler.go:572-609 | the mutex section of done, as the step of the protocol |
| SiteSwap.Studio.Recover | scripts/build-studio.ts:313-328 | stopped anywhere, recovery keeps what it is heading for, and completed it ends with that; so it can be restarted |
| SiteSwap.Studio.Publish | scripts/build-studio.ts:279-304 | wherever it stops before the rename to trash, what a recovery finds is exactly the old site with the staged entries of new names that had moved; from that rename on, the visible site is exactly what was staged; a rollback puts every live entry back |
| SiteSwap.OldSiteAlways | scripts/build-studio.ts:279-304 | wherever a publish stops before that rename, the old site comes back exactly: if and only if no staged name is new to it |
| SiteSwap.OldSiteAfterRollBack | scripts/build-studio.ts:287-298 | every rollback leaves the old site exactly if and only if no staged name but the last is new to it |
| SiteSwap.StoppedExactly | scripts/build-studio.ts:279-304 | a publish stopped after certain names moved gives the old site back exactly when all of them are names of its own |
| SiteSwap.NewNameStays | scripts/build-studio.ts:287-298 | a rollback that leaves a new entry beside the old site |
| SiteSwap.Studio.Build | scripts/build-studio.ts:326-345 | one run of the build, killed or failing anywhere: the old site is recoverable until the staged one is the site, and comes back exactly where no staged name is new to it |
| SiteSwap.Builds | scripts/build-studio.ts:326-345 | any number of builds, each stopped anywhere: the site of the last one to commit stays recoverable, and every visible entry is whole, from it or from a staged site |
| SiteSwap.Studio.RollBack | scripts/build-studio.ts:293-298 | the entries that were set aside return, and nothing a recovery needs is lost on the way |
| Publish.Publisher.PublishOutput | bin/capnp-wasm.ts:1220-1282 | a refusal, which names an entry and what the trees have at it, comes exactly if some destination is at or below a link or cannot give way, and leaves both trees alone; otherwise, with no failing operation, it ends with the staged tree laid over the output; if an operation fails, every staged file is whole in one place and the stage is kept |
| Publish.Publisher.CheckPass | bin/capnp-wasm.ts:1226-1256 | the first refusal in sorted order, exactly if some staged entry cannot be published |
| Publish.Publisher.MovePass | bin/capnp-wasm.ts:1257-1282 | some first part of the sorted entries has moved, and nothing else |
| Publish.RefusalMeans | bin/capnp-wasm.ts:1226-1256 | an entry is refused exactly if it is neither a file nor a directory, is at or below a link, or meets something it cannot replace or merge with, and the refusal says which |
| Publish.ParentIsDone | bin/capnp-wasm.ts:432-437 | in the sorted list every directory comes before what is in it |
| Publish.Walk | bin/capnp-wasm.ts:396-430 | every entry of the tree exactly once, sorted |
| Publish.Cleanup.Keep | bin/capnp-wasm.ts:823-827 | a kept directory is no longer removed, and all others are |
| Paths.ParseFormat | bin/capnp-wasm.ts:167-189 | formatting and parsing are inverse on normal forms |
| Paths.ParsePath | bin/capnp-wasm.ts:167-183 | the loop keeps exactly the components that survive . and .. |
| Paths.UpUndoesDown | bin/capnp-wasm.ts:167-183 | a plain name followed by .. leads back to any path before it |
| Paths.CommonPath | bin/capnp-wasm.ts:235-257 | the deepest directory that holds every path, unless only some have a root |
| Paths.GuestReturns | bin/capnp-wasm.ts:274-279 | a guest path put below the root is the caller's path again |
| Paths.GuestWithin | bin/capnp-wasm.ts:259-279 | inside the root, the guest sees the same directories hold the same paths |
| Arguments.CompilerPathArguments | bin/capnp-wasm.ts:1299-1335 | the loop finds the path arguments that the specification of the scan finds |
| Arguments.OperationIs | bin/capnp-wasm.ts:1287-1295 | the operation is the first argument that is no option, if it is a known one and no separator comes before |
| Arguments.FilesAre | bin/capnp-wasm.ts:1299-1335 | among the arguments that are no options and no values of options, a compile takes all as files, encode, decode and eval the first, convert the second, and id none |
| Arguments.ScanStays | bin/capnp-wasm.ts:1299-1335 | translated arguments are scanned as the caller's were |
| Translation.TranslatePaths | bin/capnp-wasm.ts:1349-1408 | the root is the deepest common directory, every path argument is its guest path, every other argument is unchanged, and the added source prefix stands before the separator |
| Translation.DirnameOf | bin/capnp-wasm.ts:225-228 | the directory of a name in a directory is that directory |
| Translation.EmptyStays | bin/capnp-wasm.ts:1349-1396 | an empty path argument is left for the compiler to refuse |
| Translation.TranslatedReturns | bin/capnp-wasm.ts:1394-1396 | every translated argument, put below the root, normalizes to the caller's absolute path |
| Translation.CoveredStays | bin/capnp-wasm.ts:1397-1402 | the guest's source prefixes hold its current directory exactly when the caller's did |
| Translation.CoveredExactly | bin/capnp-wasm.ts:1397-1406 | a compile with a path ends with a source prefix that holds the guest's current directory exactly when the caller gave one, or no positional argument passes for one and no option swallows the one that is added |
| Translation.CoveredWithInclude | bin/capnp-wasm.ts:1354-1406 | with the bundled include no option swallows it, so only a positional argument that passes for a source prefix is in the way |
| Translation.DanglingOption | bin/capnp-wasm.ts:1397-1418 | an input without the bundled include where an option swallows it |
| Translation.StrayName | bin/capnp-wasm.ts:1398-1418 | an input, with the bundled include, where a positional argument passes for a source prefix |
| Spdx.AcceptsExactly | scripts/release.ts:524-640 | no problem is found exactly in the token sequences of the grammar of Annex D of SPDX 2.3 over the given identifiers |
| Spdx.PrintedIsAccepted | scripts/release.ts:598-640 | every printed expression tree is accepted |
| Spdx.TokenizeRender | scripts/release.ts:527-529 | reading tokens back gives what was written, whatever white space stands around them, and none is needed beside a parenthesis |
| Spdx.TokensKeep | scripts/release.ts:527-529 | of any text, the tokens are parentheses and words that hold all but the white space, in order |
| Spdx.PlusStands | scripts/release.ts:593-607 | a license may carry one plus, and the identifier before it decides |
| Spdx.ProblemTells | scripts/release.ts:541-640 | every problem is true of some token, or of the end: what stands there, and whether a license was due |
| Spdx.Parser.Run | scripts/release.ts:557-640 | the parser with one shared index computes the specified result, and ends |
| Ledger.ComputeStreak | scripts/audit-nightly.ts:89-162 | the streak, for any runs in any order: each cycle is the newest completed run of its day and a first-attempt success, days are consecutive, and the end says why the count stops there |
| Ledger.CycleNames | scripts/audit-nightly.ts:89-162 | each counted day names, field by field, a completed first-attempt success that was scheduled on it and is the newest of its completed runs |
| Ledger.MissedNames | scripts/audit-nightly.ts:104-121 | a missed day has no completed run; the run it names was scheduled on it, and if it names none there was none |
| Ledger.DigitsSpell | scripts/audit-nightly.ts:170-245 | a run's URL ends with its number in decimal |
| Ledger.OneStreakInAnyOrder | scripts/audit-nightly.ts:89-162 | those conditions leave one streak for a set of runs, in whatever order it is listed |
| Ledger.OldestDay | scripts/audit-nightly.ts:131-148 | a counted day holds a run that does not qualify exactly when the newest such run is followed by one of its own day and the streak reaches that day |
| Ledger.CountedDayWithAFailure | scripts/audit-nightly.ts:131-148 | two runs where that happens |
| Ledger.NewestCycle | scripts/audit-nightly.ts:74-88 | the newest cycle is of today or the day before exactly if no completed run is dated later than today |
| Ledger.CycleAfterToday | scripts/audit-nightly.ts:74-88 | a run whose cycle lies after today |
| Ledger.LedgerProblems | scripts/audit-nightly.ts:170-245 | a problem is listed exactly if the ledger has it, and none is listed exactly if the ledger is consistent: first attempts of its own repository on consecutive days between first and last, as many as current says, an end on the first day or the one before, and a status that agrees |
| Ledger.Audit | scripts/audit-nightly.ts:346-391 | the assembled ledger has no problem exactly if its run URLs are of the repository and it does not supersede itself; first is the day of the oldest cycle, last that of the newest, and the status says whether a scheduled run completed |

## Left out

- The WebAssembly engine, the WASI shim, wazero and Deno's file system: hosts, imports and operations are parameters.
- memory.grow, i64, floating point, SIMD, atomics, garbage-collected types and legacy exceptions: the rewriter copies them verbatim, and the semantics has no counterpart.
- Blocks with parameters, several memories or tables, and an original module that exports or names the reserved imports: outside the subset of the semantics.
- Section contents other than function indices, types, limits and exports: `Sections` takes them decoded, and immediates as opaque numbers; of the validation errors only those of the modelled fields are told apart.
- SectionPass.Instrument: sections are decoded before the pass reads them, so the refusal of a malformed section, of an unsupported instruction or of trailing bytes is not part of what it accepts.
- Subsections of the name section other than function names.
- Sections.Lowered: for a memory that cannot be bounded it names the unchanged section, which no accepted module reaches.
- Texts of error messages and of diagnostics; which error wins is modelled, its wording is not.
- The worker's serving of requests beyond its protocol: compiling, generating, encoding of errors and transfer of buffers.
- Validation of option objects and of types at the JavaScript boundary: requests are typed.
- The order of microtasks: a continuation of a promise is an event of its own, at any later time.
- MemoryFs: Readdir, Stat, Readlink, permission bits, device and inode numbers, and times.
- MemoryFsObjects.FileSystem.OpenFile: the invariant `S.Inv` is kept where it holds, not part of `Valid`, because staged inputs are not charged as output entries.
- Unpaired surrogates in JavaScript strings, which both validators refuse: strings are well formed.
- Lifecycle: the contexts of jobs and the error that releasing the runtimes returns.
- SiteSwap: what staging writes, the contents of files beyond equality, and other processes.
- Publish: other processes between the check and the move, and the removal of directories from the stage.
- Windows paths: drives, UNC prefixes and case folding.
- Translation.TranslatePaths: nothing is said of whether the bundled include, which an option can swallow in the same way, is read.
- Spdx: case folding of identifiers.
- Ledger: the detail texts, the fields that are copied by hand, and dates that do not parse.
- The deterministic archive writer, the SBOM, the evidence checks, the studio's user interface and the resource filesystem of the TypeScript SDK: not part of this model.
