# Verification of PP, the AnSISOP process scheduler

PP runs AnSISOP scripts for its clients (PI). Each script becomes a process that moves between
queues while a long-term scheduler admits it, a short-term scheduler orders the ready list, a
dispatcher interprets it for one burst at a time and a pool of threads serves its I/O. This
project models those parts and the collections below them and proves what they keep.
`dafny verify dfyconfig.toml` checks everything.

## How it is organised

* **The preemptible interpreter.** `CStrings`, `Script`: the C string operations, which statement a
  line is, what it does. `Machine`: the reference machine (one call stack) and the machine the C
  code realises (a frame list plus the frames held by live C activations), one statement a step.
  `Interpreter`: the recursive functions as methods over a process image, proved equal to that
  machine. `Transparency`, `Histories`: when cutting a run into dispatches is invisible, exactly.
  `DepthThree`: the script for which it is not. `Outcomes`, `Charging`: how a dispatch ends, and what
  is charged to it. The arrival of SUSPEND is the number of statements executed before it (`alarm`),
  any number, different in every dispatch.
* **What scripts mean.** `Meaning`: every statement as it is written. `Programs`: what follows a
  statement, a jump and a call. `Loops`: a whole script, for every n and in any dispatches.
* **The scheduler.** `Scheduler`: conex, LTSnew, STS, PROCER, any number of I/O workers, the clients
  and their messages as one step system under FIFO or RR; a step is one semaphore, queue, list or
  message operation, and sections under one mutex exclude each other. `Conservation`, `Tokens`,
  `Protocol`: the inductive invariants. `Runs`: all runs, and what every reachable state is like.
  `Isolation`: successive clients of one descriptor. `FirstInFirstOut`: the order in every queue.
  `Passes`, `Pids`, `Requests`: one pass of STS, the identifiers given out, when requests are
  accepted. `Traces`: reachable states step by step.
  `Losses`, `Wakeups`, `Quiescence`: exactly when a process is lost, when STS wakes for nothing, and
  what is left when the server comes to rest.
* **The scheduler under PRI or SPN.** `Ordered`: the same threads with a working list and a merge at
  the end of each pass, and why with room for one process this is FIFO. `OrderedRuns`: what holds in
  all its runs, which is all that holds under FIFO except that LPL agrees with its semaphore and
  loses nothing. `OrderedQueues`, `OrderedWakeups`, `OrderedRest`: order, wake-ups and rest.
  `OrderedLosses`: exactly which configurations let a process be lost, an empty list be popped, or
  STS wake for nothing. The keys of each merge are arbitrary, so they may be fixed priorities or estimates that change.
* **Sorting the ready list.** `Options`, `Lists`: the linked list and the queue over it, on the heap.
  `Sorting`: the stable sort and its uniqueness. `SortMerge`: a priority or SPN pass. `PriorityRuns`:
  runs of such passes with the dispatcher. `Feeds`: the order of the feeds and a FIFO pass.
* **The dictionary.** `HashCodes`, `Chains`, `Dictionaries`: chained buckets on the heap, seen as a map from
  hash code to the sequence of stored data.
* **Text and bytes.** `Evaluator`, `Rendering`: the scanning loop of assignments, and what it does to
  a written sum. `Statements`: every other statement, written and decoded. `Splitter`: from a
  script to its lines. `Wire`: the message format. `Searches`: the linear searches.

## Where the code does less than it seems to promise

* Interrupting is invisible exactly for processes whose uninterrupted run makes no call over two or
  more different callers, so up to call depth two (`Histories.TransparentExactlyWhenCallsInOrder`);
  `DepthThree.InterruptionSwapsPrints` is a script of depth three whose output changes.
* A negative quantum loses the process, and with it one place of MMP and of MPS
  (`Outcomes.LostExactlyWhen`, `Losses.ConservedExactlyWhen`).
* STS puts back the token it wakes on and matches items one by one with a sem_trywait. Once that
  fails, because it took an item before its producer's second post, it never sleeps again
  (`Wakeups.WakesForNothingExactlyWhen`, `Wakeups.NeverSleepsAgain`). Two connections, one after
  the other, are enough (`Wakeups.WakesForNothingIffAnyoneRuns`); under PRI and SPN they have to be
  in the system together (`OrderedLosses.WakesForNothingExactlyWhen`).
* A priority or SPN pass with no arrivals, which such a wake-up starts, drops the ready list, because
  inserting at index 0 of an empty list does nothing (`SortMerge.MergeKeepsEveryProcess`,
  `PriorityRuns.LosesExactlyWhen`). It happens as soon as there is room for two processes
  (`OrderedLosses.ConservedExactlyWhen`).
* A pass between the dispatcher's wait and its pop leaves LPL_empty one too high for ever
  (`SortMerge.SemaphoreAgreesExactlyWhen`, `PriorityRuns.EveryRun`), which ends in a pop of an empty
  list (`PriorityRuns.OvertakenRunsCanCrash`, `OrderedLosses.CrashesExactlyWhen`).
* Removing a stored null pointer from a dictionary leaves its element count one too high
  (`Dictionaries.Dictionary.Remove`).
* A function whose name is `io` or begins with another statement's word is never called
  (`Statements.CallDecodesExactlyWhen`), and an I/O time beyond 16 bits shrinks inside a function
  (`Statements.TimesAgreeExactlyWhen`).
* A script whose last line is commented and has no newline is read past its end
  (`Splitter.CodeSegmentCreator`), and a message longer than 65535 bytes overruns its block
  (`Wire.Serialization`).

## Model

| member | source | states |
|---|---|---|
| `Histories.TransparentExactlyWhenCallsInOrder` | PROCER/PP/src/procer_defs.c:642-646 | Preemption transparency, exactly: no sequence of dispatches, however each ends (quantum, suspension, blocking I/O), can be told from one uninterrupted run of as many statements, if and only if every call of that run that leaves three or more open has callers that are all the same frame; no bound on the depth or on the frames at the start |
| `Histories.TransparentExactlyWhenUniform` | PROCER/PP/src/procer_defs.c:634-661 | The same moment by moment, for a process with at most two calls open at the start: whenever the uninterrupted run has three or more calls open, all but the last are the same frame |
| `Transparency.TransparentExactlyWhenInOrder` | PROCER/PP/src/procer_defs.c:642-646 | Helper, for one dispatch and in terms of its own states: stopped anywhere it leaves the uninterrupted image, if and only if no caller is ever live above parked frames that differ from it |
| `Transparency.StepIsRefStep` | PROCER/PP/src/procer_defs.c:28-40 | As long as no frame is displaced, one statement of the C interpreter, with its frame list and live activations, is one statement of the reference machine that has a single call stack |
| `Transparency.DisplacingStep` | PROCER/PP/src/procer_defs.c:639-646 | Only a call over different parked frames displaces, it leaves three or more calls open, and stopping right after it shows |
| `Histories.HistoryIsUninterrupted` | PROCER/PP/src/procer_defs.c:18-38 | From any image whose uninterrupted run never holds more than two calls, any sequence of dispatches leaves variables, everything printed or requested, program counter and frames equal to one uninterrupted run of the same number of statements |
| `Histories.CompleteHistoriesAgree` | PROCER/PP/src/PROCER.c:26-31 | Two ways of cutting a run whose calls are in order into dispatches that both reach the end leave the same final variables and the same events |
| `Histories.ShallowScriptsAreTransparent` | PROCER/PP/src/procer_defs.c:634-661 | Every well-formed script whose functions call only leaves has that transparency from loading on; the condition is read off the text |
| `Histories.DispatchUpToDepthTwo` | PROCER/PP/src/procer_defs.c:383-390 | One dispatch from an image of call depth at most two leaves what the uninterrupted run has after as many statements |
| `Histories.DispatchFromFlatStack` | PROCER/PP/src/procer_defs.c:652-674 | Frame reification at any depth: a dispatch that starts with at most one frame leaves the frames in call order, each with its own line; from an empty stack they are exactly the activations that were live |
| `DepthThree.InterruptionSwapsPrints` | PROCER/PP/src/procer_defs.c:642-646 | The counterexample at depth three: one interruption and the same nine statements print b before a |
| `Interpreter.ProcessImage.ProcessExecution` | PROCER/PP/src/procer_defs.c:6-38 | The main loop, frame list and counters included, leaves the state of the step machine run to its stop and unwound |
| `Interpreter.ProcessImage.FunctionExecution` | PROCER/PP/src/procer_defs.c:364-390 | The function loop, entered at any recursion depth, ends as the step machine says: its activation returned, or unwound into the list below its callers |
| `Interpreter.ProcessImage.CallStatement` | PROCER/PP/src/procer_defs.c:625-649 | The call branch: push, run the callee, and what the caller then holds, also when the leftover frames were not its callee's |
| `Interpreter.ProcessImage.StackExecution` | PROCER/PP/src/procer_defs.c:683-696 | Runs the topmost parked frame, if any |
| `Interpreter.ProcessImage.ReorderStack` | PROCER/PP/src/procer_defs.c:662-674 | The caller's frame goes to the front, the last frame becomes the one it holds, the rest keeps its order |
| `Interpreter.StatementGoesOn` | PROCER/PP/src/procer_defs.c:387-390 | One statement of a live frame, anywhere in the recursion, keeps the dispatch on its way to the same final state |
| `Interpreter.CalleeInterrupted` | PROCER/PP/src/procer_defs.c:640-646 | What the caller sees when its callee was interrupted: its own frame goes below, the callee's frame is the one it then parks |
| `Outcomes.OpenCallsKeepTheirLines` | PROCER/PP/src/procer_defs.c:652-658 | Wherever a dispatch is stopped, while calls are open, parked or live, the main program stands at a call line and not at fin_programa, every caller stands at one too, and the innermost function has not ended |
| `Outcomes.DispatchCounts` | PROCER/PP/src/PROCER.c:22-29 | quantumCount never exceeds a non-negative quantum, equals rafaga under RR and is zero otherwise, and a dispatch blocks exactly when it issued one blocking request |
| `Outcomes.LostExactlyWhen` | PROCER/PP/src/PROCER.c:31-97 | A dispatch falls through all four tests, losing the process, exactly when the quantum is negative, no suspension was pending and the script was not at its end |
| `Outcomes.DoneExactlyWhen` | PROCER/PP/src/PROCER.c:31-61 | Finished exactly when the line is fin_programa, then with an empty stack and no pending request; blocked exactly when a request was issued |
| `Outcomes.SuspendedExactlyWhen` | PROCER/PP/src/PROCER.c:63-84 | A dispatch ends in a suspension, if and only if the signal had come by the time it stopped and the script was neither at its end nor blocked; it then stopped right after the statement during which the signal came |
| `Outcomes.EndOfQuantumExactlyWhen` | PROCER/PP/src/PROCER.c:86-96 | A dispatch ends with its quantum, if and only if the quantum is not negative and no signal, end or blocking request stopped it; under RR exactly the quantum was charged, and without RR the quantum must be zero |
| `Charging.AssignmentsEndTheDispatch` | PROCER/PP/src/procer_defs.c:28-30 | Over assignments, an RR dispatch executes exactly quantum of them and ends with its quantum, or exactly those before the signal and is suspended |
| `Charging.BurstCountsCharged` | PROCER/PP/src/procer_defs.c:96-100 | The burst that goes into the SPN estimate is the number of assignments, jumps and stored requests executed; declarations, prints, calls and bare requests are free |
| `Charging.StepCharges` | PROCER/PP/src/procer_defs.c:118-123 | Statement by statement, in the main program and at any recursion depth: one more in the burst, and under RR in quantumCount, exactly for those kinds |
| `Outcomes.Dispatch` | PROCER/PP/src/PROCER.c:22-97 | One round of the dispatch loop on the process image: the image it leaves, the burst estimate, and each outcome exactly when it is taken |
| `Meaning.PrintMeans` | PROCER/PP/src/procer_defs.c:57-65 | `imprimir x` in either loop shows the value x reads, changes nothing and is not charged |
| `Meaning.ReadFindsFirst` | PROCER/PP/src/procer_defs.c:753-769 | A variable reads the value of the first one of its name |
| `Meaning.VariablesMean` | PROCER/PP/src/procer_defs.c:44-46 | `variables` makes the new names read 0, leaves those declared before alone, shows nothing and is not charged |
| `Meaning.IoMeans` | PROCER/PP/src/procer_defs.c:236-263 | Every written `io` and `x=io` in either loop: which request is made or refused, with which time; x then reads 1 or 0 and no other variable changes; only the stored form is charged and only a blocking one blocks |
| `Meaning.JumpsMean` | PROCER/PP/src/procer_defs.c:80-125 | A jump changes no variable, shows nothing and is charged |
| `Programs.JumpsGo` | PROCER/PP/src/procer_defs.c:83-110 | `ssc x tag` goes on at the tag, if and only if x reads 0, and `snc x tag`, if and only if it does not; otherwise at the next line |
| `Programs.AssignThenPrint` | PROCER/PP/src/procer_defs.c:57-65 | After `x=terms` to a declared x, `imprimir x` shows exactly the signed sum, in the main program |
| `Programs.AssignThenPrintInFunction` | PROCER/PP/src/procer_defs.c:392-400 | The same in a function at any depth |
| `Programs.CallRunsItsFunction` | PROCER/PP/src/procer_defs.c:340-357 | `name()` runs the lines behind the first line that begins the function, in order, up to the one that ends it, and goes on behind the call |
| `Programs.NestedCallRunsItsFunction` | PROCER/PP/src/procer_defs.c:625-649 | The same for a call in a function, whose own frame then goes on |
| `Programs.CallPushesFrame` | PROCER/PP/src/procer_defs.c:634-638 | The frame of a call: the name, the first line of the function and the line of the call |
| `Programs.EndLineEnds` | PROCER/PP/src/procer_defs.c:383-384 | The line `fin_funcion other` ends every function whose name other ends with, and no other |
| `Loops.CountdownCountsDown` | PROCER/PP/src/procer_defs.c:28-125 | A whole script, for every n: it declares a variable, sets it to n, prints it and takes one off while it is not zero; it is at its end after exactly 3n + 4 statements, with the variable at 0 and n, n - 1, …, 1 printed |
| `Loops.CountdownInAnyDispatches` | PROCER/PP/src/PROCER.c:26-31 | However that script is cut into dispatches, it is at its end, if and only if 3n + 4 statements were executed, and has then printed exactly that |
| `Runs.EveryRunIsSafe` | PROCER/PP/src/LTS.c:105-191 | In every run of conex, LTSnew, STS, PROCER and the I/O pool under FIFO or RR, whatever clients, quantum and interleaving do, no thread pops an empty queue and the state keeps conservation, protocol and all counts |
| `Runs.EveryReachableState` | PROCER/PP/src/LTS.c:198-220 | What holds at the end of every FIFO or RR run from the start (`OrderedRuns.EveryOrderedState` has the same for PRI and SPN): each live process that was not let go of in exactly one place and nothing else anywhere, nobody let go of unless the quantum is negative, MMP and MPS respected, the exit test sound, no lost wake-up, no worker waiting for the pool, each client's messages in order, and a resume that always finds the client's own process |
| `Losses.ConservedExactlyWhen` | PROCER/PP/src/PROCER.c:86-98 | Every live process is in exactly one place in every reachable state, if and only if the configured quantum is not negative, except that with MPS or MMP zero no process ever runs |
| `Losses.RunLosesExactly` | PROCER/PP/src/PROCER.c:31-98 | A run loses as many processes as often as the dispatcher falls through its four tests; without that, every live process is in exactly one place at its end |
| `Runs.LiveProcessHasOnePlace` | PROCER/PP/src/STS.c:311-387 | In every reachable state an admitted, unfinished process that was not let go of is in exactly one queue, list, blocking request or thread's hand, anything else in none, and only a negative quantum lets go of any |
| `FirstInFirstOut.EveryQueueIsFifo` | PROCER/commons/commons/collections/queue.c:77-89 | Every queue of the system is first in, first out, in every FIFO or RR run: what was taken out of LFIFO, of each feed, of LPL and of LPB so far, followed by what it holds, is what was put in, in order; who comes and goes is read off the hand of the thread that pushes or pops |
| `OrderedQueues.EveryFeedIsFifo` | PROCER/PP/src/STS.c:189-254 | The same in every PRI or SPN run for LFIFO, the four feeds and LPB; STS appends what it pops to its working list |
| `FirstInFirstOut.StepInTurn` | PROCER/PP/src/PROCER.c:88-91 | Every step of every thread: what leaves a queue was at its head, what enters goes to its end |
| `Passes.WakingDrainsInOrder` | PROCER/PP/src/STS.c:311-387 | When STS wakes and nobody disturbs its pass, it appends the four feeds to LPL whole, in the configured order, and leaves them empty |
| `Pids.PidsCountFromEleven` | PROCER/PP/src/LTS.c:123-130 | In every run the clients admitted get 11, 12, 13, … in this order, and no two live processes share an identifier |
| `Runs.AdmissionBounds` | PROCER/PP/src/LTS.c:105-139 | Whichever algorithm runs: at most MMP processes are active and at most MPS in the system, the live processes are exactly those accounted for, and one that was let go of keeps its share of both for ever |
| `Runs.ExitTestIsSafe` | PROCER/PP/src/main.c:286-291 | Whichever algorithm runs, when the SIGINT test finds MPS_sem full, no process is left anywhere, whichever thread stands where |
| `Runs.StsSleepsOnlyWhenIdle` | PROCER/PP/src/STS.c:12-13 | No lost wake-up, whichever algorithm runs: when STS would sleep, every announced item still in a feed belongs to a producer that has not posted STS_in_empty yet |
| `Wakeups.WakesForNothingIffAnyoneRuns` | PROCER/PP/src/LTS.c:185-189 | Exactly which configurations, under FIFO or RR: some run reaches a state in which STS is about to wake, no feed announces anything and a process is ready, if and only if MPS and MMP are not zero; room for one process is enough |
| `Wakeups.WakesForNothingExactlyWhen` | PROCER/PP/src/STS.c:12-13 | At every wait of STS with no producer between its two posts, STS_in_empty is what the feeds announce plus the failed matches of the run; so STS wakes with nothing to take, if and only if some sem_trywait on STS_in_empty has failed |
| `Wakeups.NeverSleepsAgain` | PROCER/PP/src/STS.c:322-325 | After one failed match, in every continuation STS finds STS_in_empty positive at its wait, unless a producer is between its posts |
| `OrderedLosses.ConservedExactlyWhen` | PROCER/PP/src/STS.c:189-309 | Under PRI or SPN, whatever the keys: every live process is in exactly one place in every state of every run, if and only if the quantum is not negative and MPS or MMP leaves room for one process at most, or no process ever runs |
| `OrderedLosses.CrashesExactlyWhen` | PROCER/PP/src/PROCER.c:14-17 | Under PRI or SPN some run crashes, if and only if there is room for two processes; with room for one no run does, whatever the quantum; and in every run a step crashes, if and only if it is the dispatcher's pop of an empty LPL |
| `OrderedLosses.WakesForNothingExactlyWhen` | PROCER/PP/src/STS.c:201-204 | Under PRI or SPN STS can be about to wake with nothing announced, if and only if there is room for two processes, one more than under FIFO, since arrivals stay in the working list until the pass ends |
| `OrderedRuns.EveryOrderedState` | PROCER/PP/src/STS.c:63-136 | Every state of every run under PRI or SPN, whatever the room, the quantum and the keys: each live process that was not let go of in exactly one place and nothing else anywhere, resumes that find the client's own process, each client's messages in order and closed by T, MMP and MPS respected, the exit test sound, no lost wake-up, no worker waiting for the pool, and every queue in agreement with its semaphore, LPL up to what was posted twice |
| `OrderedRuns.OnlyDispatcherCrashes` | PROCER/PP/src/STS.c:75-82 | In every PRI or SPN run, a step crashes, if and only if the dispatcher that holds a token of LPL_empty pops an empty LPL |
| `OrderedRuns.DispatchesTheLeast` | PROCER/PP/src/STS.c:274-307 | In every PRI or SPN run of the whole system, the process dispatched has the least key among all ready ones, by the keys of the last merge |
| `OrderedRuns.AcceptedRequestStartsToo` | PROCER/PP/src/procer_defs.c:565-577 | In every PRI or SPN run, right after a non-blocking request was accepted the workers not serving are at least as many as the requests in LPB |
| `OrderedRuns.ActionKeepsShared` | PROCER/PP/src/STS.c:189-309 | Every step and every merge of a PRI or SPN run keeps all that does not depend on the order of LPL, and LPL in the order of the last merge |
| `OrderedWakeups.OrderedWakesForNothingExactlyWhen` | PROCER/PP/src/STS.c:201-204 | In every PRI or SPN run, at every wait of STS with no producer between its two posts, STS_in_empty is what the feeds announce plus the failed matches of the run |
| `OrderedWakeups.OrderedNeverSleepsAgain` | PROCER/PP/src/STS.c:201-204 | After one failed match of a PRI or SPN run, in every continuation STS finds STS_in_empty positive at its wait, unless a producer is between its posts |
| `OrderedRest.EveryOrderedRunRestsForUsers` | PROCER/PP/src/STS.c:12-13 | With a worker, and unless processes let go of hold all of MMP, a PRI or SPN server comes to rest only with every work queue and the working list empty and every other live process suspended, its client told and not answering |
| `OrderedRuns.LosesItsPlaceExactlyWhen` | PROCER/PP/src/STS.c:262-273 | A step of a PRI or SPN run takes a live process out of its only place, if and only if the dispatcher falls through its four tests with it, or a pass that gathered nothing merges while it is ready |
| `Ordered.ActionKeeps` | PROCER/PP/src/STS.c:189-260 | With room for one process a PRI or SPN run is a FIFO run seen with the working list counted as ready: every step is defined, keeps the whole FIFO invariant and no match fails |
| `Isolation.NextClientStartsClean` | PROCER/PP/src/LTS.c:77-92 | Successive clients of one descriptor: in every run, when a client connects, nothing sent to the descriptor before is still waiting, and all of it was delivered in order |
| `Isolation.FinishedExactlyWhenLast` | PROCER/PP/src/PROCER.c:37-53 | In every run, the message a client gets next is T, if and only if its process has ended and nothing else waits for it |
| `Isolation.StepSettles` | PROCER/PP/src/LTS.c:242-261 | Every step of every thread keeps it: what waits for a client whose process has ended closes with T, and nothing waits for a client that is gone |
| `Quiescence.EveryRunRestsForUsers` | PROCER/PP/src/LTS.c:198-220 | Under FIFO or RR, with a worker, and unless processes let go of hold all of MMP, the server comes to rest only with LFIFO, the feeds, LPL and LPB empty and every other live process suspended, its client told and not answering; nobody is let go of under a quantum that is not negative |
| `Quiescence.RestMeansNothingToDo` | PROCER/PP/src/io.c:27-61 | The same for any state that keeps the shared invariant, whichever algorithm runs: nothing waits for admission, ordering, dispatch or I/O |
| `Runs.WorkerNeverWaitsForPool` | PROCER/PP/src/io.c:27-29 | Whichever algorithm runs, a worker that took a request's token finds io_threads positive |
| `Runs.AcceptedRequestStarts` | PROCER/PP/src/procer_defs.c:565-577 | Whichever algorithm runs, right after a non-blocking request was accepted the workers not serving are at least as many as the requests in LPB |
| `Requests.AcceptedExactlyWhen` | PROCER/PP/src/procer_defs.c:278-293 | Some run accepts a non-blocking request, if and only if MPS, MMP, the quantum and the number of I/O threads are all positive |
| `Requests.RefusedExactlyWhen` | PROCER/PP/src/procer_defs.c:294-308 | Some run refuses one, if and only if MPS, MMP and the quantum are positive, however many threads there are |
| `Requests.AnsweredEitherWay` | PROCER/PP/src/procer_defs.c:282-308 | A refusal tells the process's own client, an acceptance queues the process's own request, and the process goes on |
| `Runs.NoCrash` | PROCER/PP/src/LTS.c:198-220 | Under FIFO or RR, from any state that keeps the invariant, every enabled step is defined: no pop of an empty queue, no failed restore |
| `Runs.OnlyReadyPopFails` | PROCER/PP/src/STS.c:75-82 | Whichever algorithm runs, a step of any thread fails, if and only if the dispatcher that holds a token of LPL_empty pops an empty LPL; STS, LTSnew, the workers and the search of LPS never meet an empty queue |
| `Runs.StepKeepsShared` | PROCER/PP/src/LTS.c:158-190 | Every step of every thread keeps what does not depend on the order of LPL: places, protocol, admission, feeds, wake-ups and the pool; and the agreement of LPL with its semaphore if it held |
| `Runs.StepKeepsInv` | PROCER/PP/src/LTS.c:158-190 | Every step of every thread keeps the whole invariant |
| `Conservation.StepKeepsPlaces` | PROCER/PP/src/STS.c:322-333 | Every step keeps the number of places each process is in |
| `Protocol.AnswerFindsItsProcess` | PROCER/PP/src/LTS.c:202-211 | When an R from a client is consumed, its own suspended process is in LPS and is the one the search finds, and only it leaves |
| `Protocol.StepKeepsProtocol` | PROCER/PP/src/PROCER.c:68-81 | Every step keeps the pairing of suspended processes with pending S and R messages, and the order of each client's messages |
| `Protocol.DeliverInOrder` | PROCER/PP/src/LTS.c:242-261 | Delivering takes a client's oldest message and leaves everybody's others in order |
| `Tokens.CpuAgreement` | PROCER/PP/src/PROCER.c:14-17 | The dispatcher's steps keep, for every queue but LPL, size = semaphore + tokens taken and not yet popped + elements not yet posted; for LPL they keep at most that many, and exactly that many if it held before, as under FIFO and RR |
| `Tokens.StsAgreement` | PROCER/PP/src/STS.c:322-332 | So do the steps of STS, with its own half-done items |
| `Tokens.WorkerAgreement` | PROCER/PP/src/io.c:27-48 | So do the steps of every I/O worker |
| `Tokens.ConnMmpBalance` | PROCER/PP/src/LTS.c:198-234 | The connection thread's steps keep MMP_sem + active processes + tokens in hand = MMP |
| `Tokens.CpuMpsBalance` | PROCER/PP/src/PROCER.c:49-50 | The dispatcher's steps keep MPS_sem + processes in the system + tokens in hand = MPS |
| `Searches.RestoreSuspended` | PROCER/PP/src/LTS.c:276-292 | The loop over LPS removes the client's first suspended process and nothing else, or leaves the list alone |
| `Searches.ListFdMsgGet` | PROCER/PP/src/LTS.c:294-309 | The loop over the sending list removes the client's oldest message and nothing else, or leaves the list alone |
| `SortMerge.ReadyList.OrderInsert` | PROCER/PP/src/STS.c:262-309 | For any arrivals and any semaphore value: which processes end up in LPL, in which order, and what LPL_empty becomes, the empty-list no-op and a failing trywait included |
| `SortMerge.BubbleSort` | PROCER/PP/src/STS.c:274-299 | The flag loop over the linked list ends, by the inversion count, and leaves the stable ascending sort |
| `SortMerge.SwapLowersInversions` | PROCER/PP/src/STS.c:284-297 | Exchanging neighbours that are out of order removes exactly one inversion |
| `SortMerge.ExactSortMerge` | PROCER/PP/src/STS.c:138-187 | With arrivals and at most one token short, LPL becomes the stable ascending sort of the reversed old list followed by the arrivals |
| `SortMerge.ReverseAt` | PROCER/PP/src/STS.c:144-149 | The old list is reversed on its way: position i gets the process that stood i places from the end |
| `SortMerge.MergeKeepsEveryProcess` | PROCER/PP/src/STS.c:268-273 | No process is lost or duplicated, if and only if something arrived or LPL was empty |
| `SortMerge.SemaphoreAgreesExactlyWhen` | PROCER/PP/src/STS.c:300-306 | LPL_empty agrees with LPL after a pass, counting tokens the dispatcher holds, if and only if it holds none |
| `Sorting.StableSortSorts` | PROCER/PP/src/STS.c:284-298 | The specification of the order: ascending, and equal keys stay in order of arrival |
| `Sorting.StableSortIsUnique` | PROCER/PP/src/STS.c:284-298 | Only one arrangement is ascending and keeps the order of equal keys |
| `PriorityRuns.EveryRun` | PROCER/PP/src/STS.c:189-309 | Over all runs of passes and the dispatcher's two-step wait and pop: LPL stays sorted, and LPL_empty is one too high exactly when a pass fell between a wait and its pop |
| `PriorityRuns.DispatchesTheLeast` | PROCER/PP/src/PROCER.c:14-17 | Every dispatched process has the least priority value among all ready ones, in every run |
| `PriorityRuns.LosesExactlyWhen` | PROCER/commons/commons/collections/list.c:96-105 | Some process that arrived is neither ready nor dispatched, if and only if a pass without arrivals comes while more has arrived than was popped, a condition on the schedule alone; the number lost is known, and nothing appears from nowhere |
| `PriorityRuns.OvertakenRunsCanCrash` | PROCER/PP/src/PROCER.c:14-18 | After a pass between a wait and its pop, the dispatcher alone reaches a pop of an empty LPL |
| `Feeds.ReorderQueuesArrayPriority` | PROCER/PP/src/configure.c:123-142 | The flag loop over the four-cell array ends and leaves the stable sort by priority |
| `Feeds.ShortTermScheduler.OrdenarFifo` | PROCER/PP/src/STS.c:311-387 | A FIFO pass appends to LPL what each feed's semaphore announced, feed by feed in array order, and settles every queue and semaphore |
| `Feeds.PassMovesEverything` | PROCER/PP/src/STS.c:316-387 | When every semaphore announces its whole queue, all four queues are moved in array order and every feed is empty |
| `Feeds.NamesOfFeeds` | PROCER/PP/src/STS.c:52-59 | Which queue each configured name stands for |
| `Lists.List.AddInIndex` | PROCER/commons/commons/collections/list.c:90-115 | Insertion before an existing element, and nothing at all otherwise, index 0 of an empty list included |
| `Lists.List.Add` | PROCER/commons/commons/collections/list.c:44-59 | Appends on the node chain |
| `Lists.List.Remove` | PROCER/commons/commons/collections/list.c:174-198 | Takes out exactly the element at the index |
| `Lists.List.Get` | PROCER/commons/commons/collections/list.c:394-409 | The element at the index, or null |
| `Lists.Queue.Push` | PROCER/commons/commons/collections/queue.c:77-80 | Appends to the queue |
| `Lists.Queue.Pop` | PROCER/commons/commons/collections/queue.c:86-89 | Takes the oldest element, or null |
| `Dictionaries.Dictionary.Put` | PROCER/commons/commons/collections/dictionary.c:79-111 | Adds the data as the last answer for the key's hash code and changes no other answer, resizing or not |
| `Dictionaries.Dictionary.PutHash` | PROCER/commons/commons/collections/dictionary.c:79-111 | The same given the hash code, and when exactly the table doubles |
| `Dictionaries.Dictionary.Get` | PROCER/commons/commons/collections/dictionary.c:116-120 | The oldest entry with the key's hash code, or null |
| `Dictionaries.Dictionary.Remove` | PROCER/commons/commons/collections/dictionary.c:126-134 | Drops the oldest entry with the key's hash code and nothing else; a removed null pointer is not counted out |
| `Dictionaries.Dictionary.RemoveElement` | PROCER/commons/commons/collections/dictionary.c:334-376 | The unlinking, at the head of a chain or inside it, with the count of nonempty buckets |
| `Dictionaries.Dictionary.Resize` | PROCER/commons/commons/collections/dictionary.c:251-294 | Every code keeps its answers in order; every entry moves to its new bucket; the count of nonempty buckets is right |
| `Dictionaries.Dictionary.Clean` | PROCER/commons/commons/collections/dictionary.c:184-213 | No answers are left for any code |
| `Dictionaries.Dictionary.GetElement` | PROCER/commons/commons/collections/dictionary.c:309-332 | The first element of the chain with the hash code, comparing codes only |
| `Dictionaries.Dictionary.HasKey` | PROCER/commons/commons/collections/dictionary.c:218-221 | True exactly when something is stored under the key's hash code |
| `Dictionaries.Dictionary.Size` | PROCER/commons/commons/collections/dictionary.c:235-238 | The number of entries plus every null pointer ever removed |
| `Dictionaries.Dictionary.IsEmpty` | PROCER/commons/commons/collections/dictionary.c:223-229 | True exactly when nothing is stored and no null pointer was ever removed |
| `Dictionaries.OneMoreMoved` | PROCER/commons/commons/collections/dictionary.c:259-289 | Moving one whole old chain extends the new table's answers to the codes of that bucket |
| `Chains.MoveChain` | PROCER/commons/commons/collections/dictionary.c:264-288 | The inner loop of the resize: each element ends up last in its new bucket, the rest of the chain stays intact |
| `Chains.WithoutValues` | PROCER/commons/commons/collections/dictionary.c:346-370 | Taking out the first element with a code drops that code's first answer and no other |
| `HashCodes.DictionaryHash` | PROCER/commons/commons/collections/dictionary.c:56-73 | The loop computes the recursive definition of the hash on 32-bit words |
| `HashCodes.KnownCodes` | PROCER/commons/commons/collections/dictionary.c:56-73 | The hash is Bob Jenkins' one-at-a-time hash: its values on the empty key, one character and two |
| `Rendering.AssignmentStoresTheSum` | PROCER/PP/src/procer_defs.c:415-467 | For every written sum of signed terms and optional delay, executing the line, which both loops decode alike, stores the signed sum in its declared target, leaves every other variable alone, prints and requests nothing, and is charged to the burst |
| `Rendering.SumOfStatement` | PROCER/PP/src/procer_defs.c:421-454 | The scanning loop's value of a written sum is the signed sum, one-digit numbers by the fallback of readData and longer ones by atoi |
| `Rendering.ScanStopsAtTail` | PROCER/PP/src/procer_defs.c:456-460 | The scan stops at the ';' of the delay, whose number follows, or at the end of the line |
| `Rendering.StatementIsAssignment` | PROCER/PP/src/procer_defs.c:389-415 | Both loops take such a line for an assignment to its target |
| `Rendering.DigitsOfDecimal` | PROCER/PP/src/procer_defs.c:434-442 | Reading a written decimal number gives the number |
| `Rendering.AtoiReads` | PROCER/PP/src/procer_defs.c:434-442 | atoi reads white space, a sign and a written decimal and stops at the next character |
| `Statements.DecodingUndoesWriting` | PROCER/PP/src/procer_defs.c:40-57 | Writing any statement and decoding the line gives the statement back: in the main loop for every kind, inside functions for those they have, with I/O times kept in 32 and 16 bits |
| `Statements.CallDecodesExactlyWhen` | PROCER/PP/src/procer_defs.c:389-392 | A call is decoded as one, if and only if its name does not read like another statement, by each loop's own order of tests |
| `Statements.TimesAgreeExactlyWhen` | PROCER/PP/src/procer_defs.c:551-561 | Both loops decode an I/O request alike, if and only if its time fits 16 bits |
| `Statements.NamesDeclared` | PROCER/PP/src/procer_defs.c:781-800 | A written list of names declares exactly those, in order, with value 0 |
| `Evaluator.Evaluate` | PROCER/PP/src/procer_defs.c:421-454 | The nested scanning loops compute the signed sum of the line's terms and stop at the first ';' or at the end |
| `Evaluator.Assignment` | PROCER/PP/src/procer_defs.c:415-460 | The variables after an assignment, and the delay it asks for |
| `Evaluator.VariableTable.ReadData` | PROCER/PP/src/procer_defs.c:753-769 | The first variable of that name, or the name read as a number |
| `Evaluator.VariableTable.WriteData` | PROCER/PP/src/procer_defs.c:720-729 | Changes the first variable of that name and nothing else |
| `Evaluator.VariableTable.AddVariables` | PROCER/PP/src/procer_defs.c:781-800 | Appends the names at even positions with value 0, reallocating the array |
| `Searches.FindFunctionLine` | PROCER/PP/src/procer_defs.c:698-713 | The first line that begins the function |
| `Searches.ChangePC` | PROCER/PP/src/procer_defs.c:731-751 | The first line that is the tag, which ends at the ';' or the end |
| `Splitter.CodeSegmentCreator` | PROCER/PP/src/procer_defs.c:802-828 | Succeeds exactly when the text behind the last newline has no '#' and lengths and count fit 16 bits, and then yields the text split at newlines, cut at '#' and trimmed, in order |
| `Splitter.LinesAreTidy` | PROCER/PP/src/procer_defs.c:810-818 | No line handed to the interpreter has a newline, a '#', a leading blank or a trailing space |
| `Splitter.SplitUndoesJoin` | PROCER/PP/src/procer_defs.c:807-823 | Splitting undoes joining tidy lines with newlines |
| `Splitter.SplitUndoesWriting` | PROCER/PP/src/procer_defs.c:807-823 | Lines written with blanks in front, white space behind and a comment come back as they are, none lost, none changed |
| `Splitter.TrimUndoesPadding` | PROCER/commons/commons/string.c:116-155 | Trimming takes off the blanks in front of a tidy line and the white space behind it, and nothing of the line |
| `Splitter.StringTrimLeft` | PROCER/commons/commons/string.c:125-138 | Removes exactly the leading blanks |
| `Splitter.StringTrimRight` | PROCER/commons/commons/string.c:145-155 | Removes exactly the trailing white space |
| `Wire.FramingRoundTrip` | PROCER/PP/src/server_defs.c:81-111 | Cutting a concatenation of encoded messages by their length fields and decoding recovers exactly the list that was sent |
| `Wire.RoundTrip` | PROCER/PP/src/defSerialization.c:4-67 | Decoding undoes encoding for plain and prioritised messages that fit |
| `Wire.LengthFieldExactlyWhen` | PROCER/PI/src/defSerialization.c:27-44 | The 16-bit length field equals the number of bytes produced, if and only if that number fits |
| `Wire.EveryByte` | PROCER/PI/src/defSerialization.c:27-70 | Where every byte of a message stands: the kind, the length and the priority with their low bytes first, the text, a NUL |
| `Wire.Serialization` | PROCER/PP/src/defSerialization.c:25-44 | The copies into the block with a moving offset produce the format, or overrun the block exactly when the message does not fit |
| `Wire.SerializationPri` | PROCER/PI/src/defSerialization.c:46-70 | The same for the message that carries the priority |
| `Wire.Deserialization` | PROCER/PP/src/defSerialization.c:4-22 | The copies out of a received block give the decoded message, or reach outside it |
| `Wire.DeliveredIsInjective` | PROCER/PP/src/defSerialization.c:46-67 | Different messages are delivered differently, so the texts themselves are recovered |

## Left out

- Evaluator.Assignment: does not model the overflow of C's `int`, which is undefined there; sums are unbounded integers.
- Statements.DecodingUndoesWriting: does not model the overflow of `atoi`, which is undefined there; times are unbounded before they are cut to 32 or 16 bits.
- PriorityRuns.EveryRun: a pass is one step, so a wait of the dispatcher that falls inside a pass counts as before or after it; for SPN, whose keys change between passes, only single passes are stated.
- Runs.EveryRunIsSafe: FIFO and RR only; under PRI and SPN the same is false of LPL alone, as `OrderedLosses` shows, and `OrderedRuns.EveryOrderedState` has the rest. Clients send their script and then only R, and one live client uses a descriptor at a time.
- Feeds.ShortTermScheduler.OrdenarFifo: nothing arrives during the pass; arrivals at any point are in the step system of `Runs`.
- Lists.List.Remove: an index outside a nonempty list is a precondition, since the code follows a null pointer there.
- Searches.RestoreSuspended: the list is not empty, since the code reads an element before it knows of one; `Protocol.AnswerFindsItsProcess` shows that callers meet this.
- Interpreter.ProcessImage.ProcessExecution: scripts must be well formed (every call finds its function and that function its end, every tag exists, fin_programa is reached, at most 65535 lines), because the code searches for these without a bound; statements act on sequence values, the loops behind them are in `Evaluator`.
- A main-level `x=io(t,0)` locks LPB_mutex twice and never returns; the model gives it the effect of the same statement inside a function.
- Characters behind a string's NUL, which malformed `imprimir`, `io` and `variables` lines read, are modelled as NUL.
- A process without variables holds a null pointer; here it is an empty table.
- Sleeps, delays and the wording of messages; that a non-blocking request is accepted is an input of the interpreter and a step of the scheduler.
- Sockets, epoll, the handshake, partial receives, lost clients, signals as such: receives deliver whole messages, and arrivals, deliveries and suspensions are steps or inputs.
- Reloading the configuration while processes run, and changing the algorithm in mid-run.
- OrderedLosses.ConservedExactlyWhen: a merge is one step, since it holds LPL_mutex; a wait of the dispatcher on LPL_empty that falls inside it counts as before or after it.
- The tie between a dispatch of `Outcomes` and the dispatcher's steps in `Scheduler`, which chooses freely among the outcomes the configured quantum admits, the lost one included.
- Priorities and burst estimates as floating point: keys are reals.
- `dictionary_iterator`, which does not advance along a chain, the other collections of commons, logging and configuration parsing.
- Freeing memory, except where a freed node could still be reached.
- SHIELD, which wraps external commands.
