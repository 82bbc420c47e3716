# Polyester: verified models of its planner, cache, archive and plan stream

Polyester applies a *manifest* (scripts that describe operations, grouped into plans) to a host.
This project models the parts of it where several functions have to work together, and proves what
they promise for every input, every run and every reachable state.

- **The plan executor** (`PoolModel`, `PoolInvariant`, `PoolCoverage`, `PoolSafety`, `PoolProgress`,
  `PoolLimits`, `PoolWitness`, `PoolWakeups`, `PoolQueues`, `PoolFeeder`). A feeder, a gatherer and any number of workers talk over bounded
  channels and an atomic counter. They are a step relation whose steps interleave arbitrarily;
  `sealed`, `placed` and `log` are history that no step reads. `PoolFeeder` has the feeder's
  bookkeeping as a class with the program's own recursion and loops, and shows that the step relation's
  list of tasks comes to the same plans in the same order.
- **Reading and ordering plans** (`Plans`, `Linking`, `Resolve`). Plans that were read are linked by
  name into a graph; a post-order walk lists what is reachable; a layered sort by repeated set
  difference orders it, or reports the plans that a cycle blocks.
- **The incremental cache** (`State`, `Apply`, `ApplyFacts`, `ApplySound`, `ApplyConverge`,
  `ApplyExamples`, `Prune`). The states of all operations are read first; a dirty flag decides which
  ones run, and can be cleared again. An operator is its run, its state and an optional desired state,
  as functions on an abstract host. `ApplySound` says what an operator must satisfy for skipping to be
  the same as running, and `ApplyExamples` gives operators, shaped like the file copy and the
  template, that satisfy it.
- **The archive** (`Paths`, `Cleaning`, `Sorting`, `TarFS`, `Manifest.dfy` with module `Manifests`, `Loader`,
  `Archive.dfy` with module `Archives`, `Packing`, `RoundTrip`, `Nesting`). A pointer tree refines a map
  from paths to contents; walks over it rebuild a manifest; the writer and the reader undo each other.
  What any paths, repeated or conflicting ones too, do to the tree is kept beside that refinement.
- **The plan stream** (`PlanStream`). Encoded operations with separators, scanned piece by piece.

Where the program changes things step by step, the model does too (classes with fields, loops with
invariants), and each such method is proved to compute a function, or to keep a relation, about which
the properties are then stated as lemmas.

## What the proofs found

These follow the code; each has a lemma below.

- The result of an apply can miss plans: it is complete in every run exactly when the root plan has no
  dependencies and no plans of its own (`PoolWitness.ResultCompleteExactly`). The counter can reach
  zero while plans wait.
- Once the counter is at zero nothing more is gathered. When only one reachable plan has no
  dependencies, as in a chain, its result is the last one in every run, and no plan that needs more
  than that plan ever starts (`PoolLimits.OneSourceStops`, `PoolLimits.ChainOfThreeStops`).
- The wake-up for a feeder that found every worker busy is a non-blocking send and can be lost; a run
  then stops without a result. A run that can take no further step has emitted its result or lost a
  wake-up, and a lost wake-up is such a stop, whose last step was the feeder's, beginning to wait
  (`PoolProgress.StuckExactly`); a wake-up that finds the feeder waiting is never without effect
  (`PoolQueues.WakeTries`). For up to 100 plans, every
  run that stops has emitted, whatever the graph, if and only if there are at least as many workers as
  plans (`PoolWakeups.EnoughWorkersExactly`).
- A dependency without acting operations never counts as done, so its dependents never start
  (`PoolSafety.EmptyDependencyBlocks`). When nothing has failed, a plan has run at rest if and only if
  everything it needs, directly or not, has acting operations (`PoolLimits.NothingFailedExactly`).
- Reading a plan leaves a nil pointer where an operation names a plan that does not exist
  (`Linking.NilExactly`).
- A plan called "plan.sh", or a plan's data file with a component of that name, is written to an archive
  but not read back as it was; a leading byte-order mark is dropped. Nested plans are written below the
  top `plans` directory, not below their parent, and are read back as plans of the root. Nothing else is
  lost (`Nesting.NestedExactly`).
- The file tree behind an archive panics on an archive in which a path of three components or more comes
  after a file that is just its first component, unless a longer path with that component came before
  both; no other archive makes it panic while it is filled (`Archives.TripsExactly`,
  `Archives.ReadEntries`, with `files` and then `files/a/b` in `RoundTrip.FileThenFiles`).

## Assumptions

- Plan names are unique, and a plan is identified by its name: the program keys `seen` by name but
  `pending` and `done` by pointer. The graph is acyclic wherever the program recurses over it;
  `Resolve.SortPlans` alone is modelled on cyclic graphs.
- No plan directory is called "main": such a plan would share its name with the plan of the root script,
  which the program accepts, and `seen` could then skip the root.
- `ApplySound.SoundInEveryHistory` asks of every operator that a failing run changes nothing, that asking
  for its state never fails, that its states can be stored (`ApplySound.WellBehaved`), and that it reads
  and writes its own part of the host only (`ApplySound.GoodCatalog`).
- JSON, YAML, gzip, tar headers and checksums are abstract. A stored state is its own image under
  `State.Reload`, which is what survives the encoding; cache keys are any strings.
- A file entry carries its information (a nil one cannot be compared: `state/entry.go:36`).
- An encoded operation parses alike with and without a document start line before it, and is not blank:
  it holds at least the name of its operator.
- A scanner's input fits its buffer, and white space is ASCII.

## Model

| member | source | states |
|---|---|---|
| `PoolFeeder.PlanCache.AreDepsComplete` | planner/execute/worker.go:220-227 | true exactly when every direct dependency is done |
| `PoolFeeder.PlanCache.EnqueueOnePlan` | planner/execute/worker.go:51-57 | a plan is marked seen and given out once; a second call does nothing |
| `PoolFeeder.PlanCache.FeedPlan` | planner/execute/worker.go:136-156 | the recursive walk leaves the cache as if the main part had been done for each visit in post-order |
| `PoolFeeder.PlanCache.RunPending` | planner/execute/worker.go:124-132 | for any map order, exactly the pending plans with complete dependencies leave, become seen and are given out unless seen |
| `PoolFeeder.PlanCache.FinishPlan` | planner/execute/worker.go:158-170 | only a result with its plan set marks the plan done and feeds it again |
| `PoolFeeder.VisitsReachable` | planner/execute/worker.go:136-156 | feedPlan comes to exactly the plans reachable over dependencies and subplans |
| `PoolFeeder.FeedsExactly` | planner/execute/worker.go:136-156 | of the reachable plans exactly the ready ones become seen, each new one given out once, and exactly the others pending |
| `PoolFeeder.FeedAgrees` | planner/execute/worker.go:136-147 | unfolding a feedPlan call in the step relation changes nothing of the visits that lie ahead |
| `PoolFeeder.MainAgrees` | planner/execute/worker.go:148-154 | the next visit ahead is taken off, and handed to enqueueOnePlan or left pending, as in the recursion |
| `PoolFeeder.ReceiveAgrees` | planner/execute/worker.go:104-122 | what the feeder does with a plan or a result it receives: runPending, the visits of feedPlan and runPending again; only a success is marked done and fed |
| `PoolFeeder.VisitsParts` | planner/execute/worker.go:136-147 | feedPlan comes to the dependencies first, in order, then to the subplans, in order, then to the plan |
| `PoolInvariant.LocatedStep` | planner/execute/worker.go:51-76 | every step keeps each seen plan in exactly one place (feeder's hand, worker's channel, worker, results) and the counter equal to the plans in flight |
| `PoolInvariant.ResultsOrderedStep` | planner/execute/worker.go:172-187 | every step keeps dependencies before dependents in the gathered results |
| `PoolInvariant.LogOrderedStep` | planner/execute/worker.go:257-278 | every step keeps each start behind the success of all direct dependencies |
| `PoolCoverage.CoveredStep` | planner/execute/worker.go:136-156 | once the root is fed, every step keeps each reachable plan seen, pending, or still to be visited |
| `PoolCoverage.SweptStep` | planner/execute/worker.go:124-132 | when the feeder waits after runPending, no pending plan could have been started |
| `PoolCoverage.SealedStep` | planner/execute/worker.go:181-201 | from the counter's zero on the results are one per plan seen by then, and stay so |
| `PoolSafety.InvOccurs` | planner/execute/worker.go:25-41 | the whole invariant holds in every state that any interleaving of any number of workers reaches |
| `PoolSafety.StartsAfterNeeds` | planner/execute/execute.go:28-30 | when a worker starts a plan, all its transitive dependencies have finished successfully; dependents of a failed plan never start |
| `PoolSafety.RunsOnce` | planner/execute/execute.go:28-30 | a plan is started and finished at most once per apply |
| `PoolSafety.NeverOverlap` | planner/execute/worker.go:257-278 | a plan never overlaps one it depends on: whatever end the dependency has lies before the start and is a success |
| `PoolSafety.OrderRespectsDependencies` | planner/execute/worker.go:172-187 | the order in which plans end, and the order of the results, satisfy the predicate that sortPlans must satisfy |
| `PoolSafety.CounterConserves` | planner/execute/worker.go:51-57 | the counter is plans seen minus plans gathered, between 0 and 2·conc+1, and nothing is gathered twice |
| `PoolSafety.SealedAtZero` | planner/execute/worker.go:181-186 | exactly the step that brings the counter to zero fixes what will be emitted |
| `PoolSafety.EmittedExactly` | planner/execute/worker.go:197-201 | the emitted result is the gathered list, with exactly one result for every plan seen when the counter reached zero |
| `PoolSafety.NothingForgotten` | planner/execute/worker.go:104-170 | at rest with both feeder queues empty, if every seen plan succeeded, every reachable plan has run |
| `PoolSafety.RestExactly` | planner/execute/worker.go:104-170 | at rest a reachable plan has run if and only if everything it depends on, directly or not, has succeeded |
| `PoolSafety.EmptyDependencyBlocks` | planner/execute/worker.go:158-168 | a plan that needs one without acting operations never starts |
| `PoolSafety.StartBounded` | planner/execute/worker.go:59-68 | planStartC never holds more than the reachable plans, however often they are fed |
| `PoolSafety.DoneBounded` | planner/execute/worker.go:187-195 | planDoneC never holds more than the reachable plans |
| `PoolSafety.NeverFull` | planner/execute/worker.go:37-38 | with at most 100 plans the send to planStartC never blocks and the gatherer's panic is unreachable |
| `PoolProgress.MeasureStep` | planner/execute/worker.go:104-170 | every step of every goroutine lowers a measure, although plans are fed again when enqueued and finished |
| `PoolProgress.RunsAreFinite` | planner/execute/worker.go:104-170 | every run is finite, with a bound that depends on the graph and the number of workers only |
| `PoolProgress.StuckExactly` | planner/execute/worker.go:187-201 | with at most 100 plans, a state that a run reaches is one without a result in which nothing can move if and only if a wake-up was lost; then the last step of the run was the feeder's, which found no worker free and began to wait |
| `PoolProgress.EnoughWorkers` | planner/execute/worker.go:60-75 | with at least as many workers as plans (at most 100) no wake-up is lost, and every run that can go no further has emitted |
| `PoolLimits.NothingFailedExactly` | planner/execute/worker.go:158-168 | at rest, when nothing failed, a reachable plan has run if and only if everything it needs has acting operations |
| `PoolLimits.OneSourceStops` | planner/execute/worker.go:181-201 | when one reachable plan alone has no dependencies, no run gathers another result, and a started plan needs nothing but it |
| `PoolLimits.ChainOfThreeStops` | planner/execute/worker.go:181-201 | in a chain of dependencies of three plans or more the third never starts, in any run |
| `PoolWitness.FirstPlanAlone` | planner/execute/worker.go:181-201 | for every graph and worker count some run emits a result with one plan only |
| `PoolWitness.ResultCompleteExactly` | planner/execute/worker.go:91-95 | every emitted result covers every reachable plan if and only if the root has no children |
| `PoolWakeups.WakeupCanBeLost` | planner/execute/worker.go:187-193 | for any number of workers and any larger number of plans, up to 100, a graph and a run that loses the wake-up |
| `PoolWakeups.EnoughWorkersExactly` | planner/execute/worker.go:51-76 | for up to 100 plans every graph of that many emits in every run that can go no further if and only if there are at least as many workers |
| `PoolQueues.ScanTries` | planner/execute/worker.go:60-73 | from any state the feeder gives its plan to the first worker with an empty channel, or waits if there is none |
| `PoolQueues.WakeTries` | planner/execute/worker.go:74 | a wake-up that is taken makes a waiting feeder try every worker again from the first: the plan goes to the first one with an empty channel, and only without one does the feeder wait again |
| `PoolQueues.EnqueueTries` | planner/execute/worker.go:51-76 | enqueueOnePlan on a plan not seen before marks it, counts it and tries the workers in the same way |
| `PoolQueues.EnabledLocal` | planner/execute/worker.go:104-122 | whether a goroutine can go on depends only on what it reads itself |
| `PoolQueues.StartInOrder` | planner/execute/worker.go:66 | the plans the feeder takes from planStartC are the root and then those given to workers, in that order |
| `PoolQueues.DoneInOrder` | planner/execute/worker.go:187-195 | the feeder receives the results in the order in which they were gathered, each once; those still missing are queued or in the gatherer's hand |
| `Plans.RealOps` | compiler/plan.go:24-33 | exactly the operations that are neither "plan" nor "dependency" |
| `Plans.ActingExactly` | compiler/plan.go:24-33 | each in its place among them, as often as it stands there |
| `Plans.ReachableIsLeast` | compiler/resolve.go:5-22 | the reachable plans are the least set that holds the root and is closed under dependencies and subplans |
| `Plans.NeedsBefore` | planner/execute/execute.go:28-30 | an order with direct dependencies first has all transitive ones first |
| `Linking.ResolveOnePlan` | compiler/plan.go:111-136 | the operations stay as they are, and the pointers are those they name, nil for a missing plan |
| `Linking.ReadPlan` | compiler/plan.go:86-109 | every plan keeps the operations that were read for it and is linked for any map order, "main" has those of the root script, and it panics exactly without one |
| `Linking.RefsExactly` | compiler/plan.go:114-131 | a plan is pointed to if and only if it exists and an operation of that kind names it; nil if and only if a named one does not exist |
| `Linking.RefsInOrder` | compiler/plan.go:114-131 | the pointers for an operation stand where it stands, one for each argument, in order |
| `Linking.NilExactly` | compiler/plan.go:120-129 | a nil pointer is left exactly when an operation names a plan that was not compiled |
| `Linking.EdgesExactly` | compiler/plan.go:111-136 | without nil pointers the edges of the graph are exactly what the operations say, and its plans have the operations that were read |
| `Linking.NothingNeedsMain` | compiler/plan.go:96-108 | in a graph that was read nothing depends on or contains "main", and it is closed |
| `Linking.Ordered` | compiler/plan.go:35-44 | reading and ordering an acyclic manifest lists every plan below the root once, dependencies first |
| `Resolve.AllPlans` | compiler/resolve.go:5-22 | the loop with the shared seen map computes the recursive post-order walk |
| `Resolve.VisitAdds` | compiler/resolve.go:5-22 | the walk lists each newly reachable plan once, after all its dependencies and subplans |
| `Resolve.VisitParts` | compiler/resolve.go:5-22 | what the dependencies bring in comes first, then what the plans bring in, then the plan, each unless listed before |
| `Resolve.BuildTable` | compiler/resolve.go:25-34 | the table maps each listed plan to the set of its direct dependencies |
| `Resolve.ReadyPlans` | compiler/resolve.go:38-43 | exactly the plans with no dependency left |
| `Resolve.WithoutReady` | compiler/resolve.go:54-69 | resolved plans leave the table and every dependency set |
| `Resolve.MoveMain` | compiler/resolve.go:72-84 | "main" is moved to the end, if it is there |
| `Resolve.MainLastExactly` | compiler/resolve.go:72-84 | "main" goes to the end and everything else stays in order; without it nothing moves |
| `Resolve.SortPlans` | compiler/resolve.go:24-85 | for a closed list and any order of the ready sets: an error names exactly the plans that reach a cycle; otherwise every distinct plan once, dependencies first unless something depends on "main" |
| `Resolve.SortRounds` | compiler/resolve.go:36-70 | each round resolves exactly the plans that stay blocked that long; what is never resolved is reported |
| `Resolve.BlockedIsChain` | compiler/resolve.go:36-70 | a plan is unresolved after k rounds if and only if a chain of k dependencies starts at it |
| `Resolve.StuckExactlyOnCycle` | compiler/resolve.go:45-52 | a plan is never resolved if and only if a dependency cycle can be reached from it |
| `Resolve.SortExactly` | compiler/resolve.go:24-85 | an error if and only if a cycle exists, naming exactly the plans that reach one; otherwise a permutation of the distinct plans, with dependencies first if and only if nothing depends on "main" |
| `Resolve.RoundIsLongestChain` | compiler/resolve.go:36-70 | the round that resolves a plan is the length of its longest dependency chain |
| `Resolve.RoundCount` | compiler/resolve.go:36-70 | the number of rounds is the longest chain in the graph plus one |
| `Resolve.MainLastOrdered` | compiler/resolve.go:72-84 | moving "main" to the end keeps dependencies first if and only if nothing depends on it |
| `Resolve.All` | compiler/plan.go:35-44 | on an acyclic graph Plan.All never errors or panics and lists each reachable plan once |
| `State.ChangedExactly` | state/entry.go:17-67 | two entries are Changed if and only if they differ in what comparison looks at |
| `State.ChangedState` | state/state.go:112-129 | the loop over both states finds a change if and only if their views differ |
| `State.StateChangedExactly` | state/state.go:112-129 | State.Changed is difference of views, entry by entry |
| `State.UnchangedIsEquivalence` | state/state.go:112-129 | "not Changed" is reflexive, symmetric and transitive on states whose file entries carry their information |
| `State.Split` | state/state.go:86-106 | Source and Target select the entries by their target mark, in order |
| `State.PartsExactly` | state/state.go:86-106 | each part holds the entries with its mark, in the order of the state |
| `State.ReloadUnchangedExactly` | operator/opfs/file.go:16-47 | a state that is stored and read again is not Changed if and only if its KV are absent or non-empty and JSON-stable |
| `State.ReloadParts` | operator/state.go:15-44 | storing commutes with taking the source and the target part |
| `State.ReloadAgain` | operator/opfs/file.go:16-47 | a state comes back whole if and only if it is storable and holds no contents; loading what was loaded changes nothing more |
| `State.EntryComesBack` | operator/opfs/file.go:16-47 | what comes back of any entry: name, mark, file information, checksum, and the values under their keys |
| `State.ReducedKeep` | state/entry.go:69-92 | both reductions keep name, values, mark and checksum, and without timestamps a file keeps everything but its time |
| `State.WithoutTimestampsExactly` | operator/opfs/file.go:49-69 | comparing without timestamps is comparing with both times made equal |
| `State.ChecksumOnlyExactly` | operator/opfs/file.go:71-86 | comparing checksums only sees name, KV, presence of a file and its checksum |
| `Apply.Applier.ReadOpStates` | planner/execute/execute.go:84-117 | all previous and current states are read in order, or the first error stops it, and nothing changes |
| `Apply.Applier.ExecuteOperation` | planner/execute/execute.go:119-210 | one operation: skipped, dry, or run and saved, with the dirty flag set and cleared as the code does |
| `Apply.Applier.ExecutePlan` | planner/execute/execute.go:46-82 | a plan's whole run: host, results, dirty flag, error and nil result |
| `ApplyFacts.CleanThenDirty` | planner/execute/execute.go:63-80 | the results of a plan are a clean prefix and a dirty suffix, and Changed says whether the suffix is empty |
| `ApplyFacts.StepExactly` | planner/execute/execute.go:119-210 | one acting operation: it fails if and only if its desired state, the comparison, the run or the state after it fails; otherwise every field of its result, the host and the store are as the states decide |
| `ApplyFacts.ExecutedExactly` | planner/execute/execute.go:46-82 | the same within a plan: the states compared are those from before the first operation ran, and the dirty flag is set if and only if an earlier result is dirty |
| `ApplyFacts.PlanOpsPass` | planner/execute/execute.go:124-127 | "plan" and "dependency" operations do nothing and have no result |
| `ApplyFacts.NilExactly` | planner/execute/execute.go:77-79 | a plan run without an error has no result if and only if the plan has no acting operation |
| `ApplyFacts.PlanFailsExactly` | planner/execute/execute.go:55-76 | a plan run fails if and only if the state of some operation cannot be read, before anything has happened, or some operation that is reached fails |
| `ApplyFacts.FailureStays` | planner/execute/execute.go:64-67 | a failing operation ends the run: what it did to the host stays, its state is not stored, nothing later runs |
| `ApplyFacts.DryRunChangesNothing` | planner/execute/execute.go:160-171 | a dry run leaves host and store as they are |
| `ApplyFacts.StoreAfter` | operator/state.go:37-44 | after a plan the store holds, for each key, the post-run state of the last executed operation with that key, and otherwise what it held |
| `ApplySound.SkipExactly` | planner/execute/execute.go:153-160 | running a skipped operation would change nothing if and only if its targets have not drifted since the save |
| `ApplySound.SkipIsNoop` | planner/execute/execute.go:153-160 | a skipped operation, drifting excluded, is one whose run would change nothing |
| `ApplySound.UnchangedTargetIsNoop` | planner/execute/execute.go:187-196 | an operation that clears the dirty flag has changed nothing |
| `ApplySound.SkippingIsSound` | planner/execute/execute.go:55-76 | the cached apply ends in the environment that running every operation in order ends in |
| `ApplySound.SoundInEveryHistory` | planner/execute/execute.go:46-82 | the same after any history of applies and of changes elsewhere, for any catalogue of operators with disjoint outputs |
| `ApplyConverge.OneApplySettles` | planner/execute/execute.go:63-81 | in an environment that every operation leaves fixed, one apply from any stored states settles all of them |
| `ApplyConverge.SettledApplyIsClean` | planner/execute/execute.go:63-81 | an apply of settled operations is clean and leaves environment and stored states as they are, up to Changed |
| `ApplyConverge.Converges` | planner/execute/execute.go:63-81 | after one apply every later apply is clean, however many there are |
| `ApplyExamples.CopyTracks` | operator/fileop/copy.go:48-70 | a file copy satisfies what soundness asks of an operator that is compared with its saved state |
| `ApplyExamples.TemplatePredicts` | operator/templateop/template.go:59-172 | a template satisfies what soundness asks of an operator with a desired state |
| `ApplyExamples.CatalogExists` | operator/templateop/template.go:59-172 | a copy and a template together meet everything that soundness in every history asks of a catalogue |
| `Prune.StateDir.GatherOpKeys` | planner/manifest.go:122-153 | the keys of exactly the reachable operations are gathered |
| `Prune.StateDir.PruneState` | planner/manifest.go:63-105 | nothing is removed unless a whole manifest is being applied; then exactly the file "checksum" and the states under the non-empty keys of reachable operations are left, as they were |
| `Prune.KeysSplit` | planner/manifest.go:122-153 | the keys below a plan are its own, those below its dependencies and those below its plans |
| `Prune.PruningKeepsDecisions` | planner/manifest.go:63-105 | after pruning every reachable plan's next apply makes the same decisions and leaves the same states |
| `Paths.JoinInjective` | manifest/tarfs.go:140-148 | different clean component lists are different paths |
| `Paths.CleanIsProper` | manifest/archive.go:98-105 | a cleaned relative path that is not "." and does not begin with ".." has proper components only |
| `Cleaning.CleanedExactly` | manifest/archive.go:98 | cleaning leads to the one minimal list of components that dropping empty ones and ".", and cancelling "..", can lead to, in whatever order |
| `Cleaning.CleanExactly` | manifest/archive.go:98 | a cleaned path is that list joined, with its leading slash, or "." |
| `Cleaning.JoinTwoExactly` | manifest/archive.go:206 | joining two relative elements cleans the components of both |
| `Paths.SplitPartsJoin` | manifest/tarfs.go:140-148 | splitParts takes a clean path apart into its directory components and its last one |
| `Paths.TrimFirstDir` | manifest/manifest.go:254-266 | cutting with the stateful closure removes everything up to and including the first run of slashes |
| `Cleaning.TrimmedExactly` | manifest/manifest.go:254-266 | for any string: everything up to the first run of slashes, and that run, is cut off; without a slash everything is |
| `Paths.TrimmedJoin` | manifest/manifest.go:254-266 | the key of a file is its path without the first component |
| `Sorting.SortSorts` | manifest/tarfs.go:45-47 | sorting distinct keys gives the same elements in increasing order |
| `Sorting.LessExactly` | manifest/tarfs.go:45-47 | the first character in which two names differ decides, and a proper prefix comes first |
| `TarFS.Tree.AddFile` | manifest/tarfs.go:51-63 | for any path after any others: it panics exactly when the path has three components or more and the first path added with its first component was that component alone; a path that fits adds exactly that file to the map |
| `TarFS.Tree.EnsureDirs` | manifest/tarfs.go:65-95 | afterwards exactly the proper prefixes of the path are directories as well, whatever files stand there; no file has changed, and at the top at most a directory was added, at the end |
| `TarFS.Tree.LookupDir` | manifest/tarfs.go:97-119 | the node of the parent directory, or nil for the root; a file that comes first at the top is found instead, and nothing below it |
| `TarFS.ShadowInShape` | manifest/tarfs.go:97-119 | in a tree without conflicting paths only a file of that name is found instead of a directory |
| `TarFS.Tree.Open` | manifest/tarfs.go:25-34 | exactly the files of the map, with their contents, and the directories above them are found |
| `TarFS.Tree.ReadDir` | manifest/tarfs.go:36-49 | each child of a directory once, in increasing order of names |
| `TarFS.DirsExactly` | manifest/tarfs.go:65-95 | the directories of the tree are exactly the proper prefixes of its files |
| `Manifests.SubSub` | manifest/manifest.go:184-188 | the view of a directory of a view is the view of the longer path |
| `Manifests.SubSmaller` | manifest/manifest.go:184-191 | loading a plan looks at fewer files than loading its parent, so the recursion ends |
| `Loader.WalkFiles` | manifest/manifest.go:237-252 | the walk gathers exactly the files under a path, keyed without the first component |
| `Loader.VisitPlan` | manifest/manifest.go:172-195 | a directory with a plan script adds that plan; it fails exactly when the script is a directory or does not load |
| `Loader.WalkPlans` | manifest/manifest.go:164-200 | the walk gathers exactly the plans below a path, and fails exactly when one of them does |
| `Loader.LoadFS` | manifest/manifest.go:129-162 | walking the tree gives what the map of files determines, with every error, and panics exactly when the main path is a directory |
| `Loader.LoadErrExactly` | manifest/manifest.go:129-162 | loading fails if and only if the main script is missing, a file has the name of one of the five directories, or a directory below "plans" has a script that is a directory or does not load |
| `Loader.LoadExactly` | manifest/manifest.go:129-252 | what is loaded: the script, and every file and every plan under its key, and nothing else |
| `Archives.IncreasingUnique` | manifest/archive.go:224-229 | sorted keys do not depend on the order of the map |
| `Archives.TarWriter.WriteFilesToTar` | manifest/archive.go:239-254 | one entry per file, by sorted key |
| `Archives.TarWriter.WriteTar` | manifest/archive.go:204-237 | the entries of script, data files and plans, in a fixed order for any map order |
| `Archives.WrittenOrder` | manifest/archive.go:204-222 | the script first, then files, templates, vars and secrets, each group by increasing key, then the plans |
| `Archives.PlansOrder` | manifest/archive.go:223-236 | the plans by increasing name, each below the top "plans" directory |
| `Archives.NestedPlansMove` | manifest/archive.go:230-235 | the script of a nested plan is written right below the top "plans" directory |
| `Archives.TripsExactly` | manifest/tarfs.go:51-63 | filling the tree panics exactly when, before any bad name, some path of three components or more comes after a first path with its first component that is that component alone |
| `Archives.ReadEntries` | manifest/archive.go:56-129 | for any archive: it panics exactly so, fails exactly at a bad name before that, and otherwise, if no paths conflict, fills the tree with the map of the accepted entries |
| `Archives.AcceptedIsProper` | manifest/archive.go:81-113 | a name that the reader accepts is stored under a clean relative path without backslashes, dot components or a drive |
| `Archives.AcceptedExactly` | manifest/archive.go:81-113 | with backslashes read as slashes, a name is accepted if and only if it has no leading slash and its cleaned components are not empty, do not begin with ".." and are no drive path; it is stored under them |
| `Archives.UnpackErrExactly` | manifest/archive.go:94-113 | reading fails if and only if some file entry has a bad name |
| `Archives.UnpackExactly` | manifest/archive.go:57-129 | an archive without conflicting paths unpacks to one file for each file entry, with its contents but for a byte-order mark, and nothing else |
| `Archives.AddEntry` | manifest/archive.go:115-128 | an accepted entry that fits adds exactly its contents, without a leading byte-order mark, under its path; any other panics exactly as AddFile does |
| `Archives.LoadArchive` | manifest/archive.go:50-131 | fails at the first bad name, and otherwise loads the map of the accepted entries |
| `Packing.LoadRoot` | manifest/manifest.go:129-162 | files that hold a manifest load as that manifest without byte-order marks |
| `Packing.ScriptsSpoil` | manifest/manifest.go:172-195 | with a misplaced "plan.sh" loading fails or finds a plan whose name has more than one component |
| `RoundTrip.UnpackProper` | manifest/archive.go:57-129 | reading entries keeps paths clean and no file a directory |
| `RoundTrip.AcceptedPlain` | manifest/archive.go:81-113 | the names that the writer makes are accepted as they are |
| `RoundTrip.PackedHolds` | manifest/archive.go:204-254 | what is written, and then unpacked, holds the manifest |
| `RoundTrip.StrippedExactly` | manifest/archive.go:120 | reading leaves contents alone exactly when none begins with a byte-order mark |
| `RoundTrip.RoundTripExactly` | manifest/archive_test.go:12-56 | for plans one level deep: loading a written archive gives the manifest back if and only if there is no byte-order mark and no misplaced "plan.sh" |
| `Nesting.WrittenFlat` | manifest/archive.go:230-235 | plans of every depth are written one after the other, all at the same level |
| `Nesting.FittingExactly` | manifest/archive.go:204-237 | a written archive repeats no path, and has no file above another, if and only if the plans of all depths have different names |
| `Nesting.ArchivedHolds` | manifest/archive.go:204-254 | the archive of a manifest of any depth holds the manifest with all its plans side by side |
| `Nesting.NestedExactly` | manifest/archive_test.go:12-56 | at any depth: what is read is the manifest with its plans side by side; it is the one that was written if and only if no plan has plans and there is no byte-order mark and no misplaced "plan.sh" |
| `Nesting.SaveAndLoad` | manifest/archive_test.go:12-56 | the same through the writer and the reader themselves |
| `RoundTrip.ScriptAsData` | manifest/manifest.go:179-192 | a plan with a data file named "plan.sh" is not read back |
| `RoundTrip.ScriptAsName` | manifest/manifest.go:179-183 | a plan named "plan.sh" is not read back |
| `RoundTrip.OrderDecides` | manifest/tarfs.go:51-63 | a file and then a path two levels below it make the reader panic; in the other order they do not |
| `RoundTrip.FileThenFiles` | manifest/tarfs.go:51-63 | `files` and then `files/a/b` make the reader panic |
| `PlanStream.Index` | compiler/plan.go:165-179 | the first separator, or none |
| `PlanStream.SplitOp` | compiler/plan.go:165-179 | progress exactly when there is a token; at the end of the input everything is used up |
| `PlanStream.TokensExactly` | compiler/plan.go:165-187 | each token ends before the newline of the first separator line, without a final carriage return; the rest begins with the dashes; without a separator there is one token |
| `PlanStream.OnlyMarkExactly` | compiler/plan.go:147-149 | a token is left out if and only if it is three dashes with white space around them |
| `PlanStream.ParsedExactly` | compiler/plan.go:146-154 | reading fails if and only if some token that is not left out does not parse; otherwise it gives their operations, in order |
| `PlanStream.PartIsPrefix` | compiler/plan.go:165-179 | a token found in a part of the input is the first token of the whole, however it goes on |
| `PlanStream.Scanner.Scan` | compiler/plan.go:141-146 | the tokens are those of the whole input, one after the other, for every way of cutting it into reads |
| `PlanStream.ReadOnePlan` | compiler/plan.go:140-163 | the operations of all tokens, or the first error, for every way of cutting the input |
| `PlanStream.Writer.Encode` | operator/info.go:35-56 | body and separator are appended |
| `PlanStream.FirstTokenExactly` | compiler/plan.go:165-187 | the first token is the first body if and only if the body ends in a newline, has no separator line inside and no carriage return before the final newline |
| `PlanStream.FramedTokens` | compiler/plan.go:165-187 | the tokens of framed bodies are the bodies, each after the first with the separator line that was left before it |
| `PlanStream.DroppedExactly` | compiler/plan.go:147-149 | a later token is taken for a lone separator if and only if its body is blank |
| `PlanStream.RoundTrip` | operator/info.go:35-56 | decoding the concatenated encodings of bodies that are well framed, not blank and not a lone separator gives back the operations in order, for every way of cutting the stream |
| `PlanStream.EncodeAndRead` | operator/info.go:35-56 | the same through Encode and readOnePlan themselves |

## Left out

- Context cancellation, `stopC`, logging, scopes, timing and text summaries: the executor is its channels, counter and sets.
- `wait` returning in every run: it does not; `PoolProgress.StuckExactly` says when, and `PoolWakeups.EnoughWorkersExactly` for which numbers of workers.
- PoolFeeder.PlanCache.EnqueueOnePlan: giving the plan to a worker is one append; finding and waiting for a worker is in `PoolModel`.
- The goroutines as threads of Go: they are steps of one relation, so channel operations are atomic and the memory model is not part of it.
- Apply.Applier.ReadOpStates: reading a stored state does not fail here; in the program that ends the apply before anything runs, as a failing request for the current state does here.
- Apply.Applier.ExecuteOperation: saving a state does not fail here; in the program that ends the apply with the host changed and the old state kept.
- ApplyExamples.CopyTracks: one source and one destination path; globs and destination directories are not modelled.
- ApplyExamples.TemplatePredicts: one template and one destination; data files and secrets are not modelled.
- Prune.StateDir.PruneState: the search for the manifest's directory is a parameter, and removing a file does not fail.
- ApplySound.SkippingIsSound: one plan at a time; plans that run at the same moment on the same part of the host are not covered.
- Individual operators other than the two examples, command-line flags, the copying of operators through JSON, and age decryption.
- Resolve.All: cyclic graphs, on which the walk would not end, are excluded; the sort alone is modelled on them.
- TarFS.Tree.AddFile: when paths repeat or conflict, whether it panics is proved, but not what Open and ReadDir then find.
- Archives.LoadArchive: loading is proved for archives without such paths (for others `Archives.ReadEntries` says when reading panics or fails); the limit of 256 MB per entry is not modelled.
- Nesting.NestedExactly: plans of different depths have different names; otherwise the archive repeats paths (`Nesting.FittingExactly`).
- File modes and modification times of the tree, and `SaveDir` and `LoadDir`, which use the disk.
- The compiler's scripts: shell parsing and the conversion of shell commands into operations.
- PlanStream.ReadOnePlan: the scanner's limit on the length of a token, and white space outside ASCII, are not modelled.
- The checksum of a manifest and the name of its state directory.
