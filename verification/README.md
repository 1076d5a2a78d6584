# usai: a verified model

Usai runs applications as short-lived *worlds*: isolated guest runtimes that call host operations, are
driven to an end by an event loop with deadlines, belong to a revision of an application that control
operations install, activate, drain and retire, and are watched by a thread that interrupts a guest that
does not return. Around that core stand a generator of OpenAPI documents, a multipart parser and encoder,
source maps, log timestamps, a latency histogram, database migrations, and the build step whose manifest
the host accepts. This project models that logic in Dafny and proves what it is for.

| file | models |
|---|---|
| `Ledger.dfy` | the operation ledger, its two indexes and the guard that releases a record |
| `Ownership.dfy`, `Completeness.dfy` | worlds, tasks, completions and the ledger as a step system: conservation, delivery safety, and that nothing is lost |
| `Drive.dfy`, `Endings.dfy` | the event loop of a world: deadlines, grace, stop, overruns, and why it ended as it did |
| `Admission.dfy` | budgets and the three of them an admission takes or gives back together |
| `Revisions.dfy` | install, activate, drain, retire, admit and drop, interleaved: coherence and accounting |
| `Watchdog.dfy` | arming, ticks, reports and the count that keeps the ticker awake |
| `Json.dfy`, `Lifting.dfy`, `LiftingMeaning.dfy` | moving named schemas into components: closed, idempotent, meaning-preserving |
| `Multipart.dfy`, `Refusals.dfy` | `multipart/form-data` both ways, the round trip, and when a body is refused |
| `Vlq.dfy`, `SourceMap.dfy`, `Stacks.dfy` | Base64 VLQ, mappings, lookup, rewriting of stack frames |
| `Quantile.dfy` | the histogram and the windowed quantile against sort-and-pick |
| `Text.dfy`, `Civil.dfy`, `Timestamps.dfy` | lexicographic order and decimals, days and dates, log timestamps |
| `Migrations.dfy` | discovering files in order, and migrators that share one ledger |
| `Manifest.dfy`, `Flattening.dfy` | `flatten` and `describe` on the build's side, `ApplicationDefinition::new` on the host's, and where each declaration ends up |

Where the source updates state in place, the model has a class or a method with loops, proved against a
function; runs and interleavings are step systems in which a step that is not possible does nothing, so
that a theorem over all step lists is a theorem over all runs.

## Findings

Six properties turned out to hold only under a condition; the code is modelled as it is, with the exact
condition and a failing case.

- An activation awaits the binding of its revision. Meanwhile the background retirement of that same
  revision, if it was draining, can remove it, and the swap then makes a revision active that the runtime
  no longer holds (`Revisions.RollbackCanLoseItsRevision`). A run is coherent if and only if no activation
  is overtaken in this way (`Revisions.CoherentIffUnraced`), and an activation under way is safe if and only
  if its revision is not draining with a retirement to come (`Revisions.ActivationSafety`).
- An admission checks the revision's state first and takes its permits later. One that is past its check when
  its revision drains and retires can still be counted on the retired revision
  (`Revisions.DrainCanBeOvertaken`, `Revisions.LateAdmissionLands`). A retired revision stays without work on
  every continuation free of the race above if and only if no admission past its check could fit its budgets
  (`Revisions.SettledForGoodIff`).
- `repoint` does not look below a key named `$ref` whose value is not a string, such as a property of that
  name, so a reference there is left dangling. No reference to a lifted id survives if and only if there is
  none below such a key, for one value (`Lifting.NoneSurvivesIff`) and for the wrapper and the moved bodies of a
  whole lift (`Lifting.LiftOneFreeIff`); `Lifting.PropertyNamedRefDangles` is the failing family.
- Bodies are compared before they are repointed. An id whose two bodies agree, over an inner id whose bodies
  do not, is shared, and the response's form of the inner id is lost, whatever the two inner bodies
  (`LiftingMeaning.SharedIdLosesOutputForm`). Every id of a response keeps its meaning if and only if each id
  whose two bodies are equal unfolds alike on both sides (`LiftingMeaning.OutputFormsKeptIff`); it is enough that
  such ids refer only to such ids (`LiftingMeaning.SharedClosedAgree`).
- A second input shape under one id goes to a numbered component. If an id of the same schema has that very name,
  both go there, and the one that comes second loses its body (`Lifting.NumberedNameCollides`). A lift leaves an
  id's body at its component if and only if it was there before, or the component is new and the body is that of
  the first id of the schema that goes there (`Lifting.BodyKeptIff`).
- Timestamps sort as the clock does up to a time if and only if its year is at most 9999
  (`Timestamps.SortedThroughIff`).

The documentation of `lift_one` says that every reference inside the moved bodies is repointed; the third
point is where the code differs.

## Model

| member | source | states |
|---|---|---|
| `Ledgers.Ledger.NextWorldId` | crates/usai-runtime/src/ownership.rs:213-215 | every world gets an id larger than any before it |
| `Ledgers.Ledger.Start` | crates/usai-runtime/src/ownership.rs:219-234 | a fresh operation id, one running record of that world, listed once, and both indexes still inverse |
| `Ledgers.Ledger.CancelWorld` | crates/usai-runtime/src/ownership.rs:238-247 | cancels exactly the world's records, returns exactly them, and leaves the rest |
| `Ledgers.Ledger.CancelOp` | crates/usai-runtime/src/ownership.rs:251-260 | cancels the record if and only if that world owns it |
| `Ledgers.Ledger.IsDeliverable` | crates/usai-runtime/src/ownership.rs:263-269 | true exactly for a running record of that world |
| `Ledgers.Ledger.Release` | crates/usai-runtime/src/ownership.rs:273-284 | returns the record, if there is one, and removes it from both indexes, with the world's entry when it was the last, and lowers the gauge once |
| `Ledgers.Ledger.OutstandingFor` | crates/usai-runtime/src/ownership.rs:286-297 | the by-world index gives what filtering all records by world gives |
| `Ledgers.Ledger.LiveRecords` | crates/usai-runtime/src/ownership.rs:299-301 | the number of records, which the gauge equals |
| `Ledgers.IndexIsDetermined` | crates/usai-runtime/src/ownership.rs:219-284 | the by-world index is determined by the records: an op occurs once in it iff its record names the world, and no list is empty |
| `Ledgers.OpenedKeeps` | crates/usai-runtime/src/ownership.rs:219-234 | starting keeps the two indexes exact inverses |
| `Ledgers.CancelledKeeps` | crates/usai-runtime/src/ownership.rs:238-260 | cancelling keeps them |
| `Ledgers.ReleasedKeeps` | crates/usai-runtime/src/ownership.rs:273-284 | releasing keeps them, dropping an emptied list |
| `Ledgers.RecordsOfUnique` | crates/usai-runtime/src/ownership.rs:286-297 | a strictly increasing listing of a world's records is unique |
| `Ledgers.OpGuard.Release` | crates/usai-runtime/src/ownership.rs:307-338 | a guard releases its record once, however often it is asked |
| `Ledgers.OpGuard.Drop` | crates/usai-runtime/src/ownership.rs:330-338 | dropping a guard releases what it still holds |
| `Ownership.StepKeeps` | crates/usai-runtime/src/host_ops.rs:449-483 | every step of worlds, tasks and routing keeps one guard per record and exact gauges |
| `Ownership.OwnershipConserved` | crates/usai-runtime/src/ownership.rs:219-338 | on every run each record has exactly one guard, `live_ops` is the number of records and of guards, `live_worlds` that of live drivers, and no completion is misaddressed |
| `Ownership.BackToBaseline` | crates/usai-runtime/src/world.rs:816-832 | when all tasks have ended and all drivers are gone the ledger is empty and the gauges are zero |
| `Ownership.BaselineIndex` | crates/usai-runtime/src/ownership.rs:273-284 | and so is the by-world index |
| `Ownership.DeliverySafety` | crates/usai-runtime/src/world.rs:437-473 | on every run a delivered completion was started by that world, not cancelled since, is delivered once, and never after the world was cancelled or retired |
| `Ownership.GateIsExact` | crates/usai-runtime/src/world.rs:437-473 | the head of a queue is delivered if and only if its world is still interested, and is otherwise dropped as late with its record released |
| `Completeness.EveryStartIsAccounted` | crates/usai-runtime/src/host_ops.rs:449-483 | on every run each operation started is recorded with its one guard, or has left the ledger for a cause in the log: delivered, cancelled by its guest since, aborted, or its world cancelled, retired or abandoned |
| `Completeness.ChannelIsExact` | crates/usai-runtime/src/host_ops.rs:467-481 | on every run what came out of a world's channel is what was sent to it, from the first on and in order, and the rest is waiting there as long as there is a receiver |
| `Completeness.DeliveriesInOrder` | crates/usai-runtime/src/world.rs:437-473 | two deliveries to a world come in the order of their sends |
| `Completeness.TaskUntilSent` | crates/usai-runtime/src/host_ops.rs:467-481 | a task is there exactly until its send or its abort |
| `Completeness.StartIsGrantedIff` | crates/usai-runtime/src/world.rs:169-207 | a start by a world neither cancelled nor retired is logged under a new id, recorded as running, and has its task; any other changes nothing |
| `Completeness.AnswerIsReachable` | crates/usai-runtime/src/world.rs:437-473 | from every reachable state, a live world that accepts and has nothing waiting can start an operation and have it answered |
| `Completeness.CompletionsCounted` | crates/usai-runtime/src/world.rs:437-473 | the gauges of delivered and late completions are what the log counts |
| `Completeness.WorldsCounted` | crates/usai-runtime/src/world.rs:361-362 | the gauge of worlds created counts those that came to life |
| `Completeness.StepTells` | crates/usai-runtime/src/world.rs:437-473 | every step keeps the log telling what became of starts, tasks, channels and gauges |
| `Ownership.StepHist` | crates/usai-runtime/src/world.rs:169-207 | what the ledger says is running is what the history of starts and cancellations says |
| `Ownership.StepSafe` | crates/usai-runtime/src/world.rs:437-473 | the only step that delivers delivers safely |
| `Ownership.RetireKeeps` | crates/usai-runtime/src/world.rs:804-832 | retiring a driver cancels its operations and drops its queue without losing or doubling a guard |
| `Drive.DeadlineDiscipline` | crates/usai-runtime/src/world.rs:597-799 | on every run the deadline expires at most twice and the second time ends it; the grace opens at most once, only for a non-finite world with a stop token; a run that entered it never ends completed; an overrun is counted exactly for a run cut off in its grace |
| `Drive.LatePollActs` | crates/usai-runtime/src/world.rs:639-742 | past an expired deadline no completion is routed: the run ends, the grace opens, or the guest is asked to stop |
| `Drive.FloodIsBounded` | crates/usai-runtime/src/world.rs:597-744 | however many completions queue up, the loop polls past an armed deadline at most three times |
| `Drive.ExpiryIsPrompt` | crates/usai-runtime/src/world.rs:639-742 | an expired deadline takes effect at once or right after one stop turn, however that turn went |
| `Endings.EndsByItsCause` | crates/usai-runtime/src/world.rs:597-744 | on every list of turns the loop ends as it does if and only if that is the cause at the first turn that has one, where completed, cancelled, faulted and deadline-exceeded each have their causes listed by the turns alone |
| `Endings.RunsOnIff` | crates/usai-runtime/src/world.rs:597-744 | it runs on if and only if no turn has a cause |
| `Endings.OwnerComesFirst` | crates/usai-runtime/src/world.rs:639-644 | a fired owner token beats every other ready arm |
| `Endings.TurnCounts` | crates/usai-runtime/src/world.rs:645-741 | a turn routes, asks or opens the grace exactly when the turns say so |
| `Endings.InterestLostIff` | crates/usai-runtime/src/world.rs:779-813 | interest is lost exactly by the owner's token or by a deadline exceeded without the guest having settled |
| `Drive.Driver.Drive` | crates/usai-runtime/src/world.rs:597-744 | the loop ends as the turn-by-turn function says, with the same counters |
| `Drive.Driver.Once` | crates/usai-runtime/src/world.rs:607-743 | one turn of the loop is one step of that function |
| `Drive.Driver.OnStop` | crates/usai-runtime/src/world.rs:645-667 | the stop arm asks the guest once and disarms itself |
| `Drive.Driver.OnDeadline` | crates/usai-runtime/src/world.rs:668-724 | the deadline arm opens the grace or ends the run |
| `Drive.Driver.OnChannel` | crates/usai-runtime/src/world.rs:725-741 | the channel arm routes one completion |
| `Drive.Driver.UnwindOverran` | crates/usai-runtime/src/world.rs:779-789 | an overrun is counted when the grace itself ran out |
| `Drive.Driver.DeadlineInterrupted` | crates/usai-runtime/src/world.rs:794-799 | the world stops accepting, its token fires, its records are cancelled, and the outcome is deadline-exceeded |
| `Drive.Driver.CancelWorld` | crates/usai-runtime/src/world.rs:804-813 | the world stops accepting, its token fires and its records are cancelled; nothing else changes |
| `Admission.Budget.TryAcquire` | crates/usai-runtime/src/admission.rs:62-73 | a permit if and only if one is free, and otherwise exactly one more rejection |
| `Admission.Budget.Return` | crates/usai-runtime/src/admission.rs:52-73 | a returned permit is free again |
| `Admission.Admit` | crates/usai-runtime/src/runtime.rs:966-1003 | takes all three permits or none |
| `Admission.AdmitIsAtomic` | crates/usai-runtime/src/runtime.rs:966-1003 | refused if and only if some budget is full; then nothing stays taken and exactly one rejection is counted; otherwise each goes up by one |
| `Admission.FirstFullRefuses` | crates/usai-runtime/src/runtime.rs:982-991 | the level that refuses is the first used up, in the order runtime, application, workload, and its own counter goes up |
| `Revisions.CoherentIffUnraced` | crates/usai-runtime/src/runtime.rs:703-829 | a run is coherent throughout if and only if no activation was overtaken by the retirement of its own revision; then at most `max_revisions` are held |
| `Revisions.ActiveIffUnique` | crates/usai-runtime/src/runtime.rs:703-787 | `active` names a revision iff it is the one held revision in state active |
| `Revisions.ActiveStays` | crates/usai-runtime/src/runtime.rs:791-829 | only its drain or the swap to another ends a revision's being active; no background retirement does |
| `Revisions.RetiredForGood` | crates/usai-runtime/src/runtime.rs:966-1122 | a retired revision stays so, and no admission on it passes its check in any mode |
| `Revisions.ChecksExact` | crates/usai-runtime/src/runtime.rs:966-1122 | on every unraced run from the start, an ordinary check passes exactly on the current revision, one for work in flight exactly on a revision that has been active and is still held, one for a verification exactly on one that is current or never was active, and is not retired |
| `Revisions.StateMeans` | crates/usai-runtime/src/runtime.rs:703-909 | what a state cell says of the past: active is current, active or draining is held and once active, installed is never active |
| `Revisions.ControlExact` | crates/usai-runtime/src/runtime.rs:535-944 | on such a run install, activate, drain and remove act exactly by what is held and what has been active |
| `Revisions.ShutdownActs` | crates/usai-runtime/src/runtime.rs:1483-1507 | a shutdown with nothing active retires all that is held |
| `Revisions.BindFailedUndoes` | crates/usai-runtime/src/runtime.rs:703-760 | an activation that cannot bind leaves the runtime as it was |
| `Revisions.DrainTimeoutLeaves` | crates/usai-runtime/src/runtime.rs:853-890 | a drain that times out leaves its revision held and draining, and can be begun again |
| `Revisions.InvalidUsesId` | crates/usai-runtime/src/runtime.rs:535-700 | an install that is refused still uses up an id |
| `Revisions.GivesUpLeaves` | crates/usai-runtime/src/runtime.rs:791-829 | a retirement that gives up is one fewer to come and leaves its revision as it is |
| `Revisions.RetiresOnlySettled` | crates/usai-runtime/src/runtime.rs:791-909 | drain and settlement retire a revision only with nothing in flight |
| `Revisions.SettledForGood` | crates/usai-runtime/src/runtime.rs:791-909 | with nothing in flight and no admission past its check that could fit, nothing is ever in flight on it again |
| `Revisions.SettledForGoodIff` | crates/usai-runtime/src/runtime.rs:791-991 | a retired revision stays without work on every unraced continuation if and only if there is no such admission |
| `Revisions.DrainCanBeOvertaken` | crates/usai-runtime/src/runtime.rs:853-991 | from any state with an active, idle revision and room on it, three steps retire it with such an admission to come |
| `Revisions.LateAdmissionLands` | crates/usai-runtime/src/runtime.rs:966-991 | from any state with such an admission, there are steps that count it on the retired revision |
| `Revisions.SafeStartsCoherent` | crates/usai-runtime/src/runtime.rs:703-787 | a run whose activations start on unthreatened revisions is coherent throughout |
| `Revisions.ActivationSafety` | crates/usai-runtime/src/runtime.rs:703-829 | an activation under way is safe on every continuation if and only if its revision is not draining with a retirement to come |
| `Revisions.ThreatIsReal` | crates/usai-runtime/src/runtime.rs:714-822 | from any such state there are steps that leave an active revision the runtime does not hold |
| `Revisions.RollbackCanLoseItsRevision` | crates/usai-runtime/src/runtime.rs:714-822 | a concrete run from the start that does so |
| `Revisions.LifeKeeps` | crates/usai-runtime/src/runtime.rs:535-944 | every unraced control step keeps the lifecycle in order, the number held within the maximum |
| `Revisions.AccountingHolds` | crates/usai-runtime/src/runtime.rs:966-1122 | in every reachable state the budgets, gauges and in-flight counts are those of the outstanding admissions and children |
| `Revisions.AdmitKeeps` | crates/usai-runtime/src/runtime.rs:966-1051 | an admission, granted or refused, keeps the accounting |
| `Revisions.DropKeeps` | crates/usai-runtime/src/runtime.rs:252-261 | the end of an admission returns every permit it took |
| `Revisions.RetainKeeps` | crates/usai-runtime/src/runtime.rs:231-239 | a retained child counts as in flight |
| `Revisions.ReleaseUndoesRetain` | crates/usai-runtime/src/runtime.rs:230-239 | releasing a child takes back what retaining it counted |
| `Revisions.DropUndoesTake` | crates/usai-runtime/src/runtime.rs:252-261 | the end of an admission gives back exactly what it took |
| `Revisions.SlotsAddUp` | crates/usai-runtime/src/runtime.rs:230-261 | per-workload gauges add up to the application budget's use and to the in-flight work but its children |
| `Revisions.FromTheStart` | crates/usai-runtime/src/runtime.rs:535-1122 | all of this for every run from an empty runtime: accounting, coherence if and only if unraced, coherence from safe starts, gauges that add up |
| `Watchdog.ReportsExact` | crates/usai-runtime/src/world.rs:880-966 | on every run each report stands where its entry ended in the log, and says over its slice if and only if a tick landed at or past its own deadline while it was armed |
| `Watchdog.EveryArmIsTimed` | crates/usai-runtime/src/world.rs:942-951 | on every run each logged deadline is its arming's time and slice added up, and never the disarmed value |
| `Watchdog.ArmIsLogged` | crates/usai-runtime/src/world.rs:942-951 | an arming of a live watch is logged and clears its flag |
| `Watchdog.FinishIsReported` | crates/usai-runtime/src/world.rs:953-966 | a finish is logged and reported once |
| `Watchdog.WakeThenTick` | crates/usai-runtime/src/world.rs:889-913 | while a watch is live the ticker can be woken, each waking is good for one tick, and a tick past the deadline raises the flag |
| `Watchdog.OverdueMeans` | crates/usai-runtime/src/world.rs:880-913 | the flag's history is exactly that some tick caught the latest entry |
| `Watchdog.TicksContinue` | crates/usai-runtime/src/idle.rs:21-56 | the idle count is the number of live watches, and while there is one the ticker is not parked and reaches it |
| `Watchdog.RunKeeps` | crates/usai-runtime/src/world.rs:880-981 | every interleaving of register, arm, finish, unwind, drop and tick keeps flag and deadline true to the history |
| `Watchdog.WatchSlot.Arm` | crates/usai-runtime/src/world.rs:942-951 | arming clears the flag and sets a deadline that is never the disarmed value |
| `Watchdog.WatchSlot.Finish` | crates/usai-runtime/src/world.rs:953-966 | finishing disarms, adds the CPU time since the entry began (none if the clock went back) and reports the flag |
| `Watchdog.WatchSlot.Look` | crates/usai-runtime/src/world.rs:900-906 | a tick fires a slot exactly when it is armed and due |
| `Watchdog.WatchdogService.Tick` | crates/usai-runtime/src/world.rs:893-913 | the loop fires exactly the live slots that are due and keeps exactly the live watches |
| `Lifting.FirstFree` | crates/usai-runtime/src/openapi.rs:115-125 | the first free number from 2 on: it is free and all before it are taken |
| `Lifting.BodyKeptIff` | crates/usai-runtime/src/openapi.rs:103-138 | on either side, a lift leaves an id's body at its component if and only if it was there before, or the component is new and the body is that of the first id which goes there |
| `Lifting.SecondShapeKept` | crates/usai-runtime/src/openapi.rs:112-138 | a second input shape goes to a free numbered component, the first stays, and if no other id of its schema goes there the second becomes that component |
| `Lifting.NumberedNameCollides` | crates/usai-runtime/src/openapi.rs:112-138 | an id that has the numbered name itself loses its body |
| `Lifting.RenamedExactly` | crates/usai-runtime/src/openapi.rs:103-128 | the names noted are exactly the components given under another name, each once |
| `Lifting.NoneSurvivesIff` | crates/usai-runtime/src/openapi.rs:147-169 | no reference to a lifted id survives repointing if and only if none lies below a `$ref` that holds no string |
| `Lifting.LiftOneFreeIff` | crates/usai-runtime/src/openapi.rs:87-169 | the same of a whole lift: the rewritten wrapper and every moved body are free of references to lifted ids if and only if none lies below such a `$ref` |
| `Lifting.MovedAdds` | crates/usai-runtime/src/openapi.rs:130-138 | the components a lift adds are those bodies: none has such a reference either |
| `Lifting.PropertyNamedRefDangles` | crates/usai-runtime/src/openapi.rs:147-160 | a property named `$ref` keeps its local reference |
| `Lifting.RepointRefs` | crates/usai-runtime/src/openapi.rs:147-169 | exactly the references in sight are retargeted |
| `Lifting.MovedKeys` | crates/usai-runtime/src/openapi.rs:130-138 | both accumulators gain exactly the names given |
| `Lifting.EveryReferenceIsNamed` | crates/usai-runtime/src/openapi.rs:52-169 | on every document, each reference afterwards was there before or was written by a pass, every written one names a component, and `local` and `into` have the same keys |
| `Lifting.SecondRunChangesNothing` | crates/usai-runtime/src/openapi.rs:52-85 | on every document, no `$defs` and no marker is left, and both passes again change nothing |
| `Lifting.InputPassLeavesMarked` | crates/usai-runtime/src/openapi.rs:52-85 | after the first pass only response-side objects have `$defs` |
| `Lifting.OutputPassCleans` | crates/usai-runtime/src/openapi.rs:52-85 | after the second none has |
| `Lifting.Lifter.Name` | crates/usai-runtime/src/openapi.rs:103-128 | the name an id goes to, a suffixed one noted once |
| `Lifting.Lifter.One` | crates/usai-runtime/src/openapi.rs:87-144 | the in-place lift of one schema is the function the theorems are about |
| `Lifting.Lifter.Named` | crates/usai-runtime/src/openapi.rs:52-85 | so is the walk over a tree |
| `Lifting.Lifter.Both` | crates/usai-runtime/src/openapi.rs:1004-1007 | and the generator's loop over both sides |
| `LiftingMeaning.MeaningPreserved` | crates/usai-runtime/src/openapi.rs:52-169 | for well-formed documents whose shared ids unfold alike on both sides, at every depth, every schema under its own `$defs` unfolds to what its rewritten form unfolds to under the components |
| `LiftingMeaning.OutputFormsKeptIff` | crates/usai-runtime/src/openapi.rs:52-169 | every response-side id's component unfolds as its own body does, at every depth, if and only if ids with equal bodies unfold alike on both sides |
| `LiftingMeaning.SharedClosedAgree` | crates/usai-runtime/src/openapi.rs:103-111 | ids with equal bodies that refer only to such ids unfold alike on both sides |
| `LiftingMeaning.BothPassesRewrite` | crates/usai-runtime/src/openapi.rs:994-1007 | what both passes make of a document, and that each side's bodies are components, repointed, but for a shared id, which has the input's |
| `LiftingMeaning.UnfoldRepoint` | crates/usai-runtime/src/openapi.rs:147-169 | repointing a value and moving its bodies does not change its unfolding |
| `LiftingMeaning.ComponentIs` | crates/usai-runtime/src/openapi.rs:103-128 | an id goes to one component wherever it occurs on a side |
| `LiftingMeaning.SharedIdLosesOutputForm` | crates/usai-runtime/src/openapi.rs:103-111 | equal bodies over any two different inner ones without references share a component, and the response's form is lost |
| `Multipart.IndexOf` | packages/usai/src/multipart.ts:34-40 | the first place at or after the start, or -1 |
| `Multipart.Parse` | packages/usai/src/multipart.ts:67-121 | the loop computes the part-by-part reading, with each error where the source raises it |
| `Refusals.AcceptedIff` | packages/usai/src/multipart.ts:76-121 | a body is accepted with a form if and only if the walk over its parts reaches a closing mark with it |
| `Refusals.RefusedIff` | packages/usai/src/multipart.ts:76-108 | a body is refused for a reason if and only if the walk meets it: no first delimiter, a bad boundary line, headers without end, a part without a name or without a delimiter after it |
| `Refusals.HeaderRefusedIff` | packages/usai/src/multipart.ts:68-71 | the content type is refused exactly if it is not form data or has no boundary |
| `Multipart.TakeParts` | packages/usai/src/multipart.ts:76-120 | the cursor strictly advances on every input |
| `Multipart.TakeTurn` | packages/usai/src/multipart.ts:79-118 | one turn: closing mark, boundary line, headers, name, data without its framing CRLF |
| `Multipart.Encode` | packages/usai/src/multipart.ts:144-178 | the chunks copied into one buffer are the framed parts; an unsafe name is refused |
| `Refusals.EncodesIff` | packages/usai/src/multipart.ts:150-153 | parts are encoded if and only if every name is safe; otherwise the first that is not is named |
| `Multipart.SanitizedEach` | packages/usai/src/multipart.ts:154-159 | quotes and backslashes of a filename become underscores and nothing else changes |
| `Multipart.Join` | packages/usai/src/multipart.ts:170-176 | copying by offset concatenates the chunks |
| `Multipart.FramesParse` | packages/usai/src/multipart.ts:76-120 | whatever the parts, parsing their frames gives them back in order, for any reading of headers that finds a name |
| `Multipart.HeadersBack` | packages/usai/src/multipart.ts:87-99 | the name, filename and type written into the headers are read back |
| `Multipart.BoundaryBack` | packages/usai/src/multipart.ts:42-48 | the boundary written into the content type is read back |
| `Multipart.QuotedBack` | packages/usai/src/multipart.ts:42-48 | a quoted parameter is read up to its closing quote |
| `Multipart.RoundTrip` | packages/usai/src/multipart.ts:67-178 | parsing what was encoded gives exactly the files and the ordered fields, and each name its last value; filenames without quotes and backslashes come back unchanged |
| `Vlq.Decode` | crates/usai-runtime/src/sourcemap.rs:46-66 | the loop over digits computes the number they spell, or refuses |
| `Vlq.RawFits` | crates/usai-runtime/src/sourcemap.rs:46-66 | a reading never exceeds five bits a digit, 40 in all |
| `Vlq.ReadsBack` | crates/usai-runtime/src/sourcemap.rs:46-66 | an encoded number is read back and its length consumed if and only if it is below 2^39 in magnitude; a longer one is refused |
| `SourceMap.Parse` | crates/usai-runtime/src/sourcemap.rs:90-119 | the nested loops with running sums compute the line-by-line reading |
| `SourceMap.MappingsRoundTrip` | crates/usai-runtime/src/sourcemap.rs:90-119 | parsing the delta-encoded print of any non-empty table of u32 segments gives the table |
| `SourceMap.SegmentBack` | crates/usai-runtime/src/sourcemap.rs:96-115 | one printed segment is read back and moves the sums to it |
| `SourceMap.OneNumberMoves` | crates/usai-runtime/src/sourcemap.rs:101-103 | a number alone moves the generated column and maps nothing |
| `SourceMap.NameIsIgnored` | crates/usai-runtime/src/sourcemap.rs:103-115 | a fifth number is read over |
| `SourceMap.ShortSegmentRefused` | crates/usai-runtime/src/sourcemap.rs:103-107 | two numbers or three refuse the map |
| `Stacks.PartitionPoint` | crates/usai-runtime/src/sourcemap.rs:126 | halving ends where the columns pass the target |
| `Stacks.BoundaryIsLast` | crates/usai-runtime/src/sourcemap.rs:126 | on such a line the one place where the columns pass the target is after the last segment at or before it |
| `Stacks.Lookup` | crates/usai-runtime/src/sourcemap.rs:123-133 | the segment just before that point; on non-decreasing columns, what scanning every segment gives |
| `Stacks.FoundIsScanned` | crates/usai-runtime/src/sourcemap.rs:123-133 | halving and scanning find the same position on a line whose columns do not decrease |
| `Stacks.MapStack` | crates/usai-runtime/src/sourcemap.rs:136-170 | on every map and string the loop ends and gives what reading the string character by character gives: frames the map knows replaced by their position, all else copied; with lines in column order, the positions scanning finds |
| `Stacks.FindsItsSegment` | crates/usai-runtime/src/sourcemap.rs:123-133 | every column that a segment covers is found at the segment's source, line and column, counted from one |
| `Stacks.FrameRewritten` | crates/usai-runtime/src/sourcemap.rs:136-170 | a frame at such a column is rewritten to that source, line and column |
| `Stacks.ShownReadsBack` | crates/usai-runtime/src/sourcemap.rs:150-152 | a written position reads back as its source, line and column |
| `Stacks.TakeFrame` | crates/usai-runtime/src/sourcemap.rs:140-167 | at one prefix: the position written and the frame skipped, or the prefix copied |
| `Stacks.CopiedVerbatim` | crates/usai-runtime/src/sourcemap.rs:136-170 | text in which no known frame starts is copied as it is |
| `Stacks.UnknownUnchanged` | crates/usai-runtime/src/sourcemap.rs:136-170 | a trace with no known frame is unchanged |
| `Quantile.HttpStats.Record` | crates/usai-runtime/src/observability.rs:339-345 | the buckets count the recorded latencies and the sum adds their whole microseconds |
| `Quantile.HttpStats.Snapshot` | crates/usai-runtime/src/observability.rs:354-374 | each cumulative count is how many latencies are within its bound, and the sum is theirs |
| `Quantile.BucketIff` | crates/usai-runtime/src/observability.rs:340-342 | a latency is in a bucket or an earlier one iff it is within its bound |
| `Quantile.BucketsAddUp` | crates/usai-runtime/src/observability.rs:354-374 | the buckets up to one add up to what is within its bound |
| `Quantile.WindowQuantile` | crates/usai-cli/src/top.rs:134-162 | the scan finds the first bucket whose growth covers the quantile, or none, as ReportedIff says of it |
| `Quantile.ReportedIff` | crates/usai-cli/src/top.rs:146-160 | a bucket is reported if and only if the window is not empty and it is the first whose growth makes up the share of the whole |
| `Quantile.WantLeast` | crates/usai-cli/src/top.rs:152 | the rank asked for is the least that makes up the share |
| `Quantile.RankExists` | crates/usai-cli/src/top.rs:152 | every non-empty window has a rank for every quantile |
| `Quantile.QuantileRefines` | crates/usai-cli/src/top.rs:134-162 | for every history, non-empty window and 0 < q <= 1, a bucket is reported, and sorting the window and picking rank k, where k of the window make up the share q and k - 1 do not, gives a latency above the previous bound and within the reported one |
| `Quantile.SortSorted` | crates/usai-cli/src/top.rs:134-162 | the reference is a sorted permutation of the window |
| `Civil.DayRoundTrip` | crates/usai-cli/src/logfmt.rs:169-180 | every integer day, negatives included, gives a valid date that gives the day back |
| `Civil.DateRoundTrip` | crates/usai-cli/src/logfmt.rs:169-180 | every valid date is the date of its day |
| `Civil.Successor` | crates/usai-cli/src/logfmt.rs:169-180 | the day after is the calendar's next date |
| `Civil.InOrder` | crates/usai-cli/src/logfmt.rs:169-180 | dates are ordered as their days are |
| `Civil.DayInYear` | crates/usai-cli/src/logfmt.rs:172-175 | the year-of-era formula is right on every day of an era |
| `Civil.Epoch` | crates/usai-cli/src/logfmt.rs:169-180 | day 0 is 1970-01-01 |
| `Timestamps.StampsInOrder` | crates/usai-cli/src/logfmt.rs:111-129 | through the year 9999, printed timestamps sort as the clock, to the microsecond |
| `Timestamps.FifthDigitBreaksOrder` | crates/usai-cli/src/logfmt.rs:122-127 | every timestamp of the years 10000 to 19999 sorts before every one of the years 2000 to 9999 |
| `Timestamps.SortedThroughIff` | crates/usai-cli/src/logfmt.rs:111-129 | all timestamps up to a time sort as the clock if and only if its year is at most 9999 |
| `Timestamps.StampReadsBack` | crates/usai-cli/src/logfmt.rs:111-129 | a printed timestamp reads back to its time, to the microsecond, in every year |
| `Timestamps.Rendered` | crates/usai-cli/src/logfmt.rs:122-127 | the fields stand between the separators of RFC 3339 |
| `Migrations.Discover` | crates/usai-runtime/src/db.rs:86-132 | each path once, names strictly increasing; a refusal names two files of one name |
| `Migrations.AppliedOnce` | crates/usai-runtime/src/db.rs:395-435 | however migrators interleave no name is applied twice, and the ledger is what it was and what was applied |
| `Migrations.SuccessConverges` | crates/usai-runtime/src/db.rs:395-435 | a successful migrator leaves every file in the ledger, under its own checksum unless another inserted it since, and reports exactly what it applied in increasing order |
| `Migrations.MismatchStops` | crates/usai-runtime/src/db.rs:408-417 | a checksum mismatch is one the ledger had at the start; the names applied are among the files before it, and all of those are in the ledger |
| `Migrations.Database.Migrate` | crates/usai-runtime/src/db.rs:395-435 | the loop computes the file-by-file result and ledger |
| `Migrations.MigrateReportsExactly` | crates/usai-runtime/src/db.rs:395-435 | it succeeds if and only if no file is in the ledger under another checksum; then it reports exactly the names the ledger gained, in increasing order, with every file recorded; otherwise it names a file that clashes |
| `Migrations.GainsOnlyFiles` | crates/usai-runtime/src/db.rs:395-435 | what the ledger gains are files, under their own checksums |
| `Migrations.Database.ApplyIfAbsent` | crates/usai-runtime/src/db.rs:421-433 | a file is applied if and only if its name was absent |
| `Migrations.SecondMigrateIsIdle` | crates/usai-runtime/src/db.rs:395-435 | after a success, migrating again applies nothing and changes nothing |
| `Manifest.Flatten` | packages/usai/src/declarations.ts:570-676 | the loops compute the flattening, which FlattensIff describes |
| `Flattening.FlattensIff` | packages/usai/src/declarations.ts:570-668 | an application flattens if and only if one name is one module and one resource and no two workloads have one id; then each module's workloads stand together in their order, after those of the modules listed before it, the application's last, and exactly the declared resources are there, once each; otherwise the first of these that fails is named |
| `Flattening.FlattenedHas` | packages/usai/src/declarations.ts:634-642 | a workload is in the result if and only if the application or a module that counts declares it |
| `Flattening.SameIdIff` | packages/usai/src/declarations.ts:671-676 | two workloads have one id exactly when they are of one kind and have the same route, if routed, or else the same name |
| `Manifest.Describe` | packages/usai/src/manifest.ts:237-300 | the loop computes the description, which DescribesIff describes |
| `Flattening.DescribesIff` | packages/usai/src/manifest.ts:237-300 | an application is described if and only if it flattens and one name is one scheme; the description says what each workload declares, at its place, and names each resource and scheme |
| `Manifest.Install` | crates/usai-runtime/src/definition.rs:787-826 | the host's checks in their order, and its index |
| `Manifest.InstallsIff` | crates/usai-runtime/src/definition.rs:787-826 | on any description: accepted if and only if every workload has a name, an id of its own, a body bound only where it takes a body, and refers only to what the description has, and no resource is named twice; otherwise a problem there is is named |
| `Manifest.BuildAndHostAgree` | crates/usai-runtime/src/definition.rs:787-826 | what is described the host accepts if and only if every workload has a name and bounds a body only where it takes one; the index then gives each id its ordinal |
| `Flattening.OrdinalsAreDeclared` | crates/usai-runtime/src/definition.rs:787-815 | the host's ordinal of a module's workload is the number of workloads of the modules listed before it plus its own place, the application's follow all of them, and there are no others |
| `Manifest.DescribedRefersWell` | packages/usai/src/manifest.ts:237-300 | a description has unique ids and resources and refers only to schemes and resources it declares |
| `Manifest.IndexedIff` | crates/usai-runtime/src/definition.rs:787-815 | the host's loop succeeds on such a description exactly when its workloads are acceptable, and fails only for those reasons |
| `Manifest.AddAllAdds` | packages/usai/src/declarations.ts:583-601 | adding resources keeps names unique and loses none |

## Left out

- The guest engine, the bridge, Postgres, queues, cron, tasks and services: their answers are inputs or free choices of a step.
- Wrap-around of 64-bit ids and counters, and memory orderings: ids and counters are unbounded.
- The grain of a step: a lock section, or a control operation between two of its awaits, is one step; an activation has three, a drain two, and an admission two: the check of the revision's state, and then its three acquisitions and its count together. Admissions that interleave between two acquisitions are not modelled.
- Flattening.SameIdIff: asks that no kind has a colon and no method a blank.
- Lifting.SecondShapeKept: asks that an object has each key once, as a JSON map does.
- Liveness: that a drain is woken, that a retirement is ever polled, or that a task ever ends.
- Control operations are serialised with each other; installs that overlap are not modelled, and a check followed by a retirement is one step.
- Starting an operation and creating its guard are one step.
- Rate-limited logs, the flush of CPU time into the metrics, status display and Prometheus text.
- Ownership.DeliverySafety: a guest's cancellation counts from the start of its operation on, because cancelling an id that does not exist yet does nothing in the source.
- Drive.DeadlineDiscipline: counts the turns of the loop and not the time the guest runs inside one.
- Watchdog.ReportsExact: takes the deadline as armed and does not model how the slice is cut to what is left of the world's deadline.
- Stream-event and socket components of the OpenAPI document, `clean`, parameters and paths: not part of the schema lifting.
- LiftingMeaning.MeaningPreserved: asks that each id has one body a side, that suffixed names are fresh, that `$defs` stand only at the top of an emitted schema, that every `$ref` in a schema holds a string, that a schema refers to no id which only another schema of its side defines, that a marker is `true`, and that no reference names a lifted component already; it says nothing of two input shapes under one id. That ids with equal bodies unfold alike on both sides is needed, by OutputFormsKeptIff.
- LiftingMeaning.OutputFormsKeptIff: asks the same of the document, but for ids with equal bodies.
- UTF-8 decoding and byte order marks in multipart bodies: bytes are characters; a field named `__proto__` is an ordinary name.
- Multipart.RoundTrip: a file's content type comes back trimmed and its name with quotes and backslashes replaced, as the source does.
- Source map JSON, `sourceRoot` and the trimming of source paths; overflow of 64-bit sums and of `line + 1`.
- SourceMap.Parse: takes the mappings text; the JSON around it and the list of sources are not modelled.
- Stacks.Lookup: says which segment is found on a line whose columns decrease somewhere only for plain halving, an order the standard library does not promise.
- Quantile.HttpStats.Record: leaves out the counters by status class, upgrade and rejection, each of which only counts.
- Quantile.HttpStats.Snapshot: leaves out those counters and the division of the sum into seconds.
- Quantile.QuantileRefines: latencies are integers of nanoseconds and the quantile is a rational; rounding of floats is not modelled.
- Days outside 64 bits; the formatter's other fields.
- Globbing, reading and hashing migration files; a migration that runs outside a transaction and dies before its ledger row is written.
- Manifest.Flatten: leaves out the check for holes in declaration lists, which can only refuse more, and the owner named in a message.
- Manifest.Describe: leaves out durations, environment contracts and the descriptive fields, each of which can only refuse more.
