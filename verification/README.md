# A verified model of the MEP platform's configuration and service logic

The MEP platform configures application rules on external systems, serves DNS
records, registers services at an API gateway and guards its token endpoint.
This project models the state-changing core of those functions in Dafny and
proves what the design promises of them. `dafny verify dfyconfig.toml` checks
everything.

## What is modelled

**The application-configuration saga** (`mepserver/mm5/task`,
`mepserver/common/appd`). A create, update or delete request is compared with
the stored configuration and staged as job, task and status records. A worker
pushes the differences rule by rule to the data-plane and to the DNS server,
recording a state after each call, and on a failure walks the same tables
backwards with the rule maps swapped.

- `AppConfig`, `Targets`, `DataStore`: rules and records; the external systems
  as one map of cells in which every call may fail and other workers may change
  foreign cells between any two calls; the key-value store with its prefix reads
  and deletes, in which every write may fail.
- `RuleOps`, `RuleMaps`, `RuleDiff`: the operation tables, the rule maps and the
  update difference.
- `SyncPlan`, `SyncLink`, `StatusDb`, `TaskPoll`: the ledger that relates the
  external content to the stages done so far, the bookkeeping that relates the
  status record to the ledger, and what a polling client sees.
- `SyncTask`, `SyncWorker`: the task and the worker, with faults everywhere.
- `Staging`, `Mirror`: the request handlers, and what it means to mirror a
  configuration.
- `Runs`, `Switches`, `CarryRuns`, `PollRuns`: whole runs of interleaved requests,
  workers and single rule updates of all applications under all faults; what
  workers can rely on whatever the external systems hold, and what polling
  clients see.
- `MirrorInvariant`, `ToggleRuns`, `MirrorRuns`, `System`: the mirror invariant, and
  the handlers and workers as the steps of runs.
- `Completion`, `EndToEnd`: in the fields of the rules alone, when a task completes
  and what DNS questions and the data-plane then show.
- `PrefixRuns`, `RepeatedIds`: exclusion for application ids of any length, and
  tasks whose rule ids repeat.

**The single DNS rule update** (`DnsRuleUpdate`): store, DNS server and
data-plane changed in sequence with compensation, under entity tags.

**The DNS server** (`ZonedStore`, `FlatDns`, `DnsAgent`): zones of records against
one flat map, and the proof that the server, as the platform's agent drives it,
behaves as the target that the saga relies on.

**The plan runner** (`PlanRunner`), **the block list of access keys**
(`BlockListHistory`, `BlockList`), **gateway endpoints** (`Gateway`), **the
liveness timestamp** (`Timestamp`) and **JSON Pointer tokens** (`JsonPointer`).

## Where the code departs from its intention

- A failed configuration write at the end of a task goes unnoticed, because the
  error that is returned is the nil one (`mepserver/mm5/task/sync.go:731-735`).
  The outcome `Completed(false)` is that case.
- A modification that leaves a rule inactive on both sides calls set, which a
  target refuses because the record is absent; the task is then reverted.
  `RuleOps.ApplyAccepted` gives the exact condition for one call,
  `Completion.CompletableIff` that for a whole task.
- Every call of a modification addresses the new rule's domain
  (`sync.go:569-599`). Renaming an active rule is refused and cleanly reverted;
  a rename that also activates the rule is applied but cannot be compensated.
  `RuleOps.RevertAccepted` gives the exact condition,
  `RuleOps.ActivatingRenameIsNotReverted` an instance.
- A status write that fails right after an accepted call leaves that call's cell
  behind, because the revert skips the state that was not recorded
  (`sync.go:430-437`, `446-451`). Nothing else can be left behind.
- Jobs are looked for and dropped by path prefix, and the create, update and
  delete handlers do not look at the form of an application id
  (`mepserver/mm5/plans/appd_config_create.go:69-74`). A prefix delete takes other
  records too exactly when a stored id goes on where its own ends, and an
  application can get two workers exactly when one id in use is a proper prefix
  of another (`PrefixRuns.ExclusiveIffPrefixFree`).
- While a failed task is being undone, entries leave the ready state but the count
  of ready rules is not taken back, so that a client sees the percentage stand still
  until the failure mark is written (`mepserver/mm5/task/taskstatus_db.go:80-83`).
  `PollRuns.PollsCountReady` says which records count exactly.
- Rule ids may repeat: no handler asks for unique ones, and states are recorded for
  the first entry with an id. A pass over such a task that meets no failure polls
  as a success and is then turned down, so that a client sees success before
  failure. `RepeatedIds.SuccessStandsIff` gives the exact condition,
  `RepeatedIds.RepeatedIdLeavesSuccess` an accepted request.
- The single rule update does not look for a pending job of its application. It
  does a pending job no harm exactly when the job spares the rule
  (`ToggleRuns.ToggleKeepsInvariantIff`); otherwise the job is later saved over
  targets that were switched meanwhile.
- The check for taken domain names compares spellings, while the DNS server folds
  case and the agent adds a closing dot. `Runs.StageKeepsDomains` gives the exact
  condition under which names stay unique, `Runs.SpellingsCollide` the family of
  requests that slip through.
- Alternative endpoints in a service update leave the registered endpoints as they
  are; `Gateway.Instance.RegisterEndpoints` says when that matters.
- The rule validator accepts a lifetime of 0 and names of 255 characters, which the
  DNS server refuses; to a task such a refusal is a failed call.
- A set request that names another zone than the record's leaves two records for
  one name, and the order of the zone search decides which one answers. The
  platform's own agent always names one zone.
- Validation windows of the block list do not slide: they are anchored at the
  bad signature that opened them.
- The liveness timestamp is cut in the middle of its digits, which is right
  exactly for instants of 19 or 20 digits.
- Service names that hold a slash are not read back from endpoints.

## Model

| member | source | states |
|---|---|---|
| DataStore.PrefixIsExact | mepserver/common/extif/backend/datastore.go:33-48 | for ids of one length, one record path is a prefix of another if and only if they are the same key |
| DataStore.ReachedIsExact | mepserver/common/extif/backend/datastore.go:101-112 | for ids of one length a prefix read or delete reaches exactly the one key that was meant |
| DataStore.PathsNestAsIds | mepserver/common/extif/backend/datastore.go:33-48 | for ids of any length, one path of a section is a prefix of another if and only if its id is |
| DataStore.DeleteIsExactIff | mepserver/common/extif/backend/datastore.go:101-112 | for every store and id, a prefix delete takes its own record and no other if and only if no stored id goes on where it ends |
| DataStore.FoundIsExactIff | mepserver/common/extif/backend/datastore.go:33-48 | a prefix read finds something exactly when the record is stored, if and only if it is or no stored id goes on where it ends |
| DataStore.OtherJobIsLost | mepserver/mm5/task/sync.go:765-770 | dropping the job of application "ab" also drops the job of application "abc" |
| DataStore.EqualLengthIsExact | mepserver/common/extif/backend/datastore.go:101-112 | for a store whose ids have one length, prefix reads and deletes by path are exact ones by key |
| PrefixRuns.ReachesOwnJob | mepserver/common/appd/appd.go:70-83 | with prefix-free ids the search for a job reaches the job that was meant and no other |
| PrefixRuns.SecondWorker | mepserver/common/appd/appd.go:70-83 | if one id goes on from another, a run of four steps gives the longer one two workers |
| PrefixRuns.ExclusiveIffPrefixFree | mepserver/common/appd/appd.go:70-83 | over all runs with a set of ids, with stages that fail halfway and workers that cannot drop their job, no application has two workers if and only if no id is a proper prefix of another |
| DataStore.Backend.GetRecord | mepserver/common/extif/backend/datastore.go:33-48 | the prefix search returns the record of the key, or nothing |
| DataStore.Backend.DeleteRecord | mepserver/common/extif/backend/datastore.go:101-112 | the prefix delete removes exactly the key, or fails with no effect |
| DataStore.Backend.DeletePaths | mepserver/common/extif/backend/datastore.go:115-128 | removes nothing but the given paths, and all of them unless a delete failed; a failure is reported unless told to go on |
| RuleOps.ApplyAccepted | mepserver/mm5/task/sync.go:480-693 | over a mirroring target an operation is accepted if and only if its change is completable, and then changes its one cell to the new value |
| RuleOps.RevertAccepted | mepserver/mm5/task/sync.go:480-693 | the compensating operation is accepted if and only if the change kept its cell, and then restores the old value |
| RuleOps.ApplyThenRevert | mepserver/mm5/task/sync.go:178-222 | table-level inverse for every operation, state combination, target and agent type: apply then revert is the identity |
| RuleOps.ActivatingRenameIsNotReverted | mepserver/mm5/task/sync.go:569-599 | a rename that activates a rule is applied and cannot be compensated |
| RuleMaps.GenerateRuleMap | mepserver/mm5/task/sync.go:228-299 | for any lists: the primary rules with the last of an id winning, in front of the secondary rules with the first winning; and the secondary list |
| RuleMaps.TableResolves | mepserver/mm5/task/sync.go:178-222 | looking an entry up in the maps of the apply pass gives the change's call, and in the swapped maps of the revert pass its compensation |
| RuleDiff.HandleRuleUpdate | mepserver/common/appd/appd.go:319-361 | the change list names every difference between requested and stored rules once, correctly classified, and nothing else |
| RuleDiff.ProcessRulesFromIdMap | mepserver/common/appd/appd.go:363-404 | the marked maps, ranged over in any order, turn into exactly the differences |
| RuleDiff.HandleRuleCreateOrDelete | mepserver/common/appd/appd.go:293-311 | names every difference to or from the empty configuration in list order, and each of them once if and only if rule ids are unique |
| RuleDiff.PatchOfDiff | mepserver/common/appd/appd.go:319-404 | patching the stored rules with their difference gives exactly the requested rules |
| RuleDiff.DiffIsEmpty | mepserver/common/appd/appd.go:182-188 | the difference is empty if and only if the rule maps are equal |
| StatusDb.StatusDB.SearchRule | mepserver/mm5/task/taskstatus_db.go:51-58 | finds the first entry with the id, or reports that there is none |
| StatusDb.StatusDB.SetStateAndProgress | mepserver/mm5/task/taskstatus_db.go:60-101 | moves one entry, counts it when it becomes ready and persists both; a failed write leaves memory and store as they were |
| StatusDb.StatusDB.PushDB | mepserver/mm5/task/taskstatus_db.go:103-118 | writes the status record of this task and nothing else, or fails with no effect |
| TaskPoll.PollsAreMonotone | mepserver/mm5/plans/appd_get_taskstatus.go:105-115 | for any two records in the order in which a task writes them, the percentage is in 0..100, is 100 exactly on success and does not fall unless the task failed, and success and failure are never left; percentage times total is at most 100 times the count and one percent more exceeds it |
| TaskPoll.PollReads | mepserver/mm5/plans/appd_get_taskstatus.go:105-115 | for every record: the percentage is the largest whole one within 100 times the count out of the total, 0 once the count is negative; failure exactly for a negative count, success exactly for the total |
| PollRuns.RunKeepsCounted | mepserver/common/appd/appd.go:182-188 | in every state of every run of requests with unique rule ids, under all faults, each stored status record has at least one rule, so the divisor of the percentage is never zero, and marks failure or counts no fewer rules than are ready |
| PollRuns.PollsInOrder | mepserver/mm5/plans/appd_get_taskstatus.go:78-121 | over every run of requests with unique rule ids, whatever faults occur and whatever the external systems hold, any two polls of a task, between steps or while its worker runs, read their records and are in order in that sense |
| PollRuns.PollsCountReady | mepserver/mm5/task/taskstatus_db.go:60-101 | over such runs the count behind every poll marks failure or is not below the number of ready entries; it is that number in every record of a worker that gets all of them ready, and in the records of any other worker up to the one at which it turns back, from where it stands still |
| PollRuns.StepKeepsPollable | mepserver/common/appd/appd.go:113-129 | every step keeps each status record within reach of a status query, through the record of its task, and in a state that the query can read |
| System.Server.Poll | mepserver/mm5/plans/appd_get_taskstatus.go:78-121 | a status query is answered from the status record that the record of the task leads to, reading its count and details, and finds nothing exactly when one of the two is missing; in every state of a run each task that has a status record gets its answer |
| CarryRuns.RunKeepsCarried | mepserver/mm5/task/sync.go:80-132 | over such runs every worker in flight finds a task that it can keep its books for, whatever ends came before, and stored rule ids stay unique |
| RepeatedIds.SuccessStandsIff | mepserver/mm5/task/sync.go:696-738 | for every task, a pass without a failure polls as a success, and the readiness check then passes if and only if no rule id repeats |
| RepeatedIds.RepeatedIdLeavesSuccess | mepserver/mm5/task/taskstatus_db.go:60-101 | a create request with two inactive traffic rules of one id is staged, polls as a success and then as a failure |
| RepeatedIds.RecordedIs | mepserver/mm5/task/taskstatus_db.go:60-101 | recording a state moves the first entry with the id |
| SyncLink.BooksAdvanced | mepserver/mm5/task/taskstatus_db.go:60-101 | recording a state keeps the bookkeeping exact, in particular that progress is the number of ready rules |
| SyncPlan.BalancedIsLedger | mepserver/mm5/task/sync.go:302-478 | replaying the done stages onto the initial content and the cell-by-cell account of the content say the same |
| SyncPlan.LedgerApply | mepserver/mm5/task/sync.go:412-441 | an accepted apply call moves the account one stage forward and touches no other change's cell |
| SyncPlan.LedgerRevert | mepserver/mm5/task/sync.go:443-478 | an accepted compensation moves the account one stage back |
| SyncPlan.LedgerResidue | mepserver/mm5/task/sync.go:430-437 | a call whose state could not be recorded leaves the account over a base that differs in that one cell |
| SyncPlan.ResidueIsOneCell | mepserver/mm5/task/sync.go:446-451 | what a reverted task can leave behind is at most one cell |
| SyncTask.Task.RunOperation | mepserver/mm5/task/sync.go:412-441 | one table entry of the apply pass: foreign cells stay; from a mirrored state success advances the account, a failure changes no own cell and, without a fault, means that the change is not completable |
| SyncTask.Task.ProcessEntryApply | mepserver/mm5/task/sync.go:321-351 | carries one entry through its states from the recorded one on; a failure leaves at most the last call's cell unrecorded, and only if a status write failed |
| SyncTask.Task.EntryCallable | mepserver/mm5/task/sync.go:228-299 | for an entry that finds its rules, with repeated ids or not, the maps of both passes give the table an operation to run, on a cell of the task |
| SyncTask.Task.HandleRulesApply | mepserver/mm5/task/sync.go:302-319 | applies the entries of one kind in order, each fully or not beyond its first failure, with the bookkeeping exact throughout when no id repeats and, from a mirrored state, the account too |
| SyncTask.Task.RevertOperation | mepserver/mm5/task/sync.go:443-478 | one table entry of the revert pass: success takes the account back, failure without a fault means that a change left its cell |
| SyncTask.Task.ProcessEntryRevert | mepserver/mm5/task/sync.go:353-389 | walks one entry back from the recorded state and leaves it undone, without moving the progress count |
| SyncTask.Task.HandleRulesRevert | mepserver/mm5/task/sync.go:392-410 | undoes the entries of one kind from the swapped maps |
| SyncTask.Task.HandleErrorOnProcessing | mepserver/mm5/task/sync.go:741-762 | a successful error path leaves every own cell as in the base, progress -1 as the last record and no job record |
| SyncTask.Task.MarkFailed | mepserver/mm5/task/sync.go:741-762 | the failure mark is what is stored, and follows a count that never reached the total when no id repeats |
| SyncTask.Task.CleanProcessingCache | mepserver/mm5/task/sync.go:765-770 | success means that the job record is gone |
| SyncTask.Task.HandleConfigDBWriteOnSuccess | mepserver/mm5/task/sync.go:696-738 | goes ahead if and only if every entry is ready, and stores or deletes the configuration unless that write fails unnoticed |
| SyncTask.Task.Run | mepserver/mm5/task/sync.go:80-132 | for every task whose entries find their rules, over any external content: foreign cells and records stay and the stored status record is the last written, -1 and no job when reverted. If no rule id repeats, the status records are lawful, show full progress when completed, and the configuration is saved or kept. From a mirrored state, under every fault pattern: completed with every change done, reverted to the initial content up to one cell, or inconsistent, which one fault alone cannot cause when changes keep their cells; without faults a task completes if and only if all changes are completable |
| Mirror.CompletedIsExact | mepserver/mm5/task/sync.go:302-351 | from an exact mirror of the stored configuration, all changes done give an exact mirror of the requested one |
| Mirror.WorkableBooks | mepserver/mm5/task/sync.go:80-132 | a task whose ids are unique and whose entries find their rules starts with exact books, whatever the external systems hold |
| Mirror.ListsAreFindable | mepserver/common/appd/appd.go:293-404 | the entries of every change list, with repeated ids or not, find the rules that they are about |
| SyncWorker.Worker.ProcessDataPlaneSync | mepserver/mm5/task/sync.go:80-132 | for every staged task whose entries find their rules, whatever faults occur and whatever the external systems hold, foreign cells and records are untouched. If no rule id repeats, the stored status is the last of a lawful history that starts with the staged record, and status, job and configuration settle as the outcome says; if the stored configuration was mirrored, a completed task mirrors the job and a reverted one has its cells as before up to one |
| SyncWorker.Worker.Abandon | mepserver/mm5/task/sync.go:80-132 | a task that cannot be loaded is marked as failed and its job dropped, and nothing else changes |
| Staging.AppDCommon.IsAnyOngoingOperationExist | mepserver/common/appd/appd.go:70-83 | an operation is under way if and only if a job record is stored |
| Staging.AppDCommon.IsDuplicateAppNameExists | mepserver/common/appd/appd.go:50-67 | true if and only if some stored configuration has the name |
| Staging.AppDCommon.FillDnsDomainNames | mepserver/common/appd/appd.go:243-260 | collects exactly the domains that other applications have stored or pending |
| Staging.AppDCommon.IsDnsDomainNameExists | mepserver/common/appd/appd.go:262-291 | true if and only if the request repeats a domain or creates a rule whose domain is taken elsewhere |
| Staging.AppDCommon.BuildTaskStatus | mepserver/common/appd/appd.go:221-241 | both change lists name exactly the differences between what is stored and what the job asks for, and each of them once if and only if rule ids are unique |
| Staging.AppDCommon.AddJobsToDb | mepserver/common/appd/appd.go:113-129 | both records or, if the clean-up meets no fault, neither |
| Staging.AppDCommon.WriteStatusToStore | mepserver/common/appd/appd.go:200-219 | the status record, or job and task records withdrawn if the clean-up meets no fault |
| Staging.AppDCommon.StageNewTask | mepserver/common/appd/appd.go:132-198 | acceptance leaves exactly the three records of a non-empty difference that creates no domain taken elsewhere, the job being the request or, for a delete, what is stored; every rejection names the first of its reasons that stands against the request, and leaves the store as it was if the clean-up meets no fault; without a reason only a fault can reject |
| Staging.AppDCommon.OnRequest | mepserver/mm5/plans/appd_config_create.go:172-230 | without a fault a request is accepted if and only if nothing stands against it: a configuration exists exactly for update and delete and is readable, no other one has the name of a create, the name of an update is the stored one, no job is pending, some rule id differs between requested and stored rules of either kind, no two requested rules share a domain, and no domain of a new id is stored or pending elsewhere; a rejection gives the first of these that fails |
| Runs.RunKeepsExclusion | mepserver/common/appd/appd.go:70-83 | over every run, under all faults, no application has two workers in flight |
| CarryRuns.RunKeepsManned | mepserver/mm5/task/sync.go:80-132 | over every run, under all faults and with repeated rule ids too, no application has two workers in flight, and the entries of each worker's task find their rules, which is all that a worker needs to be a step of the run |
| Runs.StageKeepsDomains | mepserver/common/appd/appd.go:190-197 | staging keeps the names that the server files stored and pending domains under unique across applications, if and only if the names in the request fit: no rule takes over another one's name, equal names are spelled equally, and no stored rule is renamed to a name taken elsewhere |
| Runs.CreatedIsFree | mepserver/common/appd/appd.go:262-291 | a created rule of a staged request has a domain that no other application has in the same spelling |
| Runs.SpellingsCollide | mepserver/common/appd/appd.go:262-291 | for every two spellings of one name, an application can stage one while another application has the other stored |
| Runs.SpellingExample | mepserver/common/extif/dns/rest.go:117-120 | "a.b" and "A.b" are two spellings of one name |
| Runs.EndKeepsDomains | mepserver/common/appd/appd.go:243-291 | so does committing or reverting a task |
| MirrorRuns.StepKeepsInvariant | mepserver/mm5/task/sync.go:178-222 | every admissible request, every cleanly ended task and every single rule update that passes pending jobs by keeps exclusion, unique names, the exact mirror and the readiness of all workers |
| ToggleRuns.ToggleKeepsInvariantIff | mepserver/mp1/plans/dns_one_update.go:270-353 | switching a single rule on or off, targets following, keeps the invariant if and only if no worker of its application is in flight or the pending job spares the rule |
| Switches.SwitchKeepsStagedIff | mepserver/mp1/plans/dns_one_update.go:270-353 | a switch leaves the change list of a pending job right if and only if the job keeps a configuration in which the rule is missing or differs from the stored rule before and after |
| Switches.SwitchKeepsWorkable | mepserver/mp1/plans/dns_one_update.go:270-353 | a switch never harms the books of a pending worker |
| MirrorRuns.InvariantStartsWorker | mepserver/mm5/task/sync.go:80-132 | in every reachable state each worker in flight finds what it relies on |
| MirrorRuns.RunKeepsMirror | mepserver/mm5/task/sync.go:696-738 | over every interleaving the external systems hold exactly the ACTIVE rules of the stored configurations, with their values, and nothing else |
| System.Server.Serve | mepserver/mm5/plans/appd_config_update.go:52-101 | every served request is a step of a run and keeps what workers rely on; it keeps what their books rely on when its rule ids are unique, and the invariant when it is admissible; without a fault it is accepted if and only if nothing stands against it, and a rejection gives the first reason |
| System.Server.Work | mepserver/mm5/task/sync.go:80-132 | whatever the external systems hold and whatever the rule ids, every worker's execution is a step of a run and keeps what workers rely on; if no id repeats, it ends with a poll of success or failure as it completed or reverted. From the invariant: it completes without faults if and only if the job is doable, the outside then sees the rules of the job as it asks for, and undisturbed it keeps the invariant when it completes cleanly or reverts without a failed write, as it does without faults unless a change left its cell |
| Completion.CompletableIff | mepserver/mm5/task/sync.go:480-693 | in rule fields: all changes of a staged task are accepted if and only if, of every rule that differs between job and configuration, the new or the stored version is active and, where the DNS server files the two apart, the new one alone |
| EndToEnd.CompletedIsAnswered | mepserver/mm5/task/sync.go:549-599 | after a completed task the server, showing the content, answers a question for a rule's closed domain, in any letter case, of class 1 and of type 28 for "IP_V6" and 1 otherwise, with exactly one record of the rule's address and lifetime, and with nothing for an INACTIVE rule |
| EndToEnd.CompletedIsPushed | mepserver/mm5/task/sync.go:480-693 | and the data-plane holds the rule under its application and id: domain, address type, address and lifetime of a DNS rule if the agent type includes it, filter type, action, priority and filters of a traffic rule always; nothing for an INACTIVE rule |
| EndToEnd.CompletedIsSeen | mepserver/mm5/task/sync.go:601-693 | both of these for every rule of a job, and for a delete nothing is answered or held for any rule of what was stored |
| EndToEnd.AnswersAreRules | dns-server/datastore/boltdb.go:192-269 | where stored rules are mirrored, a question is answered if and only if an active stored rule stands behind it, and then as that rule says |
| EndToEnd.PlaneIsRules | mepserver/mm5/task/sync.go:178-222 | where stored rules are mirrored, the data-plane holds exactly the active ones that are pushed to it: no DNS rule if the agent is local only, and no record is on the server if it is data-plane only |
| EndToEnd.RunIsSeen | mepserver/mm5/task/sync.go:178-222 | in every state of a clean run, in any interleaving, the outside sees each stored rule as it is stored at that moment, and every answer has an active stored rule behind it |
| EndToEnd.SwitchedIsSeen | mepserver/mp1/plans/dns_one_update.go:270-353 | after a single rule update both systems show the rule in its new state |
| EndToEnd.ServerFollows | mepserver/common/extif/dns/rest.go:111-218 | over any sequence of calls to both systems, sent through the agent, the server goes on showing the joint content, and takes each call about a record if and only if its validation lets it through and the target accepts it |
| System.Server.Switch | mepserver/mp1/plans/dns_one_update.go:182-246 | every single rule update is a step of a run and keeps what workers rely on; store and request decide its reply code up to the call of the targets, and after success both systems show the new state; from the invariant its success has an exact condition and keeps the invariant if and only if pending jobs are passed by, and a failure whose compensation takes effect leaves the world as it was |
| DnsRuleUpdate.Update.UpdateRemotes | mepserver/mp1/plans/dns_one_update.go:270-353 | for every fault pattern and any targets: success changes all three resources together, failure leaves the data-plane and, unless its roll-back write fails, the stored rule; if the targets mirrored the rule, failure leaves the DNS record unless both compensations fail, and success has an exact condition |
| DnsRuleUpdate.Update.UpdateTargets | mepserver/mp1/plans/dns_one_update.go:303-341 | the DNS server and then the data-plane: both follow the state, or only the record can differ, and from mirrored targets exactly when both compensations fail |
| DnsRuleUpdate.Update.UpdateDnsToDataPlane | mepserver/mp1/plans/dns_one_update.go:391-416 | a failed data-plane step sends the opposite request to the DNS server |
| DnsRuleUpdate.Update.OnRequest | mepserver/mp1/plans/dns_one_update.go:182-246 | the exact condition of every reply code: rule not stored, tag given and not its tag, no body, body that changes id, domain, address, address type or lifetime or names neither state, states equal, store write failed; it acts in all other cases, and from mirrored targets succeeds if and only if no call fails and the state changes between INACTIVE and ACTIVE. A returned tag is the stored rule's; a failure leaves the stored rule unless the roll-back write fails, and mirrored targets unless both compensations fail |
| DnsRuleUpdate.UpdateTwice | mepserver/mp1/plans/dns_one_update.go:222-234 | no lost update: after arbitrary changes to store and targets in between, an update under an earlier tag is turned down with no effect if and only if the stored rule is not the one the client saw |
| ZonedStore.Store.SetResourceRecord | dns-server/datastore/boltdb.go:120-190 | an accepted set changes one record of one zone, keeping the fields left out, and a refused one nothing |
| ZonedStore.Store.IsResourceRecordExists | dns-server/datastore/boltdb.go:315-363 | true if and only if some zone holds the key |
| ZonedStore.Store.DelResourceRecord | dns-server/datastore/boltdb.go:271-313 | removes the key from one zone that holds it, and fails if and only if none does |
| ZonedStore.Store.GetResourceRecord | dns-server/datastore/boltdb.go:219-269 | searched in any order, the answers come from a zone of the name that has any |
| ZonedStore.Store.ZonesOf | dns-server/datastore/boltdb.go:235-243 | the zones of a name are its label suffixes and the default zone |
| ZonedStore.QuotedDots | dns-server/datastore/boltdb.go:235-243 | a quoted dot starts no zone, a dot after a quoted backslash does |
| ZonedStore.Store.GetRRFromZoneBucket | dns-server/datastore/boltdb.go:192-217 | for a record of the asked class and a question of type 1 or 28 exactly one answer for each address in order, with the name and type asked for, class 1, the record's lifetime and the address; no answer for any other type or class |
| ZonedStore.Controller.ValidateSetRecordInput | dns-server/mgmt/controller.go:175-215 | accepts exactly the complete records with unicast addresses |
| ZonedStore.Controller.HandleAdd | dns-server/mgmt/controller.go:70-116 | is a step that refuses a present key |
| ZonedStore.Controller.HandleSet | dns-server/mgmt/controller.go:118-173 | is a step that refuses an absent key |
| ZonedStore.Controller.HandleDelete | dns-server/mgmt/controller.go:217-237 | is a step that refuses an absent key |
| FlatDns.AddStatusIs | dns-server/mgmt/controller.go:70-116 | an add is accepted exactly for a complete record (names up to 253, addresses up to 45 characters, positive lifetime), of type A or AAAA and class IN, CS, CH or HS, that no zone holds in any letter case; bad request exactly for an incomplete or present one |
| FlatDns.SetStatusIs | dns-server/mgmt/controller.go:118-173 | the same for a set, which asks for a present record and for the path to name it |
| FlatDns.DeleteStatusIs | dns-server/mgmt/controller.go:217-237 | a delete is accepted exactly for a record that some zone holds, whichever zone it names |
| FlatDns.WrittenIsGood | dns-server/datastore/boltdb.go:120-153 | a set keeps the class and data it leaves out, takes those it gives, and never stores a zero lifetime, no data or the wildcard class |
| FlatDns.StepRefines | dns-server/mgmt/controller.go:100-107 | every step has the status and the effect of the same request on a flat map, and keeps a key in one zone, if a set names the record's zone |
| FlatDns.SetKeepsOneZone | dns-server/mgmt/controller.go:157-164 | an accepted set keeps a key in one zone if and only if it names the record's zone |
| FlatDns.RunRefines | dns-server/datastore/boltdb.go:155-190 | over every run: the flat map's statuses and content, one zone for each key, and only records with positive lifetime, data and a concrete class |
| FlatDns.LookupIsFlat | dns-server/datastore/boltdb.go:219-269 | in whatever order zones are searched, lookup is the flat lookup if the record lies in a zone of its name, and finds nothing otherwise |
| FlatDns.LookupInFields | dns-server/datastore/boltdb.go:192-269 | field by field: a question is answered exactly if its type is 1 or 28 and a record of its lower-cased name, type and class lies in a zone of the name, and then with that record's lifetime and addresses in order |
| FlatDns.AddedIsAnswered | dns-server/mgmt/controller.go:70-116 | round trip for A and AAAA: a question for the name of an added record, in any letter case, is answered with its addresses and lifetime if the record's zone is a zone of its name and the class is its own, and not at all otherwise |
| FlatDns.AddThenAsk | dns-server/datastore/boltdb.go:219-269 | the same through the handler and the lookup |
| FlatDns.LookupIgnoresCase | dns-server/datastore/boltdb.go:220-226 | letter case changes nothing but the echoed name, as in section 2.3.3 of RFC 1035 |
| FlatDns.MovedRecordIsAmbiguous | dns-server/mgmt/controller.go:157-164 | a set into another zone leaves two records, either of which may be found |
| DnsAgent.AgentIsTarget | mepserver/common/extif/dns/rest.go:111-218 | driven by the agent, the server accepts a call if and only if its validation lets it through and the saga's target accepts it, and then takes the same effect; any other call changes nothing |
| DnsAgent.AgentIsInPlace | mepserver/common/extif/dns/rest.go:37-37 | the agent's requests always name the record's zone |
| PlanRunner.GrpGetRetCode | mepserver/common/arch/workspace/runner.go:118-131 | finds the first failing step and its code |
| PlanRunner.Plan.Install | mepserver/common/arch/workspace/workspace_base.go:53-61 | installs the longest prefix of the steps that holds no nil |
| PlanRunner.Plan.TaskRunner | mepserver/common/arch/workspace/runner.go:61-71 | repeats a task until it finishes |
| PlanRunner.Plan.RunSteps | mepserver/common/arch/workspace/runner.go:99-116 | runs steps in order up to and including the first failing one |
| PlanRunner.Plan.GrpRun | mepserver/common/arch/workspace/runner.go:133-145 | runs one group and reports its first failing step |
| PlanRunner.Plan.GotoErrorStep | mepserver/common/arch/workspace/workspace_base.go:167-184 | moves to the group that holds the error step unless it lies behind |
| PlanRunner.Plan.GotoErrorProc | mepserver/common/arch/workspace/workspace_base.go:209-217 | after a failure control goes to the first group with the error step if that lies ahead, else one group on |
| PlanRunner.Plan.RecordErrInfo | mepserver/common/arch/workspace/workspace_base.go:187-206 | the shared error information names the step's group, index, code and message |
| PlanRunner.Plan.WkRun | mepserver/common/arch/workspace/runner.go:39-58 | terminates, runs groups in strictly increasing order, each at most once, and what runs with which error in sight is the plan's trace |
| PlanRunner.FirstErrorWins | mepserver/common/arch/workspace/task_base.go:70-76 | a task reports the first error it raises in any attempt |
| PlanRunner.NoErrorNoFailure | mepserver/common/arch/workspace/task_base.go:70-76 | a task that raises no error does not fail |
| PlanRunner.TryThenFinally | mepserver/common/arch/workspace/workspace_base.go:116-129 | for any number of Try groups: the steps run in order up to and including the first that fails, all later Try steps of that group and of the other groups are passed over, and Finally runs exactly once, after them, and sees the failing step's group, index, code and message |
| BlockList.BlockList.ProcessAkForBlockListing | mepauth/controllers/blocklist.go:108-125 | opens a window, counts within it, or blocks at the third bad signature, with one running timer for each listed key |
| BlockList.BlockList.ClearAkFromBlockListing | mepauth/controllers/blocklist.go:128-133 | a good signature takes a key in validation off the list together with its timer |
| BlockList.BlockList.StartValidatingAk | mepauth/controllers/blocklist.go:54-68 | lists the key with counter 1 and a 300 s timer |
| BlockList.BlockList.StopValidatingAk | mepauth/controllers/blocklist.go:71-87 | stops the timer and clears counter and state |
| BlockList.BlockList.StartBlockListingAk | mepauth/controllers/blocklist.go:90-105 | blocks a listed key with a 900 s timer |
| BlockList.BlockList.GetToken | mepauth/controllers/token.go:81-99 | a request is refused if and only if the key's history locks it; timers, counters and states stay consistent |
| BlockList.BlockList.AdvanceTo | mepauth/controllers/blocklist.go:60-66 | time passes, due timers fire in any order, and every session stays the one its history describes |
| BlockListHistory.RefusedIffLocked | mepauth/controllers/blocklist.go:36-133 | blocked at a time if and only if the third bad signature of a window, with no good one between, came less than 900 s ago |
| BlockListHistory.LockoutInSeconds | mepauth/controllers/blocklist.go:108-125 | three bad signatures lock a key exactly if the third comes less than 300 s after the first, and for 900 s from then on; two never do |
| BlockListHistory.LockedNeedsThree | mepauth/controllers/blocklist.go:108-125 | a locked key has three bad signatures within 300 s with no good one between |
| BlockListHistory.WindowsDoNotSlide | mepauth/controllers/blocklist.go:54-68 | the converse fails for bad signatures at 0, 299, 301 and 310 s |
| Gateway.Instance.CompareEndPointsWithDB | mepserver/common/models/serviceinfo.go:208-243 | splits requested and stored URIs into new, kept and deleted, with a generated name for each new one |
| Gateway.Instance.HandleEndPointUri | mepserver/common/models/serviceinfo.go:173-206 | afterwards the endpoint properties are exactly the requested URIs, kept ones keep their name, and the gateway's services are exactly the names, each leading to its URI |
| Gateway.Instance.RegisterEndpoints | mepserver/common/models/serviceinfo.go:136-167 | the same for URIs, addresses and the update that drops all endpoints; alternative endpoints change nothing, so the properties are the requested URIs if and only if none was registered before |
| Gateway.Instance.CleanUpAll | mepserver/mp1/plans/svc_one_delete.go:55-61 | deleting a service leaves the gateway with the other instances' services only |
| Gateway.AddressUriInjective | mepserver/common/models/serviceinfo.go:141-145 | two addresses have one URI only if host and port are equal |
| Gateway.GatewayPorts | mepserver/common/models/serviceinfo.go:183-193 | endpoints lead to port 8443 of the gateway with SSL and to port 8000 without |
| Gateway.NamesReadBackIff | mepserver/common/util/meputil.go:738-745 | the names read back from the endpoints are the registered ones if and only if none has a slash |
| Gateway.GetApiGwSerName | mepserver/common/util/meputil.go:738-745 | takes the text after the last slash of each endpoint |
| Timestamp.PiecesAre | mepserver/common/models/serviceinfo.go:114-116 | the two pieces are quotient and remainder by a power of ten, for every instant |
| Timestamp.CutIsRightIff | mepserver/mp1/plans/heartbeat_patched.go:203-205 | that power is 10^9 if and only if the instant has 19 or 20 digits |
| Timestamp.ClockIsCutRightIff | mepserver/mp1/plans/heartbeat_patched.go:203-205 | for 64-bit instants the cut is right if and only if the instant is at least 10^18 ns |
| Timestamp.ReadBack | mepserver/common/models/service_liveness_info.go:62-73 | the reader recovers seconds and nanoseconds if and only if the seconds are below 2^32, and reports an error otherwise |
| JsonPointer.ParseRender | mepserver/common/arch/bus/base.go:142-162 | for every non-empty token list, escaping and repeatedly taking the first name gives the tokens back |
| JsonPointer.FirstNameIs | mepserver/common/arch/bus/base.go:142-162 | on every path the first name is the decoded text up to the next slash, and a slash in front may be left out |
| JsonPointer.TwoPassesAreOne | mepserver/common/arch/bus/base.go:156-160 | replacing all `~1` and then all `~0` is the one-pass decoding of section 4 of RFC 6901, on every string |
| JsonPointer.OrderMatters | mepserver/common/arch/bus/base.go:158-159 | with the replacements the other way round exactly the tokens that hold `~1` would be read wrongly |

## Left out

- Termination notification and its polling, including the path without a configuration that cleans the jobs prefix.
- HTTP, JSON, TLS, cryptography, the etcd, bolt, Kong and Postgres clients; digests are an injective function.
- Store reads are taken to succeed; only writes, deletes and remote calls fail.
- Workers interleave at the level of whole runs; between two calls of a worker other workers may change foreign cells of the external systems, but not the worker's own records.
- DataStore.PrefixIsExact: for ids of one length, as the platform issues them; DataStore.DeleteIsExactIff and PrefixRuns.ExclusiveIffPrefixFree treat all others.
- DataStore.ReachedIsExact: for ids of one length, like everything in the saga that stands on it.
- MirrorRuns.StepKeepsInvariant: requests have unique rule ids and fitting names (`Runs.Admissible`); Runs.StageKeepsDomains shows that names stay unique in no other case.
- ToggleRuns.ToggleKeepsInvariantIff: agent type "all", the only one the update acts for.
- PollRuns.PollsInOrder: requests with unique rule ids, without which it is false (RepeatedIds.SuccessStandsIff); store reads succeed, so a staged worker always loads its task.
- RuleMaps.WithDefault: with repeated rule ids the default state is written into all rules of the id, where the code writes it into one of them; both count as active.
- MirrorRuns.RunKeepsMirror: covers runs whose tasks complete with their configuration saved or are reverted with no failed status write; what other endings leave is stated by SyncTask.Task.Run.
- SyncTask.Task.Run: the clauses about status records start from a freshly staged record, as every worker does.
- The rewriting of address types IPv4 and IPv6 in the create and update handlers, and the panic path of a status entry without a rule.
- The write-back of default states during a revert, which nothing reads afterwards; only the first failure reason is kept.
- Case folding outside ASCII.
- Completion.CompletableIff: for staged tasks with unique rule ids, as PollRuns.PollsInOrder.
- EndToEnd.ServerFollows: which texts are unicast addresses is a parameter.
- The traffic rule update of the Mp1 interface, an easier copy of the DNS one.
- PlanRunner.Plan.WkRun: serial groups only; parallel and background groups are never built by the repository, and one task object is not installed twice. Steps terminate by assumption.
- PlanRunner.TryThenFinally: every step is a task; an object that is no task ends its group without an error.
- The field round trip of service information, and failures of gateway calls, which the code only logs.
- Gateway.Instance.HandleEndPointUri: generated names are taken to be fresh.
- Timers of the block list fire at their deadline as atomic steps; a timer that has fired but is not yet handled is not modelled.
- Reflection-based access to objects along a JSON Pointer.
