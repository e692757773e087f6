# Debusine: models and proofs

Debusine distributes Debian packaging work over workers. These Dafny modules model the parts of it whose
correctness does not show in any single function: protocols between processes that may crash, transactions that
overlap, worklists, small languages that are parsed and written back, and greedy allocations under quotas. Each
module states what the part is for and proves it, for all inputs, all runs or all interleavings.

| modules | about |
|---|---|
| `WorkerScheduling`, `WorkerScheduler` | overlapping transactions that hand work requests to workers: a step system, and the transaction as it is coded, every execution of which is a run of the steps |
| `WorkflowScheduling` | passes that start workflow callbacks and orchestrators, and what stays exclusive over whole runs |
| `CommitHooks` | asking for one scheduler run per set of savepoints, under nested commits and rollbacks |
| `Notifications` | replay and live messages about completed work requests, across disconnects and crashes |
| `Download` | following the references of Debian control files and checking what they claim |
| `Lookups`, `LookupNormalization`, `LookupEquivalence`, `LookupExport` | the collection lookup language, its normal form and the way back |
| `Environments` | `match:key=value` lookups of environments, completed and retried |
| `TaskConfiguration`, `TaskConfigurationFiles`, `TaskConfigurationPull` | names of configuration entries; where they are put and what is read back; pulling them into a local repository |
| `Provisioning` | allocating cloud workers under quotas |
| `TarStream`, `Upload` | streaming an archive out; sending a file in chunks |
| `LintianReport`, `LintianAnalysis` | reading the output of lintian, and summing it up |
| `BuildValidation` | comparing a build directory with its `.changes` and `.dsc` files |
| `Paths` | paths as pathlib keeps and joins them, and where they lead |
| `Strings`, `Outcomes` | splitting, joining and ordering strings; optional values and results |

A few promises of the code turn out to hold only under a condition. The code is modelled as it is; a lemma with a
concrete input shows the failure, and the exact condition is proved:

- A message about a completion is sent from within its transaction, and completions may be announced by no message
  at all. A client is past a completion for good when the row was not listed by the replay but announced before the
  client joined (`SentBeforeVisibleLoses`), when a later one was listed or sent first (`TieLoses`,
  `LaterMessageLoses`), or when it is never announced, as aborted work requests are not (`LaterMessageLoses`). A step
  keeps what at-least-once execution rests on if and only if it is none of these hazards (`StepKeepsExactly`). If
  rows and messages appear in the order of completion, rows before their messages, then a run has no hazard exactly
  when no replay passes over a row with the persisted time (`InOrderExactly`); it is enough that no such row becomes
  visible after a count query that found one and before the list query (`AtLeastOnceInOrder`).
- Reading a work request again under the lock looks for a worker and not at the status. So one that another
  transaction has completed with an error in the meantime can be given to a worker (`CompletedIsAssigned`); what is
  given is pending exactly if it was pending when it was locked (`AssignsWhatWasLocked`).
- An earlier malformed matcher hides a conflict between lookup keys (`ConflictMasked`); a conflict is reported
  exactly when it comes first (`NormalizeDict`).
- Two new configuration items can share a default path, for instance with no subject and with the subject `any`
  (`DefaultPathsCollide`), or with contexts that differ in the number of slashes (`SlashesCollide`); a pull fails
  exactly over two such items (`Pull`, `CollisionOfNewItems`).
- A subject that starts with a slash puts a new item outside the repository, where it is not found again
  (`AbsoluteSubjectIsLost`). A default path is read back from where it was put exactly when its parts neither start
  with a slash nor go upwards (`NewFilesAreRead`); an entry is read back exactly when its path leads below the
  repository and its file is not overwritten (`ReadExactly`, `AllReadBack`). A second pull has nothing to do exactly
  when all remote items were read back after the first (`PullTwice`).
- A pool can exceed its monthly quota when it is listed twice (`ListedTwiceExceedsQuota`), and also when it is listed
  once and two scopes use it (`SharedPoolExceedsQuota`). Over all scopes, the quota is kept if and only if no visit
  wants more of the pool than earlier visits have left (`QuotaKeptExactly`). The quota of a scope in a pool is kept
  under the same condition (`ScopeQuotaKeptExactly`), and so always if no pool is listed twice (`ScopeQuotaKept`);
  a pool that is listed twice exceeds it (`ListedTwiceExceedsScopeQuota`). The rows of stopped workers count towards
  `max_active_instances`, so that a pool whose rows have reached the limit is not used, even if nothing of it runs
  (`VisitWithinLimits`).
- Two blank lines in an explanation of lintian are taken for the start of a comment (`BlankLinesSplit`). A report is
  recovered if and only if in the notes of each unmasked tag, and in the explanation above it, only blank lines come
  after two blank lines in a row (`ReportRecovered`).
- With packages of several architectures, a tag is counted more than once; exactly then the analyses have more tags
  than were parsed (`AnalysesDivideTags`).
- A lookup that is tried for an environment parses back exactly when the values that were added to it hold no
  separator (`AttemptsParseBack`).

## Model

| member | source | states |
|---|---|---|
| `WorkerScheduling.StepKeeps` | debusine/server/scheduler.py:78-196 | whoever wrote a row holds its lock until the transaction ends, had read the same task data, and writes it only while it has no worker; rows agree with what workers hold; every step of every interleaving keeps this and gives away nothing that is held |
| `WorkerScheduling.SetWorkerIsNotReplaced` | debusine/server/scheduler.py:100-118 | in every overlapping run no commit writes, as assigned or as failed, a row whose worker is set, and no two open transactions have written the same row |
| `WorkerScheduling.FailuresAreNotStale` | debusine/server/scheduler.py:94-98 | a failure is saved from what was read at the query, but never over a row that was given away since: whether a task configures depends on its data only, and what does not configure is not given away |
| `WorkerScheduling.AssignedOnce` | debusine/server/scheduler.py:142-196 | in no run, overlapping as it may be, is a work request given to a worker while another one holds it |
| `WorkerScheduling.CompletedIsAssigned` | debusine/server/scheduler.py:103-118 | any pending work request can be given to a worker after another transaction completed it with an error, in a concrete run of two transactions |
| `WorkerScheduler.ForeignRunLeavesAlone` | debusine/server/scheduler.py:100-118 | whatever others do, they do not change an open transaction, or rows it has locked |
| `WorkerScheduler.AssignsWhatWasLocked` | debusine/server/scheduler.py:103-122 | whatever others do after the lock, the row that is saved is the one that was locked, with this worker; so it is pending exactly if it was then; if it is skipped it is completed |
| `WorkerScheduler.Scheduler.AssignWorkRequestToWorker` | debusine/server/scheduler.py:78-139 | an attempt, interleaved with anything, is a run of protocol steps, and its own steps are exactly those of its outcome: assigned just if it makes a task, can run and is not skipped or failed; otherwise the reason is one of these, a lock or a worker that it has got |
| `WorkerScheduler.Scheduler.RecordFailure` | debusine/server/scheduler.py:178-191 | what was read at the query is saved as completed and the transaction goes on with the next candidate, or it is rolled back just because another transaction holds the lock |
| `WorkerScheduler.Scheduler.GiveUp` | debusine/server/scheduler.py:103-114 | after a lock that was not available nothing of the transaction is kept; it returns nothing, or raises exactly if one of the other candidates makes no task |
| `WorkerScheduler.Scheduler.ScheduleForWorker` | debusine/server/scheduler.py:142-196 | nothing is done at capacity or for a locked worker; otherwise the candidates are exactly the pending free rows that the query wants, by priority and age; each one before the end was passed over for a reason that holds of it; the end is the assignment and commit of the next one if that suits, a commit without one when none is left, or a rollback after a lock of another transaction; all of this is a run without double assignment |
| `WorkerScheduler.AloneTakesFirst` | debusine/server/scheduler.py:142-196 | when nobody interferes the first candidate that makes a task, can run and is not skipped or failed is assigned; none just if there is no such candidate; and nothing raises |
| `WorkflowScheduling.Database.ScheduleSelected` | debusine/server/scheduler.py:269-315 | the loop over the query publishes, reports and collects just the callbacks, rows and roots that the next rows are about; synchronization points are completed, waits and started callbacks run, and other rows change only as completing something lets them |
| `WorkflowScheduling.StartedExactly` | debusine/server/scheduler.py:221-300 | the started callbacks are exactly the lowest-id pending callback of every parent with none in progress |
| `WorkflowScheduling.ReportedExactly` | debusine/server/scheduler.py:269-315 | reported are exactly the started callbacks, the completed synchronization points and the started waits |
| `WorkflowScheduling.ReportedIncreasing` | debusine/server/scheduler.py:259-315 | they are reported by id, each once |
| `WorkflowScheduling.RootsExactly` | debusine/server/scheduler.py:221-327 | an orchestrator is started for exactly the roots of pending workflows that have none in progress |
| `WorkflowScheduling.Database.ScheduleInternal` | debusine/server/scheduler.py:213-329 | a whole pass completes exactly the pending synchronization points, makes exactly the pending waits, the due callbacks and the pending roots that are due running, appends exactly their tasks to the ones in progress, and keeps these exclusive |
| `WorkflowScheduling.PassKeepsExclusive` | debusine/server/scheduler.py:213-329 | a pass starts nothing that clashes with a task in progress or with another one it starts |
| `WorkflowScheduling.AlwaysExclusive` | debusine/server/scheduler.py:221-329 | over every run of passes, with task ends and new work requests between them, there is at most one callback in progress per parent and one orchestrator per root |
| `CommitHooks.Connection.WorkRequestChanged` | debusine/server/scheduler.py:349-365 | saving a work request adds a scheduler hook unless one exists for the same savepoints, and keeps hooks and saves matched |
| `CommitHooks.Connection.Exit` | debusine/server/scheduler.py:349-365 | leaving a block releases, rolls back or defers the rollback of its savepoint, dropping the hooks and saves made inside it, and keeps hooks and saves matched |
| `CommitHooks.Connection.ExitOuter` | debusine/server/scheduler.py:349-365 | leaving the outer block runs the scheduler once for each savepoint set with a save that stands, and leaves no hook behind |
| `CommitHooks.ExitKeepsHooks` | debusine/server/scheduler.py:349-365 | however a block is left, there is a scheduler hook for a savepoint set exactly if a save made in it still stands, and only one |
| `CommitHooks.RunKeeps` | debusine/server/scheduler.py:349-365 | over any nesting, the scheduler hooks stand for the savepoint sets of the saves the database holds, one hook each |
| `CommitHooks.SchedulerRunsForSurvivingSaves` | debusine/server/scheduler.py:349-365 | after the outer block, committed or rolled back, the scheduler runs if and only if some save survived, and once for each savepoint set in which a surviving save was made |
| `CommitHooks.TransactionLeaves` | debusine/server/scheduler.py:349-365 | for any nesting of blocks that fail or not: what stands after the transaction is what its nesting says, where a savepoint gives up all inside it exactly if it fails or a block without savepoint inside it broke; and the scheduler runs exactly if something stands |
| `Notifications.Consumer.GetPending` | debusine/server/consumers.py:346-372 | from a table in any order, exactly the rows after the time, or from it on if not exactly one completion has that time, in the order of completion |
| `Notifications.Consumer.SendPending` | debusine/server/consumers.py:374-389 | the replayed rows of the monitored workspaces are sent in order |
| `Notifications.Consumer.SendWorkRequestCompleted` | debusine/server/consumers.py:402-429 | a message is sent just if its workspace is monitored |
| `Notifications.Consumer.Connect` | debusine/server/consumers.py:302-336 | a permitted client is in the group and is sent the replay of the second query; a rejected one is sent nothing and does not join |
| `Notifications.Listener.OnWorkRequestCompleted` | debusine/client/debusine.py:913-937 | the command is run first and the time written afterwards |
| `Notifications.Listener.WriteLastCompletedAt` | debusine/client/debusine.py:992-1008 | the file holds the new time, if there is a file |
| `Notifications.Listener.ReadLastCompletedAt` | debusine/client/debusine.py:1010-1025 | the saved time, or none without a file or a time |
| `Notifications.HandleMessages` | debusine/client/debusine.py:913-937 | working off an inbox as far as it goes runs each command before its time is saved; the file always holds what the protocol says, every prefix keeps the invariant of the protocol, and the time read at the next start is the last one |
| `Notifications.ReplayAndLiveCoverAll` | debusine/server/consumers.py:325-336 | replay plus live messages contain everything announced that was not executed, if and only if no such row was announced before the consumer joined and is not listed by the query |
| `Notifications.OrderedUnlessOvertaken` | debusine/server/consumers.py:346-372 | every message comes after all earlier unexecuted ones if and only if no row that is not listed comes behind a later one that is listed or was sent first |
| `Notifications.PassedOverIsTied` | debusine/server/consumers.py:358-372 | a visible unexecuted row is not listed only if the client has executed another one with the same time |
| `Notifications.HeadIsCovered` | debusine/client/debusine.py:925-937 | a time that gets persisted has everything announced before it executed |
| `Notifications.StepKeepsExactly` | debusine/server/consumers.py:302-389 | a step of server, client, network or database keeps the invariant if and only if it is no hazard: a replay that misses or overtakes a row, or a message that is sent before that of an earlier completion |
| `Notifications.AtLeastOnce` | debusine/client/debusine.py:913-937 | along every run with crashes and disconnects but without hazards, all announced and wanted completions before the persisted time were executed, and after an open connection was worked off all that were sent |
| `Notifications.TieLoses` | debusine/server/consumers.py:358-372 | a run in which a second completion at the persisted time appears between the two queries: the client is past it and it is never replayed |
| `Notifications.SentBeforeVisibleLoses` | debusine/server/notifications.py:61-76 | a run in which a message is sent before the client joins and its row becomes visible after the queries, as requests are atomic: the completion is lost |
| `Notifications.LaterMessageLoses` | debusine/db/models/work_requests.py:1838-1870 | a run in which a later message comes before that of an earlier completion, or the earlier one has none, as for aborted and skipped work requests: it is lost, and this is a hazard exactly if it is announced |
| `Notifications.HazardInStep` | debusine/server/consumers.py:346-372 | while rows become visible and messages are sent in order of completion, rows before messages, a step is a hazard if and only if it is a replay that passes over a tied row for a later one |
| `Notifications.InOrderExactly` | debusine/server/consumers.py:346-372 | every run of a server that works in this order is free of hazards if and only if none of its replays passes over a tied row |
| `Notifications.AtLeastOnceInOrder` | debusine/server/consumers.py:319-372 | along every run of a server that works in this order, with crashes and disconnects, execution is at least once if no second row with the persisted time becomes visible between the two queries |
| `Download.DGet.WriteAndHash` | debusine/client/client_utils.py:60-74 | the file on disk and all digests are those of the concatenated chunks; it refuses to overwrite |
| `Download.DGet.AddStat` | debusine/client/client_utils.py:208-223 | a value is recorded unless another one is known; values that are true are never refused when everything is sound |
| `Download.DGet.RecordDownload` | debusine/client/client_utils.py:200-206 | all stats of the fetched bytes are known afterwards; it refuses only when something is wrong with the files |
| `Download.DGet.AddReferencedFiles` | debusine/client/client_utils.py:225-237 | afterwards every record of the three checksum sections of a metadata file is recorded and every file it names is known, queued without duplicates, and true if all is well; it is malformed exactly if it does not parse, and fails only when something is wrong with the files |
| `Download.DGet.DownloadFile` | debusine/client/client_utils.py:189-198 | a queued file is fetched and what is known, queued and on disk stays consistent; it is not found, or exists already, exactly when that is so, and fails only when something is wrong with the files |
| `Download.DGet.Download` | debusine/client/client_utils.py:184-237 | it ends; it succeeds if and only if every reachable file can be fetched and everything claimed about it is true; then exactly the reachable files were fetched, and every record of each .dsc or .changes file among them names a file on disk with that size and that sha256, sha1 or md5 digest |
| `Download.IterReferencedFiles` | debusine/client/client_utils.py:239-266 | exactly the records of `checksums-sha256`, `checksums-sha1` and `files`, with their hash names |
| `Download.EmptyQueueMeansDone` | debusine/client/client_utils.py:184-187 | with an empty queue exactly the reachable files were fetched, and nothing is wrong with any of them |
| `Download.RecordedClaimHolds` | debusine/client/client_utils.py:208-223 | a claim and the stats of the same file agree, whichever was recorded first |
| `Lookups.KeyOfForm` | debusine/tasks/models.py:249-294 | a well-formed key is determined by what it stands for, with splitting at the leftmost double underscores |
| `Lookups.KeysAre` | debusine/tasks/models.py:249-294 | which keys stand for a name, a datum or a subordinate lookup, with which kind of match |
| `Lookups.SortByPrefixSorts` | debusine/tasks/models.py:270-272 | sorting by prefix keeps the keys and orders them |
| `Lookups.EqualPrefixesAreAdjacent` | debusine/tasks/models.py:270-272 | after sorting, equal prefixes are adjacent, so that grouping is a partition |
| `LookupNormalization.NormalizeMatcher` | debusine/tasks/models.py:284-319 | one key becomes a name matcher, a data matcher or a subordinate lookup, or is malformed |
| `LookupNormalization.NormalizeMatchers` | debusine/tasks/models.py:270-319 | the loop over the groups accepts if and only if no two keys clash and all are well formed; it collects all matchers and leaves the other keys |
| `LookupNormalization.ParseFilter` | debusine/tasks/models.py:295-303 | a subordinate lookup is accepted if and only if it is a single item, an accepted dictionary or a list of such |
| `LookupNormalization.NormalizeDict` | debusine/tasks/models.py:238-326 | a dictionary is accepted if and only if it fits the language at all depths; the result is its normal form; a conflict is reported if and only if two keys clash and nothing sorted before them is wrong |
| `LookupNormalization.ConflictReported` | debusine/tasks/models.py:278-281 | without other errors in matchers, a conflict is reported exactly when two keys share a matcher prefix |
| `LookupNormalization.ConflictMasked` | debusine/tasks/models.py:270-308 | in general not: a malformed key that sorts earlier is reported instead |
| `LookupEquivalence.NormalFormIsCanonical` | debusine/tasks/models.py:238-326 | two accepted dictionaries have equal normal forms if and only if they differ only in key order, explicit defaults and one-element lists, at any depth |
| `LookupExport.RoundTrip` | debusine/tasks/models.py:328-357 | exporting a normal form gives an accepted dictionary, the same as the input up to those differences, whose only normal form is the one exported |
| `LookupExport.MultipleRoundTrip` | debusine/tasks/models.py:360-406 | the same for a lookup of several items at the top level |
| `LookupExport.ExportIsNormal` | debusine/tasks/models.py:328-406 | normalizing an export gives back what was exported, mutually for dictionaries and lists |
| `LookupExport.ExportedKeysDistinct` | debusine/tasks/models.py:335-356 | no two parts of an export use the same key |
| `LookupExport.Export` | debusine/tasks/models.py:328-357 | filling the dictionary step by step overwrites nothing |
| `LookupExport.ExportFilterValue` | debusine/tasks/models.py:393-406 | a list of one dictionary is exported as that dictionary, everything else as it is |
| `Environments.ParseOfBuildExactly` | debusine/tasks/models.py:91-117 | a built lookup parses back to the same filters if and only if they hold no separator |
| `Environments.AttemptAdds` | debusine/tasks/_task.py:988-1052 | every lookup tried starts with the caller's filters, unchanged, is not empty, and adds only architecture, format, backend or variant where the caller gave none |
| `Environments.AttemptsParseBack` | debusine/tasks/_task.py:988-1052 | every lookup tried parses back to the filters that were meant if and only if the added values hold no separator |
| `Environments.CompleteFilters` | debusine/tasks/_task.py:1004-1020 | missing filters are appended in the order architecture, format, backend; given ones win |
| `Environments.CompleteIs` | debusine/tasks/_task.py:1004-1020 | the completed filters are the given ones and then architecture, format and backend with their values, each just if it is known and not given |
| `Environments.TryLookups` | debusine/tasks/_task.py:1042-1052 | the first lookup that finds something decides; KeyError only when the last one fails |
| `Environments.GetEnvironment` | debusine/tasks/_task.py:988-1052 | when it raises what; for a match the lookups are exactly the one with the preferred variant and then the one with none, or a single one if a variant is given or none is preferred; the first that is found is the answer |
| `TaskConfiguration.QuoteInjective` | debusine/artifacts/models.py:186-192 | percent-encoding the UTF-8 form loses nothing (RFC 3986, sections 2.1 and 2.3) |
| `TaskConfiguration.FourPartsUnique` | debusine/artifacts/models.py:187-192 | a name with colon-free parts cannot be written with other parts, even with parts that contain colons |
| `TaskConfiguration.NamesIdentify` | debusine/artifacts/models.py:182-192 | two valid entries have the same name if and only if they are for the same template, or the same task, subject and context |
| `TaskConfiguration.LookupNamesHit` | debusine/artifacts/models.py:193-214 | a valid entry has a looked-up name if and only if it is no template, is for that task, and its subject and context are empty or those given |
| `TaskConfiguration.GeneralFirst` | debusine/artifacts/models.py:193-214 | of two entries that are looked up the less specific one comes first, where a subject weighs more than a context |
| `TaskConfiguration.GetLookupNames` | debusine/artifacts/models.py:193-214 | the method collects exactly these names, the most general first |
| `TaskConfigurationPull.LocalRepository.MergeManifest` | debusine/client/task_configuration.py:191-208 | it fails, changing nothing, if and only if the manifests are of different collections |
| `TaskConfigurationPull.LocalRepository.MergeEntries` | debusine/client/task_configuration.py:226-258 | the entries become the merge of local and remote ones, and the statistics count it |
| `TaskConfigurationPull.MergedPlaces` | debusine/client/task_configuration.py:226-258 | local items keep their paths, and their positions unless they are updated; new ones come to their default paths; others stay just if they are preserved |
| `TaskConfigurationPull.StatsAddUp` | debusine/client/task_configuration.py:225-267 | added, updated and unchanged add up to the size of the remote repository |
| `TaskConfigurationPull.LocalRepository.Reload` | debusine/client/task_configuration.py:138-149 | every item on disk has an entry and every entry comes from its place on disk, in whatever order files are read |
| `TaskConfigurationFiles.GroupByPath` | debusine/client/task_configuration.py:272-277 | every entry is in the group of its path, once, and groups are sorted by position |
| `TaskConfigurationPull.LocalRepository.UpdateFiles` | debusine/client/task_configuration.py:286-312 | exactly the existing files whose content differs are rewritten, and exactly those without entries are removed |
| `TaskConfigurationFiles.ReadExactly` | debusine/client/task_configuration.py:269-341 | after a write an entry is read back if and only if its path leads below the directory and its file holds its group |
| `TaskConfigurationFiles.AllReadBack` | debusine/client/task_configuration.py:269-341 | all items are read back if and only if all paths lead below the directory, and different ones to different files |
| `TaskConfigurationFiles.PlainReadBack` | debusine/client/task_configuration.py:269-341 | with relative paths that do not go upwards, all items are read back from the same paths, and the files are just those written |
| `TaskConfigurationFiles.ReadBackIsTidy` | debusine/client/task_configuration.py:269-341 | wherever paths lead, what is read back and the files below the directory agree |
| `TaskConfigurationFiles.TidyIsWritten` | debusine/client/task_configuration.py:293-310 | entries that are on disk as written are grouped back into the very same files |
| `TaskConfigurationPull.LocalRepository.WriteEntries` | debusine/client/task_configuration.py:269-341 | it fails if and only if several entries share a path that is not on disk; otherwise disk and entries agree, and the entries are those whose paths lead below the directory as long as they lead apart; with plain paths a file is touched only if it had to change |
| `TaskConfigurationPull.LocalRepository.Pull` | debusine/client/task_configuration.py:210-267 | when it fails, and what the entries, files, manifest and statistics are when it does not, for any paths and for plain ones |
| `TaskConfigurationPull.LocalRepository.PullTwice` | debusine/client/task_configuration.py:210-341 | a second pull of the same repository reports no changes if and only if every remote item was read back after the first, and then touches no file; as long as paths lead apart, this is when those of all remote items lead below the directory |
| `TaskConfigurationPull.CollisionOfNewItems` | debusine/client/task_configuration.py:178-189 | with local items in files, a pull fails exactly over two new items whose default paths are the same path and not taken |
| `TaskConfigurationFiles.NewFilesAreRead` | debusine/client/task_configuration.py:178-189 | a default path leads below the directory under its own name if and only if its parts neither start with a slash nor go upwards |
| `TaskConfigurationFiles.DefaultPathIsYaml` | debusine/client/task_configuration.py:178-189 | wherever it leads, a default path has the suffix that reading looks for |
| `TaskConfigurationFiles.DefaultPathIs` | debusine/client/task_configuration.py:178-189 | the default path for parts without slashes: below `new/templates`, or below `new` under task type and name, then by subject and context or `any` |
| `TaskConfigurationFiles.LowerNameIs` | debusine/client/task_configuration.py:178-189 | the task type in it is its name in lower case |
| `TaskConfigurationFiles.AbsoluteSubjectIsLost` | debusine/client/task_configuration.py:178-189 | a valid item whose subject starts with a slash is put outside the directory |
| `TaskConfigurationFiles.DefaultPathsCollide` | debusine/client/task_configuration.py:178-189 | no subject and the subject "any" give different keys and the same path |
| `TaskConfigurationFiles.SlashesCollide` | debusine/client/task_configuration.py:178-189 | contexts that differ in the number of slashes give different keys and the same path |
| `Provisioning.SecondsCapIsExact` | debusine/server/provisioning.py:141-161 | the cap by seconds is the largest number of tasks that still fits into the quota |
| `Provisioning.InstancesCapIsExact` | debusine/server/provisioning.py:89-101 | the cap by instances is the largest number of workers that still fits into the limit on rows |
| `Provisioning.CapIsExact` | debusine/server/provisioning.py:254-287 | the three limits together let through the most workers, up to what is wanted, that keep all of them |
| `Provisioning.WorkerAllocator.LimitByMaxActiveInstances` | debusine/server/provisioning.py:89-101 | the amount is cut to the most rows that the limit leaves, and not below |
| `Provisioning.WorkerAllocator.LimitBySeconds` | debusine/server/provisioning.py:224-252 | the amount is cut to the tasks that fit into a monthly quota |
| `Provisioning.WorkerAllocator.AllocateWorkers` | debusine/server/provisioning.py:254-287 | launched are the most workers, up to the amount, that keep the limit on rows and both monthly quotas |
| `Provisioning.LaunchRuns` | debusine/db/models/worker_pools.py:117-149 | a launch adds just that many running workers, and makes new rows only when no stopped ones are left |
| `Provisioning.WorkersRequired` | debusine/server/provisioning.py:297-322 | the least positive number of workers that meets the target latency, never above the number of tasks |
| `Provisioning.GreedyIsExact` | debusine/server/provisioning.py:366-386 | greedy shares sum to the minimum of the need and the sum of the caps |
| `Provisioning.VisitIsGreedy` | debusine/server/provisioning.py:366-386 | with distinct pools, visiting them while rows change is greedy under the caps at the start |
| `Provisioning.ScopeGetsAllItCan` | debusine/server/provisioning.py:366-386 | with distinct pools a scope gets what it needs or all that is allowed, and a pool is used only after those before it are used up |
| `Provisioning.VisitWithinLimits` | debusine/server/provisioning.py:89-101 | no pool grows past its limit, and pools at their limit stay as they are, also when pools are listed twice |
| `Provisioning.ListedTwiceExceedsQuota` | debusine/server/provisioning.py:341-364 | a pool listed twice launches two workers where its monthly quota allows one |
| `Provisioning.SharedPoolExceedsQuota` | debusine/server/provisioning.py:389-413 | so does a pool listed once that two scopes use |
| `Provisioning.ListedTwiceExceedsScopeQuota` | debusine/server/provisioning.py:341-364 | a pool listed twice launches two workers where the quota of the scope in it allows one |
| `Provisioning.ScopeQuotaKept` | debusine/server/provisioning.py:224-252 | if no pool is listed twice, a scope stays within its monthly quota in each pool |
| `Provisioning.ScopeQuotaKeptExactly` | debusine/server/provisioning.py:224-252 | over the visits for a scope, its monthly quota in a pool is kept if and only if no visit wants more than earlier ones left |
| `Provisioning.VisitWithinNeed` | debusine/server/provisioning.py:366-386 | however often a pool is listed, no more workers are allocated than are needed |
| `Provisioning.QuotaKeptExactly` | debusine/server/provisioning.py:141-161 | over all visits of all scopes a pool stays within its monthly quota if and only if no visit wants more than earlier ones left of the cap |
| `Provisioning.AllAreLaunches` | debusine/server/provisioning.py:389-413 | the workers that run more than before are exactly those launched by the visits |
| `Provisioning.WorkerAllocator.ProcessScope` | debusine/server/provisioning.py:366-386 | required minus available workers are taken from the pools in order: never more than that, and if no pool is listed twice as many as the caps allow; the quota of the scope in a pool is kept exactly if the visits find room, and always if no pool is listed twice |
| `Provisioning.WorkerAllocator.CreateNewWorkers` | debusine/server/provisioning.py:389-413 | over all scopes no pool grows past its limit; all visits are made and all that runs more was launched by them; a monthly quota is kept exactly if every visit finds room |
| `TarStream.TarArtifact.constructor` | debusine/server/tar.py:51-68 | the complete files below the subdirectory, last path first |
| `TarStream.TarArtifact.Next` | debusine/server/tar.py:93-127 | a chunk of what is unread, full unless less is left, or progress by one file or by closing; the archive grows only when all of it was returned; the end only when closed, drained and out of files |
| `TarStream.TarArtifact.Drain` | debusine/server/tar.py:74-127 | iteration ends; without failure the chunks are the whole archive and every file is in it once, in ascending order |
| `Upload.TilesFit` | debusine/client/file_uploader.py:152-160 | the ranges tile the missing bytes without gap or overlap, none above 50 MiB, and as few as possible (section 14.4 of RFC 9110) |
| `Upload.FileUploader.UploadChunk` | debusine/client/file_uploader.py:91-110 | at most three attempts, and only connection errors are retried |
| `Upload.FileUploader.UploadFile` | debusine/client/file_uploader.py:130-177 | the requests are exactly those tiles, of the announced lengths; success exactly if the server ends up with the expected file |
| `Upload.FileUploader.Upload` | debusine/client/file_uploader.py:179-199 | with working connections: exactly when an upload succeeds, in at most two attempts, and otherwise fails after three |
| `Upload.Server.Put` | debusine/server/views/artifacts.py:397-485 | a chunk at the end of what is stored is appended; a complete file is checked, and dropped if it is wrong |
| `LintianReport.EntryRead` | debusine/tasks/lintian.py:351-396 | reading one rendered entry finishes the tag before it and leaves this one with what is kept of its notes; what is lost of its explanation is kept for the next comment |
| `LintianReport.ExplanationSurvives` | debusine/tasks/lintian.py:353-366 | an explanation is read completely if and only if only blank lines come after two blank lines in a row |
| `LintianReport.CommentSurvives` | debusine/tasks/lintian.py:353-382 | a comment is read as it is if and only if no text was kept before it and, from its first text on, the same holds for it |
| `LintianReport.ReportRecovered` | debusine/tasks/lintian.py:333-398 | from a rendered report each unmasked tag is recovered in order with its comment and explanation, if and only if after two blank lines in a row of its explanation, its comment or the explanation above it there are only blank lines |
| `LintianReport.ParseOutput` | debusine/tasks/lintian.py:333-398 | the loop recovers a rendered report if and only if it is readable in that sense, returns no masked tag, and fails exactly on a line that is neither note nor tag |
| `LintianReport.BlankLinesSplit` | debusine/tasks/lintian.py:353-359 | in a report of two tags, two blank lines in the first explanation move its rest into the comment of the second |
| `LintianAnalysis.CountsAddUp` | debusine/tasks/lintian.py:203-252 | the counts of the severities sum to the number of tags |
| `LintianAnalysis.CreateAnalysis` | debusine/tasks/lintian.py:211-273 | the tags of the packages in order, counted by severity without a missing count, and the sets of names |
| `LintianAnalysis.TagsOfExactly` | debusine/tasks/lintian.py:236-249 | an analysis has the tags of its packages and no others |
| `LintianAnalysis.TagsAreDivided` | debusine/tasks/lintian.py:625-633 | together, architectures have each tag of their packages once if and only if no tag is for a package of several of them; otherwise more |
| `LintianAnalysis.SortTagsSorts` | debusine/tasks/lintian.py:607-616 | the same tags, by package, from the worst severity, by name and note |
| `LintianAnalysis.SortedMeans` | debusine/tasks/lintian.py:607-616 | what sorted means: by package, within it never a worse severity later, then by name and note |
| `LintianAnalysis.SortTagsIsStable` | debusine/tasks/lintian.py:607-616 | tags that compare equal stay in their order |
| `LintianAnalysis.LevelsAreInOrder` | debusine/tasks/lintian.py:83-88 | the levels follow the order of the severities from error down to masked |
| `LintianAnalysis.CreateArchitectureToAnalysis` | debusine/tasks/lintian.py:595-635 | one analysis for exactly the architectures whose analysis is wanted |
| `LintianAnalysis.AnalysesDivideTags` | debusine/tasks/lintian.py:595-635 | if all packages have an analysis, the analyses together have at least as many tags as were parsed, and as many exactly if no tag is for a package of several architectures |
| `LintianAnalysis.TaskSucceeded` | debusine/tasks/lintian.py:637-665 | success exactly if the chosen severity comes before that of every tag in the order of severities, or none was chosen |
| `BuildValidation.SbuildValidator.FindFileSuffix` | debusine/utils/__init__.py:223-242 | the one regular file with the suffix, none, or an error if there are several |
| `BuildValidation.SbuildValidator.ValidateDeb822File` | debusine/tasks/sbuild_validator_mixin.py:107-157 | the errors of the three sections in order; the named files count as referenced; a missing section raises |
| `BuildValidation.NoErrorsMeansConsistent` | debusine/tasks/sbuild_validator_mixin.py:26-71 | there are no errors if and only if all lines name files with the stated hashes and every other entry is named |
| `BuildValidation.ListedExactly` | debusine/tasks/sbuild_validator_mixin.py:107-157 | a file is listed as missing exactly for each section that names it and a hash as wrong exactly for each section that states another one; what nobody names is listed together, if there is any |
| `BuildValidation.DotMakesNoDifference` | debusine/tasks/sbuild_validator_mixin.py:132-133 | a dot in front of a name means the same file |
| `BuildValidation.SbuildValidator.CheckDirectoryForConsistencyErrors` | debusine/tasks/sbuild_validator_mixin.py:26-71 | exactly when it raises, which errors it lists, and that the list is empty exactly for consistent directories |

## Left out

- WorkerScheduler.Scheduler.ScheduleForWorker: the capacity of a worker is an input, because the check comes before the lock and so means nothing under overlap; task types, lists, priorities, whether a task can run on the worker, and what assigning it does, are given for each work request; waiting for a lock ends in a rollback instead of going on for ever.
- WorkerScheduling.AssignedOnce: locks, transactions and saves behave as PostgreSQL's row locks do, and a transaction is aborted by a lock that is not available; `assign_worker`, `mark_completed` and `de_assign_worker` are reduced to their changes of worker and status, and task data to whether they configure, which only a new release of the code could change.
- WorkflowScheduling.AlwaysExclusive: passes do not overlap, and a published task is recorded as in progress at the commit; what `mark_completed` does to others is any unblocking, skipping, aborting or finishing that their statuses allow; work requests that a retry creates during a pass are left out.
- CommitHooks.SchedulerRunsForSurvivingSaves: the savepoint handling of Django's `transaction.atomic` is modelled from its documented behaviour, which is not part of this repository; saves outside any atomic block run the scheduler at once.
- Notifications.AtLeastOnce: assumes that times of completion do not decrease, that a completion stays one, where retrying a workflow clears its time again, and that messages of an open connection arrive; connections are opened with a persisted time, so that reconnects of a process that started without one are not covered; the file is written as a whole.
- Notifications.Listener.WriteLastCompletedAt: the JSON form of the file and of times is left out.
- Download.DGet.Download: parsing of control files and hashing are functions that are given; the network either has a file or fails for it for good.
- LookupNormalization.NormalizeDict: conversions by pydantic, such as numeric strings to numbers, and the internal field names as input, which it would accept; which of several errors of nested lookups is shown.
- Environments.GetEnvironment: `lookup_single_artifact` and the choice of executor are functions that are given.
- TaskConfigurationPull.LocalRepository.Pull: files are modelled by their parsed data with a mark for data in another form than the one written; order of updated items among those with equal positions is any; two dots go up one part, as without links among the directories, and directories are not in the way of files; what a failed write leaves on disk is open.
- TaskConfigurationPull.LocalRepository.PullTwice: the check of git repositories for uncommitted changes, and removal of empty directories.
- Provisioning.WorkerAllocator.CreateNewWorkers: used seconds are given numbers that stay the same during a run; reals stand for floats; the order of pools by priority comes from the database; launching never finds its rows locked.
- TarStream.TarArtifact.Next: the bytes that the archive writer produces, and when, are arbitrary; the temporary directory is left out.
- Upload.FileUploader.UploadChunk: after a failed connection the rest of the chunk that is sent is arbitrary, as the mapped file is not rewound; contents are only claimed for working connections.
- Upload.FileUploader.Upload: the file is not empty and has the expected length; other answers of the server are one error.
- LintianReport.ParseOutput: the two regular expressions for tag lines are a function that is given; tags are values, where the source shares the dictionary between its list and its loop variable.
- LintianAnalysis.CreateAnalysis: the version of lintian and the distribution, which are copied.
- BuildValidation.SbuildValidator.CheckDirectoryForConsistencyErrors: parsing and hashing are functions that are given, and so are the paths that lead to files; sizes only appear in the text of errors.
- HTTP, websockets, Celery, Redis, subprocesses and logging are replaced by the state changes they cause.
- `MergeUploads`, `db/context.py`, counting queries, serializers, the command line, signing and command-line builders of other tools: easy or opaque.
