# Attendance outbox: a verified model

The attendance service turns syslog messages of a wireless network into clock-in and clock-out flows of a
remote attendance service. Four producers write two shared tables, `attendance_records` and
`attendance_reports`: the syslog pipeline, manual correction, the day-end worker and the manual re-send of the
debug page. One dispatcher drains the report table: it deletes the old flow, saves, creates the new flow,
notifies the employee and saves, with retries.

This project models these actors, and proves what no single function of the program states: what the remote
service holds, over every interleaving of the actors and with a crash allowed between any two dispatcher steps.
Two smaller parts stand beside it: the ordered syslog rules with the prediction of the settings page, and the
mutex-guarded cache of the tenant token.

## How it is organised

| files | content |
|---|---|
| `Domain`, `Wrappers`, `Text` | records, reports, keys, flows, optional values, white space |
| `Tables`, `Repositories` | the queries and upserts as functions on rows, and as classes whose rows change in place |
| `Services`, `SyslogPipeline`, `AttendanceAdmin`, `DayEndDispatcher`, `DebugAdmin`, `ReportDispatcher` | each actor twice: a function that says what it computes, and a class whose methods work step by step and are proved to compute it |
| `Outbox`, `OutboxInvariant`, `OutboxProducers`, `OutboxDispatch`, `OutboxSafety` | the state machine of all actors, its invariant, and what follows for every run |
| `FlowStreams`, `SingleFlowSteps`, `SingleFlow` | at most one live flow per record and field, and exactly the newest report's once it succeeded |
| `StrandedFlows`, `FlowExamples` | the converse: what every run that violates a condition is left with, and a concrete run for each |
| `DispatchOutcome` | what one job does to its row and to the remote service, column by column, for every answer |
| `Drain`, `DispatchRuns` | progress of the dispatcher; its uninterrupted runs are paths of the state machine |
| `MessageProofs`, `Aggregation`, `DayEndProofs`, `DayEndRuns`, `CorrectionProofs` | what each producer computes, against specifications of their own |
| `Decimal`, `Calendar`, `Timestamps`, `ReportKeys` | timestamps and idempotency keys as text |
| `SyslogRules`, `RuleOrderProofs` | the rule table, the settings page, the first match |
| `TokenCache` | the tenant token cache |

The functions that a class method is proved against are the steps of the state machine, so a result about runs is
a result about the methods. `JobIsAPath`, `RunOnceFromReachable` and `DayEndFromReachable` close the gap
between a method that does many steps at once and the machine that does them one by one.

## What is assumed

- Times are whole seconds, as the `DATETIME` columns keep them
  (`backend/internal/db/migrations/001_init.sql:172-173`), and years run from 0000 to 9999.
- A row id is the position of the row in its table, so ids grow in insertion order.
- `Version`, `RetryCount` and `NotificationRetryCount` are 32 bits wide. The increments wrap explicitly in the
  model; a correction is taken as a step only while its record's version has not reached the last value, and the
  retry limit is fixed with 0 < L < 2^32. That retry counts never wrap is proved.
- `CreateFlow` returns a fresh id, and an error from it means that nothing was created. A failed delete may or may
  not have removed the flow.
- A producer is one atomic transaction. The day-end worker's list of records and its finalizations are not one
  transaction in the program; in the state machine each finalization reads its record afresh, so nobody changes a
  record between its listing and its finalization. `StaleCopyIff` says exactly what a copy read earlier would do.
- A debug dispatch does not overlap a background run, and its clock strictly advances.
- Database errors are left aside: every query and save succeeds. In particular the employee of a delivered report
  is found again when its notification is retried, as employees are only ever disabled.
- The stored payload is represented by what the dispatcher decodes from it. `Timestamps` proves that decoding
  gives back what the report constructors encode; the JSON syntax itself is not part of this model.
- A syslog rule is an abstract function from a message to no match, an error or an event.
- A response field of the remote service that no decision depends on (codes, bodies, message ids, the times of
  reporting and notification) is not represented.

## What turned out

- With whole-second event times, the pipeline's branch for an existing idempotency key
  (`backend/internal/service/syslog_pipeline.go:147-149`) is never taken in atomic runs, and no producer ever
  overwrites a report although `Save` is an upsert. The default rules take the arrival time of the message, which
  has fractions of a second; the column rounds them and the key truncates them, and there the branch can be taken.
- "At most one live flow" fails for clock-in when the pipeline queues a report while the first connect is already
  set, because it names no flow to delete. That is the exact condition: in runs where reports wait for the earlier
  ones to succeed and no crash falls between a creation and its save, the remote service holds exactly what the
  newest delivered report created if and only if the pipeline never did so (`HoldsExactlyIff`, `TwoFlowsIff`). A
  first connect after a delivered clear is fine.
- The two other conditions are met from the other side in every run, too. After a crash between a creation and its
  save the created flow is live for good (`CrashStrands`). A report queued before an earlier one of its field is
  delivered leaves that one's flow live while it is the newest (`EarlyQueueStrands`). `FlowExamples` has a run for each of the three. For
  at most one flow it is enough that the earlier reports succeeded or used up their retries, and it is not needed
  that deleting a flow twice succeeds.
- After the day-end run, a later disconnect changes the record without a report. The delivered clock-out is the
  record's last disconnect if and only if no such change was left unreported (`ClockOutDelivery`), and it is never
  ahead of it. Once the date has its run row, the day-end worker does not come back to it (`FinishedDateIsFinal`).
- A correction field that is marked valid but carries no time removes the stored time without a report. Decoded
  request bodies never contain such a field (`DecodedFields`); for every input, `FieldIsReportedIff` says exactly
  when a field is reported as it should be, and `SilentRemoval` gives an input that is not.

## Model

| member | source | states |
|---|---|---|
| Tables.FindRecordAt | backend/internal/repository/attendance_repository.go:71-104 | looking up the employee and date of a stored record finds exactly that row |
| Tables.FindKeyAt | backend/internal/repository/report_repository.go:31-88 | looking up the key of a stored report finds exactly that row |
| Tables.LatestSuccessful | backend/internal/repository/report_repository.go:90-151 | the highest-id report of a record and type that succeeded and named a remote flow, or that there is none |
| Tables.Batch | backend/internal/repository/report_repository.go:302-440 | the lowest eligible ids in ascending order, at most a batch of them; an eligible row is left out only when the batch is full of lower ids |
| Tables.BatchIff | backend/internal/repository/report_repository.go:302-440 | a row is listed iff it is eligible and fewer eligible rows than the batch have a lower id |
| Tables.ListByDateIsDayList | backend/internal/repository/attendance_repository.go:158-204 | the records of a date, each exactly once, by ascending employee |
| Repositories.AttendanceTable.Save | backend/internal/repository/attendance_repository.go:106-156 | upsert on employee and date: one row holds the record, every other row is untouched, the returned id is that row's |
| Repositories.ReportTable.Save | backend/internal/repository/report_repository.go:153-228 | upsert on the idempotency key, with every other row untouched |
| Repositories.ReportTable.ListDispatchable | backend/internal/repository/report_repository.go:302-374 | the loop over the cursor returns the first pending or failed reports with retries left |
| Repositories.ReportTable.ListNotificationDispatchable | backend/internal/repository/report_repository.go:376-440 | the same for delivered reports whose notification is pending or failed |
| Repositories.DayEndRunTable.Save | backend/internal/repository/day_end_run_repository.go:46-76 | upsert on the business date: the date then has exactly this run under the returned id, dates stay unique, every other row is untouched |
| Tables.SavedRunIsFound | backend/internal/repository/day_end_run_repository.go:29-76 | looking up a date after a save finds the saved run, and looking up any other date finds what it found before |
| SyslogPipeline.Pipeline.Handle | backend/internal/service/syslog_pipeline.go:105-169 | loads or creates the record, applies the event and queues the clock-in report, with both early returns |
| SyslogPipeline.Pipeline.HandleDatagram | backend/internal/service/syslog_pipeline.go:67-72 | the first matching enabled rule decides the event; a rule that errors stops the message before any table changes |
| MessageProofs.ListedRuleDecides | backend/internal/service/syslog_pipeline.go:188-196 | the first place of the ordered listing that is enabled and does not answer no match decides a datagram, by the matcher's own event or error; without one both tables stay |
| MessageProofs.EventIsExact | backend/internal/service/syslog_pipeline.go:130-169 | the record takes the earlier connect or the later disconnect and keeps every other field, a new one starts as stated, and a clock-in report is appended iff the first connect moved |
| MessageProofs.MessageIsExact | backend/internal/service/syslog_pipeline.go:105-128 | only an event whose station belongs to an employee touches the tables |
| AttendanceAdmin.AdminService.Recalculate | backend/internal/service/admin_services.go:395-410 | the corrected record: both times, manual source, raised version and the statuses that follow from the times |
| AttendanceAdmin.AdminService.QueueCorrection | backend/internal/service/admin_services.go:417-437 | one field's report, if any, is saved with the flow to delete read before the save |
| AttendanceAdmin.AdminService.Correct | backend/internal/service/admin_services.go:350-444 | both error returns, the no-op and the three saves of a correction |
| DayEndDispatcher.FinalizedInPlace | backend/internal/service/day_end_dispatcher.go:165-239 | finalizing a record rewrites that record in place and no other |
| DayEndDispatcher.Dispatcher.FinalizeOne | backend/internal/service/day_end_dispatcher.go:165-240 | finalizes the record as it was read and queues the clock-out report unless its key exists |
| DayEndDispatcher.Dispatcher.FinalizeListed | backend/internal/service/day_end_dispatcher.go:128-133 | the loop over the records read once equals finalizing them one after the other from the table |
| DayEndDispatcher.Dispatcher.RunOnce | backend/internal/service/day_end_dispatcher.go:102-141 | nothing before the cutoff or when the date has its run; else all records of the date, then the run row |
| DebugAdmin.AdminService.DispatchAttendanceReport | backend/internal/service/debug_admin_service.go:114-155 | the three input errors change neither table nor remote service; else the manual report is saved and dispatched at once, and the record and the dispatched report are returned unless that fails |
| DebugAdmin.RequestIsExact | backend/internal/service/debug_admin_service.go:122-145 | the three refusals in their order; clock_in re-sends the first connect and clock_out the last disconnect, under a manual key and with the latest delivered flow to delete |
| ReportDispatcher.FeishuClient.DeleteFlows | backend/internal/service/attendance_report_dispatcher.go:217-220 | an accepted delete removes the flow, a failed one removes it or not |
| ReportDispatcher.FeishuClient.CreateFlow | backend/internal/service/attendance_report_dispatcher.go:285-288 | an accepted create adds the flow under an id never issued before, an error adds nothing, and each call is counted |
| ReportDispatcher.Dispatcher.SaveFailed | backend/internal/service/attendance_report_dispatcher.go:416-462 | the report is saved as failed with one more retry and is otherwise unchanged |
| ReportDispatcher.Dispatcher.DispatchReport | backend/internal/service/attendance_report_dispatcher.go:175-258 | the method, with all its early returns and saves, does the protocol steps one by one that the state machine interleaves, with as many CreateFlow calls, and leaves its report as last saved |
| ReportDispatcher.Dispatcher.CreateAndNotify | backend/internal/service/attendance_report_dispatcher.go:260-313 | creation, notification and the final save, as the remaining protocol steps |
| ReportDispatcher.Dispatcher.SendNotification | backend/internal/service/attendance_report_dispatcher.go:346-406 | a clear is skipped, a sent notification resets its retries, a failed one counts a retry; an error only without a usable time |
| ReportDispatcher.Dispatcher.DispatchNotification | backend/internal/service/attendance_report_dispatcher.go:315-344 | only a delivered report with a pending or failed notification is touched |
| ReportDispatcher.Dispatcher.RunListed | backend/internal/service/attendance_report_dispatcher.go:114-125 | one job of either list is dispatched from the copy read with the list, and the CreateFlow calls made meanwhile are added to its row's count |
| ReportDispatcher.Dispatcher.RunJobs | backend/internal/service/attendance_report_dispatcher.go:114-127 | the two loops: all jobs in order, and an error ends the run and is returned |
| ReportDispatcher.Dispatcher.RunOnce | backend/internal/service/attendance_report_dispatcher.go:95-128 | both lists are read before the first job, then all jobs are done; an error ends the run and is returned |
| ReportDispatcher.ListedJobsDistinct | backend/internal/service/attendance_report_dispatcher.go:105-112 | no report is in a run's work twice |
| ReportDispatcher.NoWorkIff | backend/internal/service/attendance_report_dispatcher.go:105-112 | a run finds nothing to do iff no report is eligible for either list |
| DispatchOutcome.DispatchedIff | backend/internal/service/attendance_report_dispatcher.go:105-120 | a run dispatches a report iff it is pending or failed with retries left and fewer than twenty such reports have lower ids |
| DispatchOutcome.NotifiedIff | backend/internal/service/attendance_report_dispatcher.go:109-126 | a run takes up a notification iff the report is delivered, its notification is pending or failed with retries left, and fewer than twenty such have lower ids |
| DispatchOutcome.DispatchSucceedsIff | backend/internal/service/attendance_report_dispatcher.go:175-313 | a dispatch succeeds iff configuration and employee are usable, the old flow, if any, was deleted, and the body is a clear or a time whose creation was accepted; what the row and the remote service then hold, and one more retry otherwise |
| DispatchOutcome.DispatchIsExact | backend/internal/service/attendance_report_dispatcher.go:175-313 | every column of the dispatched row, the live and issued flows and the number of CreateFlow calls, for every report and every answer; no other row changes |
| DispatchOutcome.NotificationIsExact | backend/internal/service/attendance_report_dispatcher.go:315-406 | a job of the notification list records sent without retries iff the message was accepted, else failed with one more retry; rows that are not due, and the remote service, stay as they are; an error iff a due row has no usable time |
| DispatchOutcome.BatchSplits | backend/internal/service/attendance_report_dispatcher.go:114-127 | the loop may be cut anywhere: the later jobs run on what the earlier ones leave, unless one of these ended with an error |
| OutboxProducers.ClockInKeyIsFresh | backend/internal/service/syslog_pipeline.go:140-149 | the key of an earlier connect was never used, so the branch for an existing key is not taken |
| OutboxProducers.RaisedVersionIsNew | backend/internal/service/admin_services.go:398 | no stored key of the record carries the raised version, so correction keys are fresh |
| OutboxProducers.HandleEventOk | backend/internal/service/syslog_pipeline.go:130-169 | the pipeline only appends well-formed fresh reports and keeps the record in step with their replay |
| OutboxProducers.CorrectAttendanceOk | backend/internal/service/admin_services.go:363-444 | the same for a correction, whose reports take over the latest delivered flow |
| OutboxProducers.FinalizeRecordOk | backend/internal/service/day_end_dispatcher.go:165-240 | the same for finalization |
| OutboxProducers.ManualReportOk | backend/internal/service/debug_admin_service.go:132-146 | the same for a manual re-send, whose key is fresh because the clock advanced |
| OutboxDispatch.DeleteKeepsRemote | backend/internal/service/attendance_report_dispatcher.go:209-221 | deleting what a report names only removes a flow that this report supersedes |
| OutboxDispatch.AdvanceKeepsInv | backend/internal/service/attendance_report_dispatcher.go:175-344 | every single protocol step, whatever the remote service answers, keeps the invariant |
| OutboxSafety.StepKeepsInv | backend/internal/service/attendance_report_dispatcher.go:95-344 | every step of every actor, and a crash, keeps the invariant |
| OutboxSafety.ReachableInv | backend/internal/service/attendance_report_dispatcher.go:95-344 | the invariant holds in every state of every run |
| OutboxSafety.ReplayGivesFirstConnect | backend/internal/service/syslog_pipeline.go:135-169 | in every reachable state, replaying a record's clock-in reports in id order gives exactly its first connect |
| OutboxSafety.NewestFlowIsLive | backend/internal/service/attendance_report_dispatcher.go:209-312 | the newest report of a record and type, once successful and not a clear, has its flow live with employee and time |
| OutboxSafety.Delivery | backend/internal/service/attendance_report_dispatcher.go:209-312 | if the newest clock-in report is successful and not a clear, the remote service holds a flow with the record's current first connect |
| OutboxSafety.ClearedMeansNoFirstConnect | backend/internal/service/admin_services.go:475-483 | the newest clock-in report is a clear iff the record has no first connect |
| OutboxSafety.DeletesOnlyEarlierFlows | backend/internal/service/admin_services.go:490-508 | what a report is to delete was created by a lower-id successful report of the same record and type |
| OutboxSafety.SuccessIsFinal | backend/internal/repository/report_repository.go:153-193 | between any two states of a run no report changes its content, and success, remote id and retry count are final |
| OutboxSafety.EarlierConnectIsReported | backend/internal/service/syslog_pipeline.go:135-169 | in every reachable state an earlier connect queues exactly one new pending report with its time |
| OutboxSafety.ReachableStatuses | backend/internal/service/day_end_service.go:28-47 | only three pairs of clock-out and exception status occur; done implies that the time is set |
| OutboxSafety.NotificationFollowsDelivery | backend/internal/service/attendance_report_dispatcher.go:346-406 | a delivered time was notified of or its notification failed and counts retries within the limit; a clear is never notified |
| OutboxSafety.NoStepAborts | backend/internal/service/attendance_report_dispatcher.go:260-312 | no dispatcher step of any run returns the error of the notification text, so a created flow always reaches its save |
| SingleFlow.AtMostOneFlow | backend/internal/service/attendance_report_dispatcher.go:209-258 | never two live flows of one record and field, when each report is queued after the dispatcher is through with the earlier ones, no crash falls between creation and save, and the pipeline queues only while the time is unset and all reports succeeded |
| SingleFlow.AtMostOneClockOutFlow | backend/internal/service/day_end_dispatcher.go:182-186 | never two live clock-out flows of one record, without the condition on the pipeline |
| SingleFlow.RemoteHoldsExactlyNewest | backend/internal/service/attendance_report_dispatcher.go:209-312 | in the runs of AtMostOneFlow, once the newest report of a record and field succeeded, the remote service holds for it exactly that report's flow, and nothing when the report is a clear |
| SingleFlow.ClockOutIsExact | backend/internal/service/attendance_report_dispatcher.go:209-312 | the same for clock-out, without the condition on the pipeline |
| StrandedFlows.HoldsExactlyIff | backend/internal/service/attendance_processor.go:30-39 | where reports wait for success and no crash loses a flow, the remote service holds exactly the newest delivered report's flow iff the pipeline never queued for the field while its time was set |
| StrandedFlows.TwoFlowsIff | backend/internal/service/attendance_processor.go:30-39 | in the same runs, a field whose newest report is a delivered time has two live flows iff the pipeline queued for it while its time was set |
| StrandedFlows.BypassStrands | backend/internal/service/syslog_pipeline.go:161 | after such a report, in every later state, a flow is live that is not the newest report's |
| StrandedFlows.EarlyQueueStrands | backend/internal/service/admin_services.go:490-508 | in any run: while a report queued before an earlier one of its field was delivered is the newest, that one's flow is live once delivered, and both delivered mean two flows |
| StrandedFlows.CrashStrands | backend/internal/service/attendance_report_dispatcher.go:285-312 | in any run: the flow created before a crash that lost its save is live in every later state, beside that of a newest delivered report |
| FlowExamples.EarlierConnectLeavesTwoFlows | backend/internal/service/syslog_pipeline.go:161 | a run with an earlier connect after a delivery that ends with two live clock-in flows |
| FlowExamples.QueueingEarlyLeavesTwoFlows | backend/internal/service/admin_services.go:428-437 | a run that corrects a time whose day-end report is still pending and ends with two live clock-out flows |
| FlowExamples.CrashLeavesTwoFlows | backend/internal/service/attendance_report_dispatcher.go:285-312 | a run with a crash between creation and save that ends with two live flows for one report |
| Drain.RunOnceProgress | backend/internal/service/attendance_report_dispatcher.go:95-128 | a run that finds work strictly lowers the weighted count of remaining retries, one that finds none changes nothing, and none ends with an error |
| Drain.QueuesDrain | backend/internal/service/attendance_report_dispatcher.go:95-128 | with nothing new queued, both lists are empty after a bounded number of runs, whatever the client answers |
| Drain.CreateCallsBounded | backend/internal/service/attendance_report_dispatcher.go:416-422 | no report gets more CreateFlow calls than the retry limit |
| DispatchRuns.JobIsAPath | backend/internal/service/attendance_report_dispatcher.go:175-344 | an uninterrupted job is a path of machine steps with the same result, and never aborts |
| DispatchRuns.RunOnceIsAPath | backend/internal/service/attendance_report_dispatcher.go:95-128 | so is an uninterrupted run over both lists |
| DispatchRuns.RunOnceFromReachable | backend/internal/service/attendance_report_dispatcher.go:95-128 | such a run leads from reachable states to reachable states |
| DispatchRuns.ReachableTablesDrain | backend/internal/service/attendance_report_dispatcher.go:95-128 | every reachable table meets what the drain results ask for |
| DispatchRuns.DispatchFromReachable | backend/internal/service/attendance_report_dispatcher.go:175-313 | in every reachable state a dispatch succeeds iff every answer it needs is positive; a delivered time is then live under the id its row names, and a cleared report names none |
| Aggregation.PipelineAggregates | backend/internal/service/attendance_processor.go:21-47 | after any messages: a record iff an event fell there, its earliest connect, its latest disconnect, and one report per strict new minimum in arrival order |
| Aggregation.OrderDoesNotMatter | backend/internal/service/syslog_pipeline.go:130-169 | the same messages in another order give the same records with the same times |
| DayEndProofs.ExistingKeyDecides | backend/internal/service/day_end_dispatcher.go:175-188 | when an existing key makes finalization skip the report, the newest clock-out report already carries the last disconnect |
| DayEndProofs.DayEndPostcondition | backend/internal/service/day_end_dispatcher.go:170-192 | after a completed run each record of the date is done without exception iff it has a last disconnect and missing otherwise, and its newest clock-out report carries exactly that time |
| DayEndProofs.DayEndFrame | backend/internal/service/day_end_dispatcher.go:102-141 | a run changes statuses only, only on its date; the run rows of all other dates stay as they are |
| DayEndProofs.RunHappensIff | backend/internal/service/day_end_dispatcher.go:112-141 | before the cutoff, or when the date has its run, nothing changes; the date has a run row afterwards iff it had one or the cutoff is past |
| DayEndProofs.FinalizationIsExact | backend/internal/service/day_end_dispatcher.go:165-240 | every field of the finalized record, and a clock-out report that takes over the latest delivered flow, appended iff the record has a last disconnect and no stored key for it in this version |
| DayEndProofs.ResumesExactly | backend/internal/service/day_end_dispatcher.go:128-141 | stopping after any prefix of the records and running again leaves the same records, but for the calculation time, and the same reports |
| DayEndProofs.RunResumesExactly | backend/internal/service/day_end_dispatcher.go:102-141 | the same for the whole state, with one new run row that differs in its execution time only |
| DayEndProofs.LaterRunsChangeNothing | backend/internal/service/day_end_dispatcher.go:116-121 | a second run of a date right after the first changes nothing |
| DayEndRuns.FinishedDateIsFinal | backend/internal/service/day_end_dispatcher.go:116-121 | a date's run row survives every step of every actor, and any later day-end run of the date changes nothing at all |
| DayEndRuns.DayEndFromReachable | backend/internal/service/day_end_dispatcher.go:102-141 | a run is a sequence of machine steps, and from any reachable state it settles every record of the date |
| DayEndRuns.StaleCopyIff | backend/internal/service/day_end_dispatcher.go:123-133 | finalizing a copy read earlier keeps the record's times, and the clock-in reports replaying to its first connect, iff it writes nothing or the times did not change since |
| DayEndRuns.LagsIff | backend/internal/service/day_end_dispatcher.go:170-192 | through any steps of any actor, the newest clock-out report is behind the record iff a later disconnect was raised and no finalization, correction or re-send followed; it is never ahead |
| DayEndRuns.ClockOutDelivery | backend/internal/service/attendance_report_dispatcher.go:209-312 | after a day-end run and any further steps of any actor, the delivered newest clock-out is live with a time that is the record's last disconnect iff none was raised unreported, and earlier otherwise |
| CorrectionProofs.DecodedFields | backend/internal/service/admin_services.go:280-296 | null unsets a stored time, a time replaces it, an absent field keeps it, anything else is an error; a decoded field that is marked valid carries a time |
| CorrectionProofs.CorrectionIsExact | backend/internal/service/admin_services.go:363-444 | reports for precisely the changed fields, timed or clear; one more version and recalculated statuses iff a field changed, else nothing is written |
| CorrectionProofs.CorrectionFailsIff | backend/internal/service/admin_services.go:350-362 | the correction is refused iff no field is given, or fields are given for an unknown record |
| CorrectionProofs.CorrectionIsIdempotent | backend/internal/service/admin_services.go:363-369 | repeating a correction is a no-op |
| CorrectionProofs.FieldIsReportedIff | backend/internal/service/admin_services.go:298-312 | for every input: a field is reported iff its time changes, exactly unless it is valid without a time over a stored time |
| CorrectionProofs.SilentRemoval | backend/internal/service/admin_services.go:463-466 | on that input a stored time disappears and nothing is queued |
| Calendar.DateOf | backend/internal/service/report_service.go:44 | every day number has a valid date, leap years included |
| Calendar.DateIsUnique | backend/internal/service/report_service.go:44 | and no other one |
| Calendar.YearsInClosedForm | backend/internal/service/report_service.go:44 | the year-by-year definition agrees with the usual leap-year count |
| Calendar.MonthsInClosedForm | backend/internal/service/report_service.go:44 | the first day of each month agrees with the usual closed form |
| Timestamps.EpochIsUnixEpoch | backend/internal/service/attendance_report_dispatcher.go:487 | the day that seconds are counted from is 1970-01-01 |
| Timestamps.TimestampRoundTrip | backend/internal/service/report_service.go:44 | printing a time per section 5.6 of RFC 3339 and parsing it gives the time back |
| Timestamps.CheckTimeRoundTrip | backend/internal/service/attendance_report_dispatcher.go:477-488 | the check_time of a queued report writes the Unix second of the report time in decimal digits with its sign, and the dispatcher takes the branch that the constructor meant |
| Timestamps.NoticeIffCheckTime | backend/internal/service/attendance_report_dispatcher.go:503-529 | the notification text can be built from exactly the payloads whose check_time was accepted; the dispatcher clears iff the action is clear, and creates with that check_time iff it is accepted |
| Timestamps.NoticeIsExact | backend/internal/service/attendance_report_dispatcher.go:497-529 | the notification of a queued report carries its type and its time in the configured zone |
| Timestamps.ZonedTimestampIsRead | backend/internal/service/attendance_report_dispatcher.go:482-487 | a timestamp with any fraction and any zone is read as its local time less the offset |
| Timestamps.DateTextIs | backend/internal/service/report_service.go:103-109 | a date is printed as year, month and day |
| Timestamps.ClockTextIs | backend/internal/service/report_service.go:44 | a time of day is printed as hour, minute and second |
| ReportKeys.KeyTextInjective | backend/internal/service/report_service.go:33-101 | timed, clear and manual keys never collide; equal texts have equal employee, date, type, second and version |
| ReportKeys.LookupByText | backend/internal/repository/report_repository.go:31-36 | looking up the text of a key finds what looking up its parts finds |
| ReportKeys.StoredTextsDiffer | backend/internal/db/migrations/001_init.sql:210 | the key column is unique as text |
| ReportKeys.KeyFitsColumn | backend/internal/db/migrations/001_init.sql:193 | no key text is longer than the column |
| SyslogRules.MatchSyslogRule | backend/internal/service/syslog_rule_matcher.go:17-37 | the loop returns the first enabled rule that matches or errors, and nothing iff none does |
| SyslogRules.RuleTable.CreateRule | backend/internal/repository/syslog_rule_repository.go:101-150 | the new rule's order is above all others; orders stay distinct |
| SyslogRules.RuleTable.DeleteRule | backend/internal/repository/syslog_rule_repository.go:192-196 | exactly the rules with other ids remain; orders stay distinct |
| SyslogRules.RuleTable.MoveRule | backend/internal/repository/syslog_rule_repository.go:198-257 | the two updates, the no-op at the ends and the unknown id; orders stay distinct |
| RuleOrderProofs.ListedIs | backend/internal/repository/syslog_rule_repository.go:28-54 | the query returns the one increasing arrangement of the rules |
| RuleOrderProofs.CreateListsLast | backend/internal/repository/syslog_rule_repository.go:101-121 | a new rule comes last, one sort order behind the others, which keep their order |
| RuleOrderProofs.DeleteFromListing | backend/internal/repository/syslog_rule_repository.go:192-196 | deleting takes one place out of the listing |
| RuleOrderProofs.MoveInListing | backend/internal/repository/syslog_rule_repository.go:198-257 | a move exchanges a rule with its immediate neighbour and fixes every other position, or does nothing at the ends |
| RuleOrderProofs.OppositeMoveUndoes | backend/internal/repository/syslog_rule_repository.go:198-257 | the opposite move restores the table |
| RuleOrderProofs.PanelPredictsListing | frontend/src/features/settings/components/SyslogRulesPanel.tsx:69-100 | from equal starting lists the page shows what the next listing returns, whatever its tie-break |
| RuleOrderProofs.EnabledListing | backend/internal/repository/syslog_rule_repository.go:56-61 | the enabled rules come in the order of the full listing |
| RuleOrderProofs.MoveChangesResultIff | backend/internal/service/syslog_rule_matcher.go:17-37 | a move changes what becomes of a message iff both exchanged rules are enabled and match or error on it and no earlier rule does |
| TokenCache.CacheIsNeverMixed | backend/internal/service/feishu_attendance_client.go:432-438 | under any interleaving, the four cached fields come from one fetch whenever the mutex is free |
| TokenCache.MutualExclusion | backend/internal/service/feishu_attendance_client.go:388-438 | at most one caller is inside either critical section |
| TokenCache.ServedTokenIsOwnAndFresh | backend/internal/service/feishu_attendance_client.go:387-398 | a token served from the cache comes from an earlier response for the caller's own credentials, looked up over 1800 seconds before the expiry which that response gave |
| TokenCache.FetchedTokenIsOwn | backend/internal/service/feishu_attendance_client.go:432-447 | a token served after a request comes from a response to a request for the caller's own credentials |
| TokenCache.LookupHitsIff | backend/internal/service/feishu_attendance_client.go:389-392 | a lookup is a hit iff a token is cached for the same credentials that does not expire within 1800 seconds |
| TokenCache.ServedAgainIff | backend/internal/service/feishu_attendance_client.go:387-447 | after a fetch a later call is served without a request iff it has the same credentials and comes over 1800 seconds before the expiry |
| TokenCache.HttpClient.TenantAccessToken | backend/internal/service/feishu_attendance_client.go:387-447 | one call by itself: when it asks the remote service, what it returns, and what it caches |

## Left out

- HTTP handlers, router, UDP listener, bootstrap, configuration, migrations and seeding: they would only add easy members.
- The message and event log tables that the pipeline also writes: nothing reads them back.
- SQL text, row scanning and NULL conversion: a table is its rows, its unique key and the stated order and limit.
- The case-insensitive collation of the key column: the letters of a key are fixed by its kind and report type, and only digits tell such keys apart.
- Regular expressions and time layouts of rules: a rule is an abstract function of its definition.
- The HTTP calls, JSON bodies, redaction and the user_tasks lookup of the remote client: it is a set of live flows with answers from the environment.
- The unlocked read of the expiry in the log line after a cache hit: it decides nothing.
- Laxer inputs that Go's time parser accepts beyond section 5.6 of RFC 3339: report timestamps are always printed by the service itself.
- Races between an HTTP correction and a UDP event that are not one transaction, and sub-second times: excluded by the atomic whole-second steps.
- Exactly-once creation across a crash between a creation and its save: false, see `CrashLeavesTwoFlows`; the idempotent id is not part of the request body.
- Changes of the retry limit while reports are queued: the limit is fixed over a run.
- Employee and device administration, settings, log pages, dashboard and React state: they would only add easy members.
