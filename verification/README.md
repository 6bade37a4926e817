# Cleanroom environment monitor: a verified model

A model in Dafny of the core of the cleanroom environment monitoring service: the area interlock protocol, the alert
lifecycle with its deduplication window, the bounded sample history, the classification arithmetic and the dashboard
totals, wired together as one state machine over a shared store.

## How it is built

- **One state, one step per service call.** `State.State` is the whole store as a value: clean zones, monitor zones,
  samples, interlock logs, alerts and the id counters. `Runs.Step` has one constructor per service call (create zone,
  create monitor zone, maintenance, calibration, report, manual interlock, restore confirmation, acknowledgement,
  escalation and the two sweeps), `Runs.Apply` says what each does, `Runs.Exec` runs a list of them from the empty store.
  A step carries the clock; `Runs.Clocked` says that the clock never goes back and that a sweep's tick is not in the
  future.
- **The imperative layer.** `Store.Store` is the repository as a class: fields that its methods reassign, and for the
  samples a backing array that `Append` grows and `Trim` compacts in place. The service methods (`InterlockService`,
  `AlertService`, `IngestService`, `ZoneService`, `OverviewService`) have the loops of the services, which change copies
  and write them back by id, and are proved against the functions of `State`. `Driver.RunAll` carries out a whole run on a
  store object and ends with exactly `Exec` of it, so that every theorem about runs is one about the mutable store.
- **The theorems.** They are about every reachable state, every run or every call: `interlock_invariants`, `evolution`,
  `interlock_theorems`, `readings`, `areas`, `area_independence`, `sweeps`, `requests`, `ventilation`, `fans`,
  `log_history`, `register`, `monitor_history`, `inert`, `alert_invariants`, `alert_theorems`, `last_occurrence`,
  `accounting`, `history`, `window`, `judgement`, `overview_totals` and `dashboard`; `scenarios` holds short concrete runs.

Ratios and counts are `real`, times and durations `int` nanoseconds. The configuration is fixed for a run and passes
`Config.Valid`. Records are datatypes because Go copies the structs out of the store and back into it; a method
that changes such a copy is a function to the changed copy.

## Where the code and what is said about it differ

The model follows the code. These are worth knowing; each comes with the exact condition, and with a concrete input or
run where one is needed to see it:

- A zone's class and process only have to parse; they are stored as spelled. A class such as "ISO5" is missing from the
  limit table, so its zone has zero limits and no reading ever raises a particle alarm, nor takes it beyond normal (`Judgement.CanAlarmExactlyWhen`,
  `Judgement.SpellingIsKept`, domain/cleanzone.go:61, domain/monitor.go:132).
- The result of a report is said to hold the persisted sample, but it is a copy made before the classification: it is the
  stored one exactly when the reading was invalid (`History.ReturnedIsStoredWhenInvalid`,
  `Scenarios.ReturnedDiffersFromStored`, service/ingest_service.go:88).
- Acknowledged data quality alerts are to close once the condition has cleared, yet they stay when the window holds no
  invalid reading at all (`Accounting.ClosesExactlyWhatCleared`, `Scenarios.AcknowledgedOutlivesRecovery`,
  service/ingest_service.go:194).
- The credibility window is meant to be the last W readings of a monitor zone. It is exactly when the store has kept
  enough of them and each of the last W - 1 stored ones was taken strictly later than all before it; report times come
  from the device and may repeat or go back (`SlidingWindow.WindowSlides`, `Scenarios.ShortStoreCutsTheWindow`,
  `Scenarios.LateReadingLeavesTheWindow`). In every case it is the new reading and the W - 1 latest stored ones by report
  time (`SlidingWindow.WindowHoldsTheLatest`).
- All zones of an area interlock together, unless a zone is created in an area that is interlocked at the time
  (`Areas.AllOrNone`, both directions; `Scenarios.LateZoneSplitsTheArea`).
- An alert is overdue counted from its last occurrence, not from the first, so repetitions keep it open
  (`Scenarios.MergesPostponeEscalation`, domain/alert.go:120-125), and the search for an alert to merge into also finds
  escalated ones (store/alert_store.go:94).
- A merge keeps the severity of the first sighting: a critical reading merged into a warning leaves a warning
  (`AlertInvariants.SeverityNeverChanges`, `Scenarios.CriticalMergedIntoWarning`, domain/alert.go:72-77).
- Validity is judged at the report time of the reading, not at the clock (`MonitorHistory.ValidityFollowsTheOrders`,
  service/ingest_service.go:79-83).
- Acknowledging is said to need an operator, but only the disposition is checked (`AlertTheorems.AckIsExact`,
  service/alert_service.go:55); over HTTP an empty operator cannot arrive, since the handlers fill it in
  (httpapi/zone_handler.go:206-211). Escalating is said to be for open alerts, but an acknowledged one becomes active
  again (`AlertTheorems.EscalateIsExact`, `Scenarios.PromotionReactivates`, domain/alert.go:96-104).
- The share of invalid readings on the dashboard is worked out after the reading was stored, the one a report returns
  before; they cover the same readings under the conditions of `Dashboard.ShownIsReturned`
  (service/overview_service.go:94-96, service/ingest_service.go:177-184).
- A merge uses up an alert id (`Accounting.IdsAreOccurrences`, service/alert_service.go:34-36).

## Model

| member | source | states |
|---|---|---|
| InterlockInvariants.ReachableSound | service/ingest_service.go:116-127 | In every reachable state: ids are unique, every monitor zone is placed, normal means ratio below 1, elevated means ratio from 1 to the over-limit ratio, no zone rests in over_limit, and an area has an open log exactly when one of its zones is interlocked. |
| InterlockInvariants.ApplySound | service/interlock_service.go:45-84 | Every single step, whatever it is, keeps that invariant. |
| InterlockInvariants.RestoreAgrees | service/interlock_service.go:143-174 | After a restore no zone of the area is interlocked and no log of it is open, and all areas still agree with their logs. |
| Evolution.EveryStepEvolves | domain/zone_state.go:18-80 | Every status change of every step is an edge of the transition table stamped with the clock, only a restore confirmation takes a zone out of interlocked, and closed logs are untouched. |
| Evolution.OnlyConfirmationReleases | domain/zone_state.go:29-32 | Along any run, an interlocked zone stays interlocked as long as no restore is confirmed. |
| Evolution.ClosedLogsAreFinal | store/interlock_store.go:24-34 | Along any run, a closed interlock log is never changed or reopened. |
| InterlockTheorems.StoredRatioIsLast | service/ingest_service.go:104-127 | After any run a zone's stored ratio is that of the last valid reading on any of its monitor zones, 0 if there was none. |
| InterlockTheorems.ReadingDecidesStatus | service/ingest_service.go:220-249 | A valid reading sets its zone's status by the ratio alone, unless it was interlocked; the result reports a status change exactly when there was one. |
| InterlockTheorems.SweepIsExact | service/zone_sweeper.go:50-77 | A zone sweep interlocks exactly the areas that held a candidate, adds one log per candidate, never has to clamp a ratio, issues level 1 when the over-limit ratio is at most 2, and a second sweep finds nothing. |
| Requests.ConfirmActs | httpapi/interlock_handler.go:72-97 | A confirmed restore acts exactly with a note and for an interlocked or restored zone; then it restores the area and signs off its logs, otherwise nothing changes. |
| Requests.OrderActs | httpapi/zone_handler.go:132-172 | An order changes the equipment of its monitor zone, if stored, and nothing else. |
| Requests.AcknowledgeActs | httpapi/alert_handler.go:72-92 | An acknowledgement changes its alert exactly when that is stored, not closed and the disposition is filled. |
| Requests.PromoteActs | httpapi/alert_handler.go:94-104 | A requested escalation changes its alert exactly when that is stored and not closed. |
| Requests.SweepAlertsActs | service/escalate_sweeper.go:49-66 | The escalation sweep acts at its clock on what was overdue at its tick, and on nothing else. |
| Readings.AcceptedExactlyWhen | service/ingest_service.go:59-71 | A report is accepted exactly when its monitor zone and that one's clean zone are stored; otherwise nothing changes. |
| Readings.CountsDecideStatus | service/ingest_service.go:102-127 | A trusted reading interlocks its zone exactly when some count reaches the over-limit ratio times its limit or it was interlocked; else it is elevated when a count reaches its limit and normal otherwise; the ratio kept and returned is the worse of the two shares. |
| Readings.OverLimitInterlocks | service/ingest_service.go:220-238 | A report issues an interlock exactly for a trusted reading that reaches the over-limit ratio in a zone not yet interlocked; every field of the log is told from the report. |
| Readings.StoredSampleIsTheReading | service/ingest_service.go:73-99 | The newest stored sample holds what was reported; a trusted one has the worse of the classes of its two counts and is flagged exactly above class 8, any other one has no class, no flag and the reason. |
| Readings.ConditionsInNumbers | service/ingest_service.go:129-175 | The condition of each alert type holds exactly when the counts, the climate or the pressure of the reading, or the invalid share, are out of their bounds. |
| Sweeps.SweepActsOnTheDue | service/zone_sweeper.go:50-77 | A sweep interlocks an area exactly when some zone of it is elevated or over limit for at least the timeout at the tick, changes no other zone, and adds one fully described log per such zone. |
| Sweeps.SweepNeverTooEarly | service/interlock_service.go:184-199 | When a sweep turns a zone interlocked, some zone of its area had been elevated without a break for at least the timeout. |
| Sweeps.StatusIsDated | domain/cleanzone.go:80-88 | The time a zone's status carries is the clock of the step that set it. |
| Requests.ManualInterlock | httpapi/interlock_handler.go:24-66 | A manual interlock of a stored zone interlocks its area; its log carries the request's fields, with the defaults of what was left open. |
| Requests.MaintenanceIsExact | service/zone_service.go:78-94 | A maintenance toggle goes through exactly for a stored monitor zone and changes its flag, note and start, nothing else. |
| Requests.CalibrationIsExact | service/zone_service.go:97-109 | A calibration date goes through exactly for a stored monitor zone and changes it alone. |
| Areas.IssueIsExact | service/interlock_service.go:28-90 | Issuing succeeds exactly for a stored zone, interlocks the whole area, adds one log under a new id with the request's data and the area's zone ids in store order, and changes nothing outside the area. |
| Areas.RestoreIsExact | service/interlock_service.go:130-179 | Restoring succeeds exactly for interlocked or restored zones, clears the area, turns its interlocked zones and no others to restored, signs off its open logs and no others, returns its restored zones in store order and changes nothing outside; an unknown zone is not found, any other status a conflict. |
| Areas.RestoreUndoesIssue | service/interlock_service.go:130-179 | After an issue, a restore through any zone of the area succeeds and leaves the whole area restored with no open log. |
| Areas.AllOrNone | service/interlock_service.go:45-62 | Along a run every area is interlocked as a whole or not at all exactly when no step asks for a new valid zone in an area interlocked at the time. |
| Ventilation.BoundedTimeToVentilation | service/interlock_service.go:184-199 | With the last sweep at most an interval old, a zone that is elevated or over limit has been so for less than the timeout plus the interval. |
| Fans.FansAreClosedForm | service/interlock_service.go:94-125 | In every reachable state a fan runs at min(100, 60 + 10 s) and fresh air at min(100, 30 + 5 s), s summing the levels of the area's logs since the monitor zone was created. |
| Fans.FansNeverFall | service/interlock_service.go:103-117 | Along any run no fan level or fresh-air share falls, and both stay within 0 to 100. |
| LogHistory.ReachableLogs | domain/interlock.go:39-78 | In every reachable state logs are in order of issue, name their own zone, have a peak of at least 1 and the level of its whole part, and were restored no earlier than issued and with a note. |
| LogHistory.LogsNameTheirArea | service/interlock_service.go:45-84 | In every reachable state each log names exactly the ids of its area's zones that existed at its issue, in store order, and as many interlock ids were handed out as there are logs. |
| LogHistory.CommandsOfLevel | domain/interlock.go:81-87 | Fans and fresh air are always commanded, the exhaust from level 2 on. |
| LogHistory.LevelIsWholeRatio | domain/interlock.go:69-78 | The level is the whole part of the ratio held between 1 and 3. |
| MonitorHistory.ValidityFollowsTheOrders | domain/validity.go:17-28 | A reading counts exactly when the last maintenance toggle requested since the monitor zone's creation was off and its report time is within the last calibration date, all told from the requests of the run alone, with the note and start of the maintenance; otherwise the reason stored names maintenance first. |
| Register.CreationIsToldByRequests | store/monitor_store.go:17-43 | After any run the stored zones and monitor zones, in order and with every field their creation fixed, thresholds included, are those the creation requests alone tell of. |
| Register.ZoneEntered | domain/cleanzone.go:51-71 | A clean zone is refused as invalid, told from its own texts, then as taken, and stored otherwise. |
| Register.MonitorEntered | store/monitor_store.go:17-43 | A monitor zone is refused as invalid, then for its unknown clean zone, then for a taken id or counter, and stored otherwise. |
| Text.NormaliseSpells | domain/types.go:65-100 | What is accepted for a word is that word in any case with white space around it. |
| Text.IdReadsBack | store/store.go:169-172 | A generated id is its prefix, an underscore and the decimal number counted. |
| MonitorHistory.StepTouches | domain/monitor.go:124-127 | Every step dates the monitor zones it changes or creates with its clock. |
| MonitorHistory.CountersAreUnique | store/monitor_store.go:33-41 | In every reachable state no particle counter serves two monitor zones. |
| Inert.InvalidReadingsAreInert | service/ingest_service.go:84-127 | Deleting any readings judged invalid from any run leaves zones, monitor zones, logs and their generated ids exactly the same. |
| Inert.StepLike | store/store.go:169-172 | Two states with the same plant have the same plant after any step: alerts, samples and their counters steer nothing. |
| AreaIndependence.OtherAreasDoNotMatter | service/interlock_service.go:28-179 | Deleting any readings, interlocks, restores and orders that concern other areas, and any calls about alerts, from any run leaves an area's zones, monitor zones and logs the same, log ids aside. |
| AreaIndependence.StepSame | service/zone_sweeper.go:50-77 | Two states that agree on an area agree on it after any step, the sweep over all areas included. |
| AlertInvariants.ReachableAlerts | service/alert_service.go:28-53 | In every reachable state alerts of one key are a dedup window apart unless the earlier one is closed, timestamps are in order, and whatever is closed was acknowledged with a disposition. |
| AlertInvariants.MergeHitsTheLast | store/alert_store.go:85-103 | A raise adds an alert when none of its key is within the window, and otherwise merges into the very last alert of its key. |
| AlertInvariants.NoTies | store/alert_store.go:97-100 | Two alerts of one key with the earlier one not closed are at least a dedup window apart in creation time, so the newest is unique. |
| AlertInvariants.SeverityNeverChanges | domain/alert.go:72-77 | Along any run an alert keeps its severity, zone, monitor zone, type and first sighting, and its counter never falls. |
| AlertInvariants.ClosedAlertsAreFinal | domain/alert.go:81-111 | Along any run a closed alert never changes again. |
| AlertTheorems.OccurrencesAreConserved | domain/alert.go:72-77 | For every monitor zone and type the counts of all its alerts sum to the number of reported readings that showed the condition. |
| LastOccurrence.StampIsLastDemand | service/alert_service.go:33-53 | Over any run the last stored alert of each monitor zone and type carries the clock and sample of the last report that showed its condition; there is none exactly when there was no such report. |
| AlertTheorems.EscalationIsExact | service/escalate_sweeper.go:49-66 | An escalation sweep escalates exactly the alerts open and last seen at least the timeout before its tick, as many as it counts, leaves every other one as it was, and a second sweep does nothing. |
| AlertTheorems.BoundedTimeToEscalation | domain/alert.go:120-125 | With the last escalation sweep at most an interval old, no alert has been open for the timeout plus the interval since its last occurrence. |
| AlertTheorems.AckIsExact | domain/alert.go:81-94 | An acknowledgement succeeds exactly for a stored, not closed alert and a non-blank disposition, with the right error otherwise, and changes that alert only. |
| AlertTheorems.EscalateIsExact | service/alert_service.go:74-86 | A requested escalation succeeds exactly for a stored alert, activates every one that is not closed, leaves a closed one alone, and repeating it changes at most the time. |
| Accounting.ResultIsTruthful | service/ingest_service.go:128-201 | The result of a report lists exactly as many created and merged alerts as the store gained, counts exactly those that closed, and every listed alert is stored as listed with what the reading says, new ones with the severity it demands. |
| Accounting.IdsAreOccurrences | service/alert_service.go:33-53 | In every reachable state as many alert ids have been handed out as the counts of all alerts add up to. |
| Accounting.ClosesExactlyWhatCleared | service/alert_service.go:103-125 | For every stored alert: an acknowledged one of the report's monitor zone whose condition the reading shows to be over is closed at the clock, one whose condition it shows keeps its status, every other one is untouched; data quality closes only while the window holds an invalid reading. |
| Accounting.InterlockIsReported | service/ingest_service.go:220-238 | The result carries a log exactly when the ratio reached the over-limit ratio in a zone not interlocked, and then it is the one log added. |
| History.StoredIsBounded | store/sample_store.go:17-50 | After any run the stored samples of each monitor zone are exactly the last max ones ever recorded for it. |
| History.KeepIsLast | store/sample_store.go:28-50 | Trimming keeps exactly the newest entries of its monitor zone. |
| History.KeepSparesOthers | store/sample_store.go:40-49 | Trimming one monitor zone leaves every other one's entries untouched. |
| History.ReportedIdsSpent | store/store.go:169-172 | No two samples ever recorded for a monitor zone share an id, and none of the ids will be handed out again. |
| SlidingWindow.WindowSlides | service/ingest_service.go:177-184 | For any report times: the credibility window is the last readings recorded, newest first, exactly when the last W - 1 stored ones each rise above all before them; it is the last W exactly when, besides, the store keeps everything, keeps W - 1, or has dropped none yet. |
| SlidingWindow.WindowHoldsTheLatest | store/sample_store.go:63-87 | For any report times the window is the new reading followed by the W - 1 latest stored ones, newest first, equal times in the order of recording. |
| SlidingWindow.FirstAreLast | store/sample_store.go:73-79 | The first n of the sorted readings are the last n recorded, newest first, exactly when each of those is strictly later than all before it. |
| SlidingWindow.CredibilityIsJudgedOnTheLast | domain/validity.go:33-49 | For any report times the flag and the share are those of the new reading and the W - 1 latest stored ones; they are those of the last readings recorded when the last W - 1 stored ones rise. |
| History.ReturnedIsStoredWhenInvalid | service/ingest_service.go:84-101 | The stored sample is the classified form of the returned one; they are the same exactly for invalid readings. |
| Iso.WorseOfTwoSizes | domain/iso.go:41-65 | Over any positive graded table the class is the worse of the two single-size classes. |
| Iso.MonotoneInBothCounts | domain/iso.go:41-65 | More particles of either size never make the class cleaner nor clear the over-table flag. |
| Iso.OverTableMeansNoClassFits | domain/iso.go:60-64 | The over-table flag is set exactly when no class of the table admits the counts. |
| Iso.ClassifyISO | domain/iso.go:41-65 | The loop with its skip and early exit computes the search the lemmas are about. |
| Iso.RatioIsTheWorse | domain/iso.go:68-80 | For every t: the ratio is at least t exactly when some count reaches t times its limit, a missing limit counting as 0. |
| Judgement.LimitsInNumbers | domain/monitor.go:131-144 | The limits a monitor zone is judged against are its own where set, else its class's number times 0.8, 1.0 or 1.2 by process. |
| Judgement.RatioInCounts | domain/monitor.go:131-144 | For every t: a reading's ratio is at least t exactly when one of its counts reaches t times the limit in numbers. |
| Judgement.ClimateInNumbers | domain/monitor.go:148-170 | Temperature, humidity and pressure are out exactly beyond the process's numbers or the monitor zone's own non-zero ones. |
| Judgement.RatioAgreesWithClass | domain/monitor.go:131-144 | Without overrides, ratio at most 1 means a class no worse than the design class when the multiplier is at most 1, and the converse holds within the table when it is at least 1. |
| Judgement.EtchingRatioIsTheClass | domain/process.go:27-63 | For a stored zone with the etching profile the two are equivalent over the built-in table. |
| Judgement.CanAlarmExactlyWhen | domain/monitor.go:131-144 | Some reading has a ratio of 1 or more exactly when the class is spelled as in the table or an override is set. |
| Judgement.SpellingIsKept | domain/cleanzone.go:51-71 | A concrete zone spelled with capitals is accepted, has ratio 0 for all counts and runs on the etching profile. |
| Scenarios.LateZoneSplitsTheArea | service/interlock_service.go:45-62 | Adding a zone, interlocking it and adding another in its area leaves the area interlocked by half. |
| Scenarios.ReturnedDiffersFromStored | service/ingest_service.go:84-101 | A valid reading on a fresh plant is accepted and its returned sample is not the stored one. |
| Scenarios.AcknowledgedOutlivesRecovery | service/ingest_service.go:186-197 | A data quality alert raised in maintenance and acknowledged stays acknowledged when the window holds one valid reading only. |
| Scenarios.ShortStoreCutsTheWindow | store/sample_store.go:28-50 | A valid configuration that keeps one reading cannot fill a window of three, although the report times rise. |
| Scenarios.LateReadingLeavesTheWindow | store/sample_store.go:73-79 | With times 10, 5 and 20 a window of two leaves out the reading recorded second, although the store keeps everything. |
| Scenarios.MergesPostponeEscalation | domain/alert.go:120-125 | An alert seen at 1 and 8 is open after the sweep at 12, although the timeout of 10 since its first sighting is over. |
| Scenarios.PromotionReactivates | domain/alert.go:96-104 | An escalation requested for an acknowledged alert makes it active again. |
| Scenarios.CriticalMergedIntoWarning | service/ingest_service.go:146-162 | A humidity warning followed by a critical temperature leaves one warning that counts both. |
| OverviewTotals.TotalsAddUp | service/overview_service.go:52-122 | In every reachable state per-zone active alerts sum to the active total, monitor lists to all monitor zones, and there are open interlocks exactly when some zone is interlocked. |
| OverviewTotals.ListedById | service/overview_service.go:98-107 | The overview shows exactly the stored zones, by ascending id, and so their monitor zones. |
| Dashboard.LatestIsShown | service/overview_service.go:87-93 | The latest sample shown is the stored one with the latest report time, the first recorded of those that share it. |
| Dashboard.ShownIsReturned | service/overview_service.go:94-96 | After a report the dashboard's share covers the readings the result was judged on: while nothing is dropped exactly when the new one is strictly later than every stored one; after a drop from a store of at least a window when the last readings rise. |
| Dashboard.OverviewIsWhatIsStored | service/overview_service.go:52-113 | The overview shows every stored zone and nothing else, each with its active alerts, status and monitor zones, and counts zones, monitor zones and logs not restored. |
| Dashboard.NewestFirst | store/alert_store.go:69-71 | Alerts, logs and samples are listed newest first by creation, issue and report time. |
| OverviewTotals.EachCountedOnce | service/overview_service.go:71-78 | Whatever belongs to one stored zone each is counted once over all zones. |
| Overviews.ActiveByZoneCounts | store/alert_store.go:119-129 | The per-zone map holds each zone's number of active alerts and its values sum to their total. |
| OverviewService.Build | service/overview_service.go:52-113 | The loops build exactly that view of the store. |
| OverviewService.SumMap | service/overview_service.go:116-122 | The values are added up whatever order the keys come in. |
| Alerts.DedupKeyInjective | domain/alert.go:48-50 | Two monitor zone and type pairs share a key only when they are equal, colons in ids included. |
| WellFormedness.NextIdIsFresh | store/store.go:169-172 | A generated id differs from every id of its kind stored so far and keeps differing from all later ones. |
| Samples.EvaluateInvalidRatio | domain/validity.go:33-49 | The loop yields the invalid share of the newest samples, a missing window meaning 50, and the flag exactly when there are any and the share exceeds the threshold. |
| Sequences.SortSorts | store/sample_store.go:73-75 | The sort the listings use puts its result in the given order. |
| Sequences.SortIsStable | store/sample_store.go:73-75 | Elements neither of which comes before the other keep their order. |
| Store.Compact | store/sample_store.go:40-49 | Compacting into its own array while reading it drops exactly the oldest excess samples of the monitor zone and loses nothing else. |
| Store.Store.Trim | store/sample_store.go:28-50 | Counting and compacting leave exactly the trimmed history. |
| Store.Store.Append | store/sample_store.go:17-25 | Appending, possibly to a new backing array, then trimming gives the history with the sample added. |
| Store.Store.FindOpenByDedupKey | store/alert_store.go:85-103 | The search loop finds the newest alert of the key that is not closed. |
| Store.Store.CreateMonitorZone | store/monitor_store.go:17-43 | Creation is refused for an unknown clean zone, a taken id or a taken counter, and otherwise appends. |
| Store.Store.CountActive | store/alert_store.go:106-116 | The loop counts the alerts that still need attention, the total the overview shows. |
| Store.Store.ListOverdue | store/alert_store.go:132-144 | The listing holds exactly the alerts overdue at the time given. |
| InterlockService.IssueForArea | service/interlock_service.go:28-90 | The loops over copies written back by id issue the interlock; none of the source's error branches inside them is ever taken. |
| InterlockService.ApplyInterlockCommands | service/interlock_service.go:94-125 | Every monitor zone of the area, and no other, is commanded with saturation. |
| InterlockService.RestoreZone | service/interlock_service.go:130-179 | The two write-back loops restore the area and close its logs. |
| InterlockService.Sweep | service/zone_sweeper.go:50-77 | The sweep over the list drawn up beforehand interlocks every candidate and returns how many there were. |
| IngestService.ProcessReading | service/ingest_service.go:59-214 | The whole report, result included, is the one the theorems are about. |
| IngestService.ApplyStateAndInterlock | service/ingest_service.go:220-249 | State machine and area interlock move the zone as specified, with the change flag and the log. |
| AlertService.CreateWithDedup | service/alert_service.go:28-53 | Search, merge or creation with a fresh id, as specified. |
| AlertService.ResolveActive | service/alert_service.go:107-125 | Exactly the acknowledged alerts of the monitor zone and type close, and their number is returned. |
| AlertService.SweepOverdue | service/escalate_sweeper.go:49-66 | Every overdue alert is escalated and their number returned. |
| ZoneService.ToggleMaintenance | service/zone_service.go:78-94 | The fetched record is changed and written back under its id, or not found. |
| ZoneService.ChangeCalibration | service/zone_service.go:97-109 | The same for the calibration date. |
| Driver.Perform | httpapi/router.go:84-103 | Each changing request that is routed, and each sweep, takes the store object from one state to the specified next one. |
| Driver.RunAll | service/bootstrap.go:44-118 | A whole run of calls on a new store object, like the one that seeds the demo plant, ends in exactly the state of the run. |

## Left out

- HTTP routing, JSON, paging, request validation (finite numbers, threshold ranges), middleware and the web frontend;
  of the handlers only the defaults of the manual interlock and the required restore note are kept.
- File persistence and the audit trail: the memory store is modelled, where no write can fail.
- Goroutines, tickers and cancellation: a sweep is a step that carries its tick.
- Interleavings inside one service call: the repositories lock call by call, so the cross-entity invariants are about
  calls that run one after another.
- The clock is read once per call; the source reads it several times within one call.
- The calendar arithmetic behind the default calibration date (one year ahead): the date is a parameter.
- Environment variable parsing: what `Validate` checks of the modelled fields is the assumption on the configuration.
- Rounding: ratios and counts are real numbers, not IEEE doubles; NaN and infinities do not occur.
- Wrap-around of the id counters and of `time.Duration`.
- The text of alert messages, operator names and request ids as far as no rule reads them.
- `CleanZoneStore.Delete` and `AlertService.Close`: no handler or service calls them, so they are not steps.
- `HasBeenStuck`, `ValidSampleRatio`, `RecentSamples` and other helpers no modelled call uses.
- The sort of the library is modelled as an insertion sort, which gives the same order: sorted and stable.
- Lower-casing is exact only as far as comparison with ASCII words goes.
- Records are values: aliasing between two copies of one record cannot be expressed, and does not arise in the source.
- Seeding of demo data at start-up: it goes through the same calls as any other run.
- InterlockTheorems.SweepIsExact: speaks of the logs a sweep adds; a manual interlock may give the sweeper's reason
  string with any ratio, so the reason alone does not tell the level.
- AreaIndependence.OtherAreasDoNotMatter: creations in other areas are not among the steps that may be deleted, because
  they move the generated ids and take ids and particle counters that later creations could ask for.
