# AndroidAPS core logic in Dafny

This project models the logic at the centre of AndroidAPS, an artificial-pancreas app for Android, and proves properties of that model. It covers:

- **IobCobOref**: the oref autosens/COB pass (`IobCobOrefWorker.doWorkAndLog`). It walks the bucketed glucose values of a copy of the calculator's store and computes, for each new bucket:
  - the deltas, the insulin impact (BGI) and the deviations;
  - the deviation slopes over the past hour;
  - carbs on board;
  - the sensitivity tag.

  It puts the copy back only when the walk completes. **SparseTable** is the time-keyed sparse array the records live in.
- **Constraints**: the constraint accumulator (value, reason log, most-limiting reasons). It also holds the Safety, OpenAPS AMA/SMB and DanaRS limiter chains, and the scenarios that `SafetyPluginTest` and `DanaRSPluginTest` pin down.
- **OfflineEvents**: the insert-and-cancel transaction for offline events.
- **PluginBase** and **ConfigBuilder**: the plugin enable/visibility state machine, and category exclusivity. ConfigBuilder also stores the flags to the preferences and loads them back.
- **DataSync**: the Nightscout v3 upload selector. It keeps one cursor per collection, classifies each change as ignore/add/update, and stops at the first refused upload. It also holds the queue counter, the full-sync reset and the profile-store upload.
- **TreatmentMapper**: the decoder from remote treatment records to typed treatments, the encoder back, and what survives a round trip.
- **QuickWizard**: the list operations on the JSON array of quick-wizard buttons.
- **AutotuneAction**: the `ActionRunAutotune` serialiser and its action.

How values are modelled:

- Doubles are modelled as `real`, and Longs and Ints as `int`.
- The database, the preferences, the clock, the profile, insulin activity, the Nightscout client and the sensitivity plugin are parameters. They are records of values and functions.
- Code that updates objects in place is modelled as classes with `modifies` clauses. Most such methods are specified by a pure function, and the properties are proved about that function. The others state the new state directly in their ensures.

With fewer than three bucketed values, `doWorkAndLog` returns *success* carrying an error text, not a failure (IobCobOrefWorker.kt:85-87). `IobCobOref.Work` models it that way and leaves the store untouched.

Source paths below are relative to the repository root. Abbreviations used in the table:

- W = `workflow/src/main/kotlin/app/aaps/workflow/iob/IobCobOrefWorker.kt`
- DS = `plugins/sync/src/main/kotlin/app/aaps/plugins/sync/nsclientV3/DataSyncSelectorV3.kt`

All other paths are written out in full.

## Model

| member | source | states |
|---|---|---|
| IobCobOref.DoWorkAndLog | workflow/src/main/kotlin/app/aaps/workflow/iob/IobCobOrefWorker.kt:68-267 | Without input data the result is "missing input data". Otherwise the result and the calculator's new store are those of `Work`. Any result other than success leaves the store as it was. |
| IobCobOref.WorkReplacesOnlyOnSuccess | workflow/src/main/kotlin/app/aaps/workflow/iob/IobCobOrefWorker.kt:75-98 | Each early exit leaves the store untouched: an invalid profile, fewer than 3 values, a stop request, or a crash. After a completed pass, every record that was already there is kept, and every new record was produced from a usable bucket before now. Conversely, every usable bucket has a record under its time. |
| IobCobOref.PassCoverage | workflow/src/main/kotlin/app/aaps/workflow/iob/IobCobOrefWorker.kt:93-264 | Conversely, a completed walk leaves a record under the time of every bucket it walked that is usable. Usable means: not after now as rounded, before now, with a profile, and both values at least 39. The record is either one the store had or the one the walk computed. |
| IobCobOref.PassProvenance | workflow/src/main/kotlin/app/aaps/workflow/iob/IobCobOrefWorker.kt:93-264 | A completed walk from index i down to 0 keeps every existing record. Every record it adds is sound, is dated before now, has a profile, and comes from a bucket whose value and whose value three places on are both at least 39. |
| IobCobOref.ComputeBucket | workflow/src/main/kotlin/app/aaps/workflow/iob/IobCobOrefWorker.kt:100-256 | One loop turn gives exactly the outcome of `Bucket`. |
| IobCobOref.BucketSkips | workflow/src/main/kotlin/app/aaps/workflow/iob/IobCobOrefWorker.kt:100-125 | These buckets give no record: future ones; already computed ones, whose record becomes `previous`; ones without a profile; and ones where bg or bg[i+3] is below 39. |
| IobCobOref.BucketArithmetic | workflow/src/main/kotlin/app/aaps/workflow/iob/IobCobOrefWorker.kt:102-133 | A record lies at or before now, has a profile and no earlier record, and both its values are at least 39. delta = bg − bg[i+1], avgDelta = (bg − bg[i+3])/3, bgi = −activity·sens·5, deviation = delta − bgi, avgDeviation = (avgDelta − bgi) rounded to 3 decimals. |
| IobCobOref.BucketSound | workflow/src/main/kotlin/app/aaps/workflow/iob/IobCobOrefWorker.kt:134-256 | Every record has COB ≥ 0. The max slope is ≤ 0 and the min slope ≥ 0. validDeviation holds exactly when COB ≤ 0. Without an hour of data behind the bucket (i ≥ size−16), the slopes keep their defaults 0 and 999. |
| IobCobOref.BucketCarbs | workflow/src/main/kotlin/app/aaps/workflow/iob/IobCobOrefWorker.kt:200-256 | failOverToMinAbsorptionRate is set exactly when previous COB > 0 and max(deviation, minimum impact) ≠ deviation. The history ends in "C" with carbs on board, otherwise in "=", "+" or "−" by the deviation. |
| IobCobOref.ScanPastHour | workflow/src/main/kotlin/app/aaps/workflow/iob/IobCobOrefWorker.kt:144-171 | The `past` loop computes `Scan`. Its slopes keep their signs (max slope ≤ 0, min slope ≥ 0). |
| IobCobOref.ScanKeepsSigns | workflow/src/main/kotlin/app/aaps/workflow/iob/IobCobOrefWorker.kt:161-170 | Each visited record leaves the max slope ≤ 0 and the min slope ≥ 0. |
| IobCobOref.ScanDefinedWhen | workflow/src/main/kotlin/app/aaps/workflow/iob/IobCobOrefWorker.kt:148-149 | The scan crashes exactly when a position initialIndex+1 … initialIndex+11 lies outside the table. |
| IobCobOref.ComputeSlopes | workflow/src/main/kotlin/app/aaps/workflow/iob/IobCobOrefWorker.kt:134-186 | The slope part of a turn computes `Slopes`: the scan runs only when i < size−16 and a record exists an hour back. |
| IobCobOref.SlopesFacts | workflow/src/main/kotlin/app/aaps/workflow/iob/IobCobOrefWorker.kt:134-186 | Scanned slopes keep their signs. Without an hour of data behind the bucket, the window is the default one. |
| IobCobOref.ComputeFresh | workflow/src/main/kotlin/app/aaps/workflow/iob/IobCobOrefWorker.kt:114-235 | Building a record once the guards have passed computes `Fresh`. |
| IobCobOref.AddRecentCarbs | workflow/src/main/kotlin/app/aaps/workflow/iob/IobCobOrefWorker.kt:187-197 | The recent-carbs loop computes `AddCarbs` from the carried-over list. |
| IobCobOref.AddCarbsTotals | workflow/src/main/kotlin/app/aaps/workflow/iob/IobCobOrefWorker.kt:187-197 | carbsFromBolus is the sum of the recent amounts. The carried list is kept as a prefix, and it gains exactly one entry per positive amount. |
| IobCobOref.TotalMinCarbsImpact | workflow/src/main/kotlin/app/aaps/workflow/iob/IobCobOrefWorker.kt:203-209 | The `ii` loop returns the sum of the entries' minimum 5-minute impacts. |
| IobCobOref.SumImpactAtLeast | workflow/src/main/kotlin/app/aaps/workflow/iob/IobCobOrefWorker.kt:203-214 | Suppose every entry's minimum impact is at least a non-negative floor. Then the sum is at least count × floor, so the assumed minimum absorption per active treatment adds up. |
| IobCobOref.ComputeAbsorption | workflow/src/main/kotlin/app/aaps/workflow/iob/IobCobOrefWorker.kt:199-223 | The absorption step computes `Absorb`. |
| IobCobOref.AbsorbFacts | workflow/src/main/kotlin/app/aaps/workflow/iob/IobCobOrefWorker.kt:200-222 | COB after absorption is never negative. The fail-over flag is set exactly when absorbing and the minimum impact exceeds the deviation. |
| IobCobOref.CommitFacts | workflow/src/main/kotlin/app/aaps/workflow/iob/IobCobOrefWorker.kt:257-264 | Storing a record keeps the table ordered, with each record under its own time. Only the record's own time changes, and only when that time is before now. The stored record is the one carrying the detector's result. |
| IobCobOref.Round3Error | workflow/src/main/kotlin/app/aaps/workflow/iob/IobCobOrefWorker.kt:133 | Rounding to three decimals (halves up) moves a value by more than −0.0005 and at most +0.0005. |
| SparseTable.FindMeaning | workflow/src/main/kotlin/app/aaps/workflow/iob/IobCobOrefWorker.kt:104 | `get(key)` answers the value of the entry with that key, and nothing exactly when no entry has it. |
| SparseTable.IndexOfKeyMeaning | workflow/src/main/kotlin/app/aaps/workflow/iob/IobCobOrefWorker.kt:144 | A non-negative `indexOfKey` is the key's position. A negative one means the key is absent. |
| SparseTable.PutSemantics | workflow/src/main/kotlin/app/aaps/workflow/iob/IobCobOrefWorker.kt:258 | `put` keeps the keys increasing and stores the value under the key. Every other key is left as it was, and no other entry appears. |
| SparseTable.InsertionPointSplits | workflow/src/main/kotlin/app/aaps/workflow/iob/IobCobOrefWorker.kt:144 | The search position splits the keys: smaller keys come before it, the others from it on. |
| DataSync.DataSyncSelector.DoUpload | plugins/sync/src/main/kotlin/app/aaps/plugins/sync/nsclientV3/DataSyncSelectorV3.kt:80-115 | Without upload, or while paused, nothing changes. Otherwise the requests are the thirteen runs in order, and each collection's cursor ends where its own run ends. Each counter ends at last id − cursor, and the profile cursor follows the profile-store rule. |
| DataSync.DataSyncSelector.ProcessAll | plugins/sync/src/main/kotlin/app/aaps/plugins/sync/nsclientV3/DataSyncSelectorV3.kt:97-109 | The thirteen `processChanged*` calls give the runs' requests one after another. Every collection ends at its run's cursor, and the profile-store cursor is untouched. |
| DataSync.DataSyncSelector.ProcessChanged | plugins/sync/src/main/kotlin/app/aaps/plugins/sync/nsclientV3/DataSyncSelectorV3.kt:145-178 | When paused nothing changes. Otherwise the cursor and requests are those of the run from the stored cursor, no other cursor or counter moves, and the counter is last id − cursor. |
| DataSync.DataSyncSelector.SyncNext | plugins/sync/src/main/kotlin/app/aaps/plugins/sync/nsclientV3/DataSyncSelectorV3.kt:149-176 | One loop turn: the cursor is reset when it is past the last id, the counter is set, and the next change is handled as `NextStep` says. |
| DataSync.DataSyncSelector.Turn | plugins/sync/src/main/kotlin/app/aaps/plugins/sync/nsclientV3/DataSyncSelectorV3.kt:149-176 | Seen from the whole run, one loop turn splits the run from the old cursor into this turn's request and the run from the new cursor. A turn that goes on brings the cursor strictly closer to the last id, and a turn that stops leaves the counter at last id − cursor. |
| DataSync.TurnAdvancesRun | plugins/sync/src/main/kotlin/app/aaps/plugins/sync/nsclientV3/DataSyncSelectorV3.kt:149-176 | If the cursor moved as `NextStep` says, the run from the old cursor is that step followed by the run from the new one. Otherwise the run ends right there. |
| DataSync.NextStep | plugins/sync/src/main/kotlin/app/aaps/plugins/sync/nsclientV3/DataSyncSelectorV3.kt:158-176 | The loop goes on only past a pending change, to that change's id, and otherwise the cursor stays. A request is made exactly when the next change uploads and a client exists. |
| DataSync.RunStep | plugins/sync/src/main/kotlin/app/aaps/plugins/sync/nsclientV3/DataSyncSelectorV3.kt:145-178 | A run is one step followed by the run from the step's cursor. A continuing step moves the cursor forward, but not past the last id. |
| DataSync.RunCursorBounds | plugins/sync/src/main/kotlin/app/aaps/plugins/sync/nsclientV3/DataSyncSelectorV3.kt:145-178 | The cursor never moves back and never passes the table's last id. It ends where it started or at a pending change. |
| DataSync.RunCallsAreUploads | plugins/sync/src/main/kotlin/app/aaps/plugins/sync/nsclientV3/DataSyncSelectorV3.kt:159-172 | Only changes classified add or update reach the client. Each goes to its collection's endpoint, as add or update according to its classification, and no request is made without a client. |
| DataSync.RunCompletes | plugins/sync/src/main/kotlin/app/aaps/plugins/sync/nsclientV3/DataSyncSelectorV3.kt:363-398 | When every upload is accepted, the run reaches the last pending change. With BG upload off, glucose values are walked without a single request. |
| DataSync.RefusalStopsRun | plugins/sync/src/main/kotlin/app/aaps/plugins/sync/nsclientV3/DataSyncSelectorV3.kt:168-173 | A refused upload, or a missing client, stops the run with the cursor before the refused change. |
| DataSync.Classify | plugins/sync/src/main/kotlin/app/aaps/plugins/sync/nsclientV3/DataSyncSelectorV3.kt:159-172 | The four cases exactly, as iffs. A record loaded from Nightscout is ignored, as is a change that only added the Nightscout id. Without a Nightscout id the change is an add, otherwise an update. |
| DataSync.Decide | plugins/sync/src/main/kotlin/app/aaps/plugins/sync/nsclientV3/DataSyncSelectorV3.kt:377 | Glucose values need BG upload and extended boluses need a profile. Device statuses are always added. Every other upload follows `Classify`. |
| DataSync.EffectiveStart | plugins/sync/src/main/kotlin/app/aaps/plugins/sync/nsclientV3/DataSyncSelectorV3.kt:151-155 | A cursor beyond the last id restarts at 0. Any other cursor is kept. |
| DataSync.PendingIsSuffix | plugins/sync/src/main/kotlin/app/aaps/plugins/sync/nsclientV3/DataSyncSelectorV3.kt:158 | The changes after the cursor form a suffix of the log. |
| DataSync.PendingAreNewer | plugins/sync/src/main/kotlin/app/aaps/plugins/sync/nsclientV3/DataSyncSelectorV3.kt:158 | Every pending change is newer than the cursor. |
| DataSync.SkippedAreOlder | plugins/sync/src/main/kotlin/app/aaps/plugins/sync/nsclientV3/DataSyncSelectorV3.kt:158 | Every change not pending is at or below the cursor. |
| DataSync.PendingAfterHead | plugins/sync/src/main/kotlin/app/aaps/plugins/sync/nsclientV3/DataSyncSelectorV3.kt:158-173 | After confirming the first pending change, the pending changes are the rest. |
| DataSync.OtherCollectionsUnaffected | plugins/sync/src/main/kotlin/app/aaps/plugins/sync/nsclientV3/DataSyncSelectorV3.kt:97-109 | Processing one collection leaves the cursors and counters of the others, and the profile-store cursor, alone. |
| DataSync.TotalAfterSet | plugins/sync/src/main/kotlin/app/aaps/plugins/sync/nsclientV3/DataSyncSelectorV3.kt:56-69 | Setting one counter moves `size()` by exactly the difference. |
| DataSync.TotalOfUnset | plugins/sync/src/main/kotlin/app/aaps/plugins/sync/nsclientV3/DataSyncSelectorV3.kt:40-69 | With all counters at their initial −1, `size()` is minus the number of counters. |
| DataSync.QueueCounter.constructor | plugins/sync/src/main/kotlin/app/aaps/plugins/sync/nsclientV3/DataSyncSelectorV3.kt:40-70 | A fresh counter has size −13. |
| DataSync.DataSyncSelector.ConfirmLastIdIfGreater | plugins/sync/src/main/kotlin/app/aaps/plugins/sync/nsclientV3/DataSyncSelectorV3.kt:138-142 | The cursor becomes the maximum of old and new, and nothing else changes. |
| DataSync.DataSyncSelector.ResetToNextFullSync | plugins/sync/src/main/kotlin/app/aaps/plugins/sync/nsclientV3/DataSyncSelectorV3.kt:117-135 | Every cursor is removed. The exception is the device-status cursor, which is set to the last device-status id when there is one. |
| DataSync.DataSyncSelector.ProfileReceived | plugins/sync/src/main/kotlin/app/aaps/plugins/sync/nsclientV3/DataSyncSelectorV3.kt:686-693 | The profile-store cursor is set to the timestamp outright, even backwards. |
| DataSync.DataSyncSelector.ProcessChangedProfileStore | plugins/sync/src/main/kotlin/app/aaps/plugins/sync/nsclientV3/DataSyncSelectorV3.kt:695-711 | An upload happens only when not paused, a local change exists, it is newer than the last sync, all profiles are valid and data exists. The cursor becomes `now` exactly when the client accepts. |
| DataSync.Position | plugins/sync/src/main/kotlin/app/aaps/plugins/sync/nsclientV3/DataSyncSelectorV3.kt:97-109 | Every collection is processed by `doUpload`. |
| DataSync.CollectionsListedOnce | plugins/sync/src/main/kotlin/app/aaps/plugins/sync/nsclientV3/DataSyncSelectorV3.kt:97-109 | No collection is processed twice. |
| TreatmentMapper.ToTreatment | core/nssdk/src/main/kotlin/app/aaps/core/nssdk/mapper/TreatmentMapper.kt:33-385 | Positive insulin makes a bolus. Otherwise nonzero carbs make carbs. Every other result is dated by its timestamp. |
| TreatmentMapper.DecodeHeader | core/nssdk/src/main/kotlin/app/aaps/core/nssdk/mapper/TreatmentMapper.kt:42-48 | A record is valid unless it says it is not, read-only only when it says so, and its offset defaults to 0. |
| TreatmentMapper.DurationMillis | core/nssdk/src/main/kotlin/app/aaps/core/nssdk/mapper/TreatmentMapper.kt:60 | The millisecond duration wins over minutes × 60000, and it is absent only when both are. |
| TreatmentMapper.MillisToMinutes | core/nssdk/src/main/kotlin/app/aaps/core/nssdk/mapper/TreatmentMapper.kt:425 | Milliseconds become minutes truncated toward zero. |
| TreatmentMapper.MissingDurationDefaults | core/nssdk/src/main/kotlin/app/aaps/core/nssdk/mapper/TreatmentMapper.kt:60-330 | With no duration, carbs, therapy and offline events get 0. Targets and basals give no treatment. |
| TreatmentMapper.DurationPrefersMilliseconds | core/nssdk/src/main/kotlin/app/aaps/core/nssdk/mapper/TreatmentMapper.kt:59-60 | A carbs duration is the millisecond field when present, else minutes × 60000. |
| TreatmentMapper.TemporaryTargetDecoding | core/nssdk/src/main/kotlin/app/aaps/core/nssdk/mapper/TreatmentMapper.kt:83-139 | A temporary target with no date, no duration or a missing bound decodes to null. A zero duration decodes to a cancel. |
| TreatmentMapper.TemporaryBasalDecoding | core/nssdk/src/main/kotlin/app/aaps/core/nssdk/mapper/TreatmentMapper.kt:166-196 | A temporary basal decodes exactly when it has a date, a rate field and a nonzero duration. The rate is the absolute value, else percent + 100. |
| TreatmentMapper.EmulatedExtendedBolusDecoding | core/nssdk/src/main/kotlin/app/aaps/core/nssdk/mapper/TreatmentMapper.kt:140-165 | A basal carrying an emulated extended bolus becomes that extended bolus, typed COMBO_BOLUS. |
| TreatmentMapper.NoteWithProfileIsNotTherapy | core/nssdk/src/main/kotlin/app/aaps/core/nssdk/mapper/TreatmentMapper.kt:197-232 | A NOTE naming an original profile is an effective profile switch or null, never a therapy event. |
| TreatmentMapper.ZeroTimestampIsRejected | core/nssdk/src/main/kotlin/app/aaps/core/nssdk/mapper/TreatmentMapper.kt:84-355 | Every branch after carbs, except the emulated extended bolus, rejects a record without a date. |
| TreatmentMapper.UnhandledEventIsNull | core/nssdk/src/main/kotlin/app/aaps/core/nssdk/mapper/TreatmentMapper.kt:384 | With no insulin and no carbs, an unhandled event type decodes to null. |
| TreatmentMapper.ToRemoteTreatment | core/nssdk/src/main/kotlin/app/aaps/core/nssdk/mapper/TreatmentMapper.kt:387-627 | Only an unknown subtype has no remote form. Every remote form keeps the date and the event type. |
| TreatmentMapper.EncodeHeader | core/nssdk/src/main/kotlin/app/aaps/core/nssdk/mapper/TreatmentMapper.kt:389-440 | Date and event type are written. The server times are written only where the branch writes them (not for bolus or carbs). |
| TreatmentMapper.EncodeExtendedBolus | core/nssdk/src/main/kotlin/app/aaps/core/nssdk/mapper/TreatmentMapper.kt:599-625 | The rate is written as `relative` with a 0/100 split, and the duration in milliseconds. |
| TreatmentMapper.BolusRoundTrip | core/nssdk/src/main/kotlin/app/aaps/core/nssdk/mapper/TreatmentMapper.kt:27-28 | A bolus with positive insulin (the only kind the decoder turns into a bolus) comes back unchanged, except that the server times are lost. |
| TreatmentMapper.CarbsRoundTrip | core/nssdk/src/main/kotlin/app/aaps/core/nssdk/mapper/TreatmentMapper.kt:27-28 | A nonzero carbs amount comes back with a duration (0 when there was none), and the server times are lost. |
| TreatmentMapper.TemporaryTargetRoundTrip | core/nssdk/src/main/kotlin/app/aaps/core/nssdk/mapper/TreatmentMapper.kt:27-28 | A dated target with a nonzero duration comes back unchanged. A zero duration comes back as a cancel. |
| TreatmentMapper.TemporaryBasalRoundTrip | core/nssdk/src/main/kotlin/app/aaps/core/nssdk/mapper/TreatmentMapper.kt:27-28 | A dated temporary basal with a nonzero duration comes back only through its absolute or percent field. |
| TreatmentMapper.DecodedTemporaryBasalDoesNotRoundTrip | core/nssdk/src/main/kotlin/app/aaps/core/nssdk/mapper/TreatmentMapper.kt:166-196 | What the decoder builds for a temporary basal never survives a round trip. |
| TreatmentMapper.EmulatingBasalRoundTrip | core/nssdk/src/main/kotlin/app/aaps/core/nssdk/mapper/TreatmentMapper.kt:140-165 | An emulating basal comes back as its extended bolus, dated and identified by the basal. |
| TreatmentMapper.ExtendedBolusRoundTrip | core/nssdk/src/main/kotlin/app/aaps/core/nssdk/mapper/TreatmentMapper.kt:599-625 | A dated extended bolus typed COMBO_BOLUS comes back without its rate. |
| TreatmentMapper.EventRoundTrip | core/nssdk/src/main/kotlin/app/aaps/core/nssdk/mapper/TreatmentMapper.kt:27-28 | Dated therapy events, offline events, bolus wizards and effective profile switches, each with its subtype's own event type, come back unchanged. A date of 0 is rejected by the decoder. |
| TreatmentMapper.ProfileSwitchRoundTrip | core/nssdk/src/main/kotlin/app/aaps/core/nssdk/mapper/TreatmentMapper.kt:233-264 | A dated profile switch with a payload comes back, with duration 0 when there was none. |
| TreatmentMapper.UnknownSubtypeIsNull | core/nssdk/src/main/kotlin/app/aaps/core/nssdk/mapper/TreatmentMapper.kt:626 | An unknown subtype has no remote form and no round trip. |
| Constraints.IfSmaller | plugins/constraints/src/test/kotlin/app/aaps/plugins/constraints/safety/SafetyPluginTest.kt:144-158 | The value becomes the minimum. A bound below the current value becomes the sole most-limiting reason, and a bound below the original value is logged. |
| Constraints.IfGreater | plugins/constraints/src/test/kotlin/app/aaps/plugins/constraints/safety/SafetyPluginTest.kt:161-169 | The mirror image, for lower bounds. |
| Constraints.IfDifferent | plugins/constraints/src/test/kotlin/app/aaps/plugins/constraints/safety/SafetyPluginTest.kt:216-229 | A different value is taken, logged, and appended to the most-limiting reasons. |
| Constraints.NarrowAllUnfolds | plugins/constraints/src/test/kotlin/app/aaps/plugins/constraints/safety/SafetyPluginTest.kt:195-213 | A chain of bounds is the nested application of `setIfSmaller`. |
| Constraints.NarrowAllValueAndLog | plugins/constraints/src/test/kotlin/app/aaps/plugins/constraints/safety/SafetyPluginTest.kt:195-213 | After a chain, the value is the tightest of the start value and every bound. The log gains exactly the bounds below the original value, in order, looser ones included. |
| Constraints.NarrowAllMostLimiting | plugins/constraints/src/test/kotlin/app/aaps/plugins/constraints/safety/SafetyPluginTest.kt:232-244 | The most-limiting reason is that of the first bound reaching the final value, or unchanged if nothing lowered the value. |
| Constraints.Constraint.SetIfSmaller | plugins/constraints/src/test/kotlin/app/aaps/plugins/constraints/safety/SafetyPluginTest.kt:144-158 | Updates the constraint in place as `IfSmaller`. |
| Constraints.Constraint.SetIfGreater | plugins/constraints/src/test/kotlin/app/aaps/plugins/constraints/safety/SafetyPluginTest.kt:161-169 | Updates the constraint in place as `IfGreater`. |
| Constraints.Constraint.SetIfDifferent | plugins/constraints/src/test/kotlin/app/aaps/plugins/constraints/safety/SafetyPluginTest.kt:216-229 | Updates the constraint in place as `IfDifferent`. |
| Constraints.Constraint.AddReason | plugins/constraints/src/test/kotlin/app/aaps/plugins/constraints/safety/SafetyPluginTest.kt:172-192 | Logs without touching the value or the most-limiting reasons. |
| Constraints.Constraint.CopyReasons | plugins/constraints/src/test/kotlin/app/aaps/plugins/constraints/safety/SafetyPluginTest.kt:172-192 | Appends the other constraint's log. |
| Constraints.DoubleToInt | plugins/constraints/src/test/kotlin/app/aaps/plugins/constraints/safety/SafetyPluginTest.kt:172-192 | Truncation toward zero: the integer at or below a non-negative value, and at or above a negative one. Values above Int.MAX_VALUE give Int.MAX_VALUE, and values below Int.MIN_VALUE give Int.MIN_VALUE. |
| Constraints.SafetyBasalPercentBounds | plugins/constraints/src/test/kotlin/app/aaps/plugins/constraints/safety/SafetyPluginTest.kt:172-229 | The percent result never exceeds the pump maximum. It equals the smaller of the pump maximum and the truncated percent of the safety-limited absolute rate. The log gains, in order: the recalculation note, the absolute limiter's reasons, the percent entry when the percent changed, and the pump entry when the pump maximum is below the requested percent. The most-limiting reason is the pump entry when the pump maximum applied. Otherwise the percent entry is appended when the percent changed. |
| Constraints.SafetyApplyBasalConstraints | plugins/constraints/src/test/kotlin/app/aaps/plugins/constraints/safety/SafetyPluginTest.kt:144-169 | The basal ends between 0 and the hard maximum. |
| Constraints.SafetyApplyBasalPercentConstraints | plugins/constraints/src/test/kotlin/app/aaps/plugins/constraints/safety/SafetyPluginTest.kt:172-229 | Note the recalculation, limit the equivalent rate, copy its log, take the truncated percent, then apply the pump's percent cap. |
| Constraints.SafetyApplyBolusConstraints | plugins/constraints/src/test/kotlin/app/aaps/plugins/constraints/safety/SafetyPluginTest.kt:232-254 | The bolus ends between 0 and the smaller of the preference and the hard limit, and the same object is returned. |
| Constraints.SafetyApplyCarbsConstraints | plugins/constraints/src/test/kotlin/app/aaps/plugins/constraints/safety/SafetyPluginTest.kt:257-265 | Carbs end between 0 and the max-carbs preference. |
| Constraints.SafetyApplyMaxIOBConstraints | plugins/constraints/src/test/kotlin/app/aaps/plugins/constraints/safety/SafetyPluginTest.kt:268-283 | In LGS mode the IOB is capped at MAX_IOB_LGS. |
| Constraints.ApsApplyMaxIOBConstraints | plugins/constraints/src/test/kotlin/app/aaps/plugins/constraints/safety/SafetyPluginTest.kt:285-297 | When enabled, the IOB is capped by the preference and then the hard limit. The same object is returned. |
| Constraints.SmbApplyBasalConstraints | plugins/constraints/src/test/kotlin/app/aaps/plugins/constraints/safety/SafetyPluginTest.kt:195-213 | The cap is the preference, then the multiples of the current basal and of the day's maximum basal. |
| Constraints.DanaRSApplyBasalConstraints | pump/danars/src/test/kotlin/app/aaps/pump/danars/DanaRSPluginTest.kt:33-43 | The basal is capped by the pump's maximum. |
| Constraints.DanaRSApplyBasalPercentConstraints | pump/danars/src/test/kotlin/app/aaps/pump/danars/DanaRSPluginTest.kt:45-55 | The percent is capped by the pump's maximum. |
| Constraints.BasalRateShouldBeLimited | plugins/constraints/src/test/kotlin/app/aaps/plugins/constraints/safety/SafetyPluginTest.kt:144-158 | Double.MAX for a child ends at 2.0, with one reason that is also the most-limiting one. |
| Constraints.DoNotAllowNegativeBasalRate | plugins/constraints/src/test/kotlin/app/aaps/plugins/constraints/safety/SafetyPluginTest.kt:161-169 | −0.5 ends at 0, with the single must-be-positive reason. |
| Constraints.PercentBasalRateShouldBeLimited | plugins/constraints/src/test/kotlin/app/aaps/plugins/constraints/safety/SafetyPluginTest.kt:172-192 | Int.MAX percent ends at 200, with four log entries in order. The most-limiting reason is the pump-limit entry. |
| Constraints.PercentBasalShouldBeLimitedBySMB | plugins/constraints/src/test/kotlin/app/aaps/plugins/constraints/safety/SafetyPluginTest.kt:195-213 | The value ends at 1.0. The looser 4.0 and 3.0 bounds are still logged, and the tightest is the most limiting. |
| Constraints.DoNotAllowNegativePercentBasalRate | plugins/constraints/src/test/kotlin/app/aaps/plugins/constraints/safety/SafetyPluginTest.kt:216-229 | −22 % ends at 0. The most-limiting reason is the percent pump-limit entry. |
| Constraints.BolusAmountShouldBeLimited | plugins/constraints/src/test/kotlin/app/aaps/plugins/constraints/safety/SafetyPluginTest.kt:232-244 | The bolus ends at 3.0, and the looser 5.0 hard limit is still logged. |
| Constraints.DoNotAllowNegativeBolusAmount | plugins/constraints/src/test/kotlin/app/aaps/plugins/constraints/safety/SafetyPluginTest.kt:247-254 | −22 ends at 0, with the single must-be-positive reason. |
| Constraints.CarbsAmountShouldBeLimited | plugins/constraints/src/test/kotlin/app/aaps/plugins/constraints/safety/SafetyPluginTest.kt:257-265 | Int.MAX carbs end at 48, with one reason. |
| Constraints.IobShouldBeLimited | plugins/constraints/src/test/kotlin/app/aaps/plugins/constraints/safety/SafetyPluginTest.kt:268-297 | LGS gives MAX_IOB_LGS with one reason. AMA and SMB still give 1.5 and 3.0, and return the very object they were given. |
| Constraints.DanaRSBasalRateShouldBeLimited | pump/danars/src/test/kotlin/app/aaps/pump/danars/DanaRSPluginTest.kt:33-43 | The DanaRS plugin, enabled twice, caps Double.MAX at 0.8 with one reason. |
| Constraints.DanaRSPercentBasalRateShouldBeLimited | pump/danars/src/test/kotlin/app/aaps/pump/danars/DanaRSPluginTest.kt:45-55 | The DanaRS plugin caps Int.MAX percent at 200 with one reason. |
| OfflineEvents.OfflineEventStore.InsertAndCancelCurrent | database/impl/src/main/kotlin/app/aaps/database/transactions/InsertAndCancelCurrentOfflineEventTransaction.kt:10-21 | The event active at the new timestamp, if any, is ended there and reported as updated. When several are active, it is the one that started last, and the first such on a tie. The new event is appended and reported as inserted. Nothing else changes. |
| OfflineEvents.OfflineEventStore.ActiveAtLegacy | database/impl/src/main/kotlin/app/aaps/database/transactions/InsertAndCancelCurrentOfflineEventTransaction.kt:12 | Finds an event active at t exactly when one exists, namely the one that started last. |
| OfflineEvents.WithEnd | database/impl/src/main/kotlin/app/aaps/database/transactions/InsertAndCancelCurrentOfflineEventTransaction.kt:14 | Setting the end moves only the end. |
| OfflineEvents.CancelledEndsAtNewStart | database/impl/src/main/kotlin/app/aaps/database/transactions/InsertAndCancelCurrentOfflineEventTransaction.kt:12-15 | The cancelled event is no longer active at the new start, and it stays active before it. |
| PluginBase.IsEnabledFor | core/interfaces/src/main/kotlin/app/aaps/core/interfaces/plugin/PluginBase.kt:57-63 | The main type is enabled when always enabled, or ENABLED with the special condition. CONSTRAINTS follows the main type for pumps and APS. |
| PluginBase.NextState | core/interfaces/src/main/kotlin/app/aaps/core/interfaces/plugin/PluginBase.kt:75-93 | Only the main type has an effect: enabling gives ENABLED, and disabling turns ENABLED into DISABLED. |
| PluginBase.FragmentVisibleFor | core/interfaces/src/main/kotlin/app/aaps/core/interfaces/plugin/PluginBase.kt:101-104 | Always-visible wins over never-visible, which wins over the stored flag. |
| PluginBase.Plugin.SetPluginEnabled | core/interfaces/src/main/kotlin/app/aaps/core/interfaces/plugin/PluginBase.kt:75-93 | The state follows `NextState`. Start and stop hooks fire exactly on the transitions. |
| PluginBase.Plugin.SetFragmentVisible | core/interfaces/src/main/kotlin/app/aaps/core/interfaces/plugin/PluginBase.kt:95-99 | For the main type only, stores visible ∧ the special condition. |
| PluginBase.Plugin.ShowInList | core/interfaces/src/main/kotlin/app/aaps/core/interfaces/plugin/PluginBase.kt:106-109 | A plugin is listed only under its main type, and then as its two conditions say. |
| PluginBase.FreshPluginNotEnabled | core/interfaces/src/main/kotlin/app/aaps/core/interfaces/plugin/PluginBase.kt:26-60 | A fresh plugin is enabled only if always enabled or a constraint plugin. |
| PluginBase.SetEnabledIdempotent | core/interfaces/src/main/kotlin/app/aaps/core/interfaces/plugin/PluginBase.kt:75-93 | Enabling or disabling twice is the same as once. |
| PluginBase.EnabledPluginQueries | core/interfaces/src/main/kotlin/app/aaps/core/interfaces/plugin/PluginBase.kt:57-63 | An ENABLED plugin is enabled in its type, and in CONSTRAINTS exactly when it is a pump, APS or constraint plugin. |
| ConfigBuilder.AreMultipleSelectionsAllowed | plugins/configuration/src/main/kotlin/app/aaps/plugins/configuration/configBuilder/ConfigBuilderPlugin.kt:362-364 | Exactly GENERAL, CONSTRAINTS, LOOP and SYNC allow several plugins. |
| ConfigBuilder.ExclusiveCategoriesHaveList | plugins/configuration/src/main/kotlin/app/aaps/plugins/configuration/configBuilder/ConfigBuilderPlugin.kt:216-229 | Exactly the exclusive categories have a category list (the NsClient rule aside). |
| ConfigBuilder.PluginsImplementing | plugins/configuration/src/main/kotlin/app/aaps/plugins/configuration/configBuilder/ConfigBuilderPlugin.kt:217-225 | The list holds exactly the registered plugins implementing the interface. |
| ConfigBuilder.EnabledKeyInjective | plugins/configuration/src/main/kotlin/app/aaps/plugins/configuration/configBuilder/ConfigBuilderPlugin.kt:107 | Two plugins share an enabled key only with the same type and class name. |
| ConfigBuilder.KeyInjective | plugins/configuration/src/main/kotlin/app/aaps/plugins/configuration/configBuilder/ConfigBuilderPlugin.kt:107-110 | A key built from a prefix, an underscore-free type name, "_", a class name and a suffix determines both names. |
| ConfigBuilder.EnabledKeyInjectiveVisible | plugins/configuration/src/main/kotlin/app/aaps/plugins/configuration/configBuilder/ConfigBuilderPlugin.kt:110 | The same holds for visible keys. |
| ConfigBuilder.EnabledKeyNotVisibleKey | plugins/configuration/src/main/kotlin/app/aaps/plugins/configuration/configBuilder/ConfigBuilderPlugin.kt:107-110 | An enabled key is never a visible key. |
| ConfigBuilder.StoredFlags | plugins/configuration/src/main/kotlin/app/aaps/plugins/configuration/configBuilder/ConfigBuilderPlugin.kt:94-113 | After storing, a stored plugin's keys hold its current flags, unless a later plugin with the same keys overwrote them. |
| ConfigBuilder.StoredLeavesOtherKeys | plugins/configuration/src/main/kotlin/app/aaps/plugins/configuration/configBuilder/ConfigBuilderPlugin.kt:94-113 | A key of no stored plugin keeps its value. |
| ConfigBuilder.LoadAfterStore | plugins/configuration/src/main/kotlin/app/aaps/plugins/configuration/configBuilder/ConfigBuilderPlugin.kt:106-137 | Storing and loading into a fresh plugin restores whether it is enabled. It also restores its visibility when that was set while enabled. |
| ConfigBuilder.ConfigBuilderPlugin.StoreSettings | plugins/configuration/src/main/kotlin/app/aaps/plugins/configuration/configBuilder/ConfigBuilderPlugin.kt:94-104 | Runs `savePref` in registry order, skipping always-enabled plugins that are always or never visible. |
| ConfigBuilder.ConfigBuilderPlugin.LoadPref | plugins/configuration/src/main/kotlin/app/aaps/plugins/configuration/configBuilder/ConfigBuilderPlugin.kt:124-137 | Stored flags win and the defaults apply otherwise. A stored visibility counts only together with a stored enabled flag. |
| ConfigBuilder.ConfigBuilderPlugin.ProcessOnEnabledCategoryChanged | plugins/configuration/src/main/kotlin/app/aaps/plugins/configuration/configBuilder/ConfigBuilderPlugin.kt:214-247 | Enabling a plugin disables and hides every other plugin of its category, compared by name. Disabling one enables the first of the category (except in SYNC). An empty list fails on the index. |
| ConfigBuilder.ConfigBuilderPlugin.DisableOthers | plugins/configuration/src/main/kotlin/app/aaps/plugins/configuration/configBuilder/ConfigBuilderPlugin.kt:231-239 | Every plugin of the list whose name differs from the enabled one is disabled and hidden for the type. The enabled plugin, and plugins outside the list, are untouched. |
| ConfigBuilder.ConfigBuilderPlugin.PerformPluginSwitch | plugins/configuration/src/main/kotlin/app/aaps/plugins/configuration/configBuilder/ConfigBuilderPlugin.kt:192-212 | The changed plugin takes the requested enabled and visible flags. Then exclusivity is enforced for every registered plugin, judged by whether the changed plugin is now enabled. If it is, the other plugins of its category are disabled and hidden. If it is not (outside SYNC), the first plugin of the category is re-enabled, which can be the changed plugin itself. An empty category list fails on the index. The settings are stored only when that step succeeds. |
| QuickWizard.Put | core/objects/src/main/kotlin/app/aaps/core/objects/wizard/QuickWizard.kt:102 | `put(index)` overwrites the slot, or pads with nulls and appends. All other slots stay. |
| QuickWizard.RemoveAt | core/objects/src/main/kotlin/app/aaps/core/objects/wizard/QuickWizard.kt:107 | A valid index removes one element. An invalid one changes nothing. |
| QuickWizard.InsertAtShifts | core/objects/src/main/kotlin/app/aaps/core/objects/wizard/QuickWizard.kt:87-92 | Insertion keeps the prefix and places the item. The rest shifts right by one, and the result is a permutation plus the new item. |
| QuickWizard.MovePermutes | core/objects/src/main/kotlin/app/aaps/core/objects/wizard/QuickWizard.kt:72-78 | A move is a permutation that puts the moved item at `to`. |
| QuickWizard.UpdateOverwritesOnlyItsSlot | core/objects/src/main/kotlin/app/aaps/core/objects/wizard/QuickWizard.kt:98-104 | Updating an existing position overwrites that slot only. |
| QuickWizard.ShiftFailure | core/objects/src/main/kotlin/app/aaps/core/objects/wizard/QuickWizard.kt:87-89 | The shift succeeds exactly when the position is non-negative and every slot from it on is an object. Otherwise it fails at the last null slot at or after the position, or at −1. |
| QuickWizard.MoveAcrossNullSlot | core/objects/src/main/kotlin/app/aaps/core/objects/wizard/QuickWizard.kt:72-77 | Moving the last button of `[a, null, b]` to the front throws at the null slot and loses `b`. |
| QuickWizard.ShiftedKeepsSlots | core/objects/src/main/kotlin/app/aaps/core/objects/wizard/QuickWizard.kt:88-90 | A partial shift only duplicates slots: the result holds exactly the slots of the original array. |
| QuickWizard.QuickWizard.AddToPos | core/objects/src/main/kotlin/app/aaps/core/objects/wizard/QuickWizard.kt:87-92 | The call succeeds exactly when the position is non-negative and no null slot lies at or after it. Then the item is inserted at a position in range, or the array is padded past its end. Otherwise the call throws at the last null slot at or after the position, or at index −1 for a negative position. The array is left shifted up to that point. |
| QuickWizard.QuickWizard.RemovePos | core/objects/src/main/kotlin/app/aaps/core/objects/wizard/QuickWizard.kt:80-85 | Despite its name, it inserts exactly as `addToPos` does, with the same success condition, result and partly shifted array on a throw. |
| QuickWizard.QuickWizard.Move | core/objects/src/main/kotlin/app/aaps/core/objects/wizard/QuickWizard.kt:72-78 | A null or out-of-range source throws with nothing changed. Otherwise the element is removed and inserted at `to` as `addToPos` does, for any `to`. On success the list is saved. On a throw it is left removed and partly shifted, and unsaved. With no null slot and both positions in range, the result is the permutation `Moved`. |
| QuickWizard.QuickWizard.AddOrUpdate | core/objects/src/main/kotlin/app/aaps/core/objects/wizard/QuickWizard.kt:98-104 | Position −1 appends, and any other valid position is overwritten. Then the list is saved. |
| QuickWizard.QuickWizard.Remove | core/objects/src/main/kotlin/app/aaps/core/objects/wizard/QuickWizard.kt:106-109 | Drops the element, then saves. |
| QuickWizard.QuickWizard.GetActive | core/objects/src/main/kotlin/app/aaps/core/objects/wizard/QuickWizard.kt:36-42 | Returns the first active entry, null if none is active, or a throw at a null slot before it. |
| QuickWizard.QuickWizard.GetByGuid | core/objects/src/main/kotlin/app/aaps/core/objects/wizard/QuickWizard.kt:62-70 | Returns the first entry with that guid. |
| QuickWizard.QuickWizard.FirstWhere | core/objects/src/main/kotlin/app/aaps/core/objects/wizard/QuickWizard.kt:36-70 | A first-match scan that reads slots as objects. |
| QuickWizard.QuickWizard.Get | core/objects/src/main/kotlin/app/aaps/core/objects/wizard/QuickWizard.kt:54-55 | Returns the entry at a position. An out-of-range position or a null slot throws. |
| QuickWizard.QuickWizard.List | core/objects/src/main/kotlin/app/aaps/core/objects/wizard/QuickWizard.kt:57-60 | Lists every entry with its position. A null slot throws. |
| QuickWizard.QuickWizard.Size | core/objects/src/main/kotlin/app/aaps/core/objects/wizard/QuickWizard.kt:52 | The length of the array. |
| QuickWizard.QuickWizard.SetData | core/objects/src/main/kotlin/app/aaps/core/objects/wizard/QuickWizard.kt:44-46 | Replaces the array without saving it. |
| QuickWizard.QuickWizard.Save | core/objects/src/main/kotlin/app/aaps/core/objects/wizard/QuickWizard.kt:48-50 | Persists the current array. |
| QuickWizard.QuickWizard.SetGuidsForOldEntries | core/objects/src/main/kotlin/app/aaps/core/objects/wizard/QuickWizard.kt:25-34 | Every entry without a guid gets one, and entries with one keep it. A null slot throws. |
| AutotuneAction.ActionRunAutotune.ToJSON | plugins/automation/src/main/kotlin/app/aaps/plugins/automation/actions/ActionRunAutotune.kt:78-89 | Writes the type and the data object. |
| AutotuneAction.DataObjectContents | plugins/automation/src/main/kotlin/app/aaps/plugins/automation/actions/ActionRunAutotune.kt:79-84 | The data object holds the profile, the day count and the seven day flags under their names, and nothing else. |
| AutotuneAction.ActionRunAutotune.FromJSON | plugins/automation/src/main/kotlin/app/aaps/plugins/automation/actions/ActionRunAutotune.kt:91-101 | Days default to true, the name to "", and a day count of 0 or a missing one to the preference. |
| AutotuneAction.RoundTrip | plugins/automation/src/main/kotlin/app/aaps/plugins/automation/actions/ActionRunAutotune.kt:78-101 | Reading back restores the name and the days. The day count comes back unless it was 0. |
| AutotuneAction.EmptyObjectDefaults | plugins/automation/src/main/kotlin/app/aaps/plugins/automation/actions/ActionRunAutotune.kt:91-99 | An empty object decodes to all days, no name and the preferred day count. |
| AutotuneAction.PutDaysLookup | plugins/automation/src/main/kotlin/app/aaps/plugins/automation/actions/ActionRunAutotune.kt:82-84 | Each day's flag is stored under its name, and other keys are kept. |
| AutotuneAction.DecodedWeekdays | plugins/automation/src/main/kotlin/app/aaps/plugins/automation/actions/ActionRunAutotune.kt:93-94 | The decoded filter holds seven flags. |
| AutotuneAction.DayNamesDistinct | plugins/automation/src/main/kotlin/app/aaps/plugins/automation/actions/ActionRunAutotune.kt:83 | The seven day names differ. |
| AutotuneAction.DayNamesAreNotSettingKeys | plugins/automation/src/main/kotlin/app/aaps/plugins/automation/actions/ActionRunAutotune.kt:79-83 | No day name collides with "profileToTune" or "tunedays". |
| AutotuneAction.ProfileToTune | plugins/automation/src/main/kotlin/app/aaps/plugins/automation/actions/ActionRunAutotune.kt:45 | The active-profile label becomes "", and any other name is kept. |
| AutotuneAction.ActionRunAutotune.DoAction | plugins/automation/src/main/kotlin/app/aaps/plugins/automation/actions/ActionRunAutotune.kt:43-63 | A running calculation cancels the request. Otherwise Autotune is asked to run with the days back, the auto-switch flag, the profile name and the weekdays. |
| AutotuneAction.IsValid | plugins/automation/src/main/kotlin/app/aaps/plugins/automation/actions/ActionRunAutotune.kt:103 | Invalid without a profile. With one, it follows the first Autotune plugin's enabled flag, and an empty plugin list throws. |

## Left out

- RxBus events, logging, the progress events, and the one-second sleep thread that announces the end of the pass: these are notifications, with no effect on the computed state.
- Threads, coroutines and concurrency: every operation is modelled as running alone. `isPaused` is read once per `processChanged*` call instead of on every loop turn.
- IEEE-754 doubles: reals are used. `roundToLong` saturation and NaN are not modelled.
- `AutosensData`, `LongSparseArray`, `ConstraintObject`, `SafetyPlugin` and `DanaRSPlugin` are not part of this model:
  - the record defaults of a fresh `AutosensData` are taken to be 0, "" and false;
  - the sparse array is modelled on its documented `get`, `indexOfKey` and `put`;
  - the limiters are reconstructed from the assertions in the two test files.
- The carb helpers are parameters: `fromCarbs`, `deductAbsorbedCarbs`, `removeOldCarbs` and `to0Decimal`. So are:
  - the sensitivity detector;
  - `getAutosensDataAtTime` and `roundUpTime`;
  - the insulin activity from `calculateFromTreatmentsAndTemps`;
  - the profile's ISF and IC;
  - `calculateDetectionStart`.
- `Constants.DEVIATION_TO_BE_EQUAL` is a parameter of the pass, since the constants file is not part of this model.
- IobCobOref.ValidEnv: the insulin sensitivity factor is assumed positive, as validated profiles guarantee.
- IobCobOref.DoWorkAndLog: a stop request is modelled per loop index. `dateUtil.now()` is read once for the whole pass.
- IobCobOref.DoWorkAndLog: the null-dereference crash of the slope scan is modelled as a `Thrown` result that leaves the store untouched.
- IobCobOref.Commit: the record is one object shared by the table and `previous`. The model writes the detector's result into both copies rather than modelling the aliasing.
- The pass's iob/cob partial results beyond the fields listed above, and `lastDataTime`, are not modelled.
- The boolean constraint tests (loop invocation, closed loop, SMB) in `SafetyPluginTest` lie outside the limiter chains and are not modelled. The same goes for the preference-screen tests.
- The limiters' rounding to the pump's step, the SMB branch that raises the basal maximum, and Safety's pump-absolute branch are not modelled.
- `verifySelectionInCategories`, the `loadSettings` loop over all plugins, the UI and the dialogs (`generateDialog`, `createViewsForPlugins`) are not modelled.
- QuickWizard follows Android's `org.json`: `put(index, …)` pads with null, and `get(index)` throws on a null slot or an index out of range.
- JSON and Gson coercions are not modelled: JSON objects are maps of typed values, and payload JSON is uninterpreted text. Enum parsers are identities on text, and the `timestamp()` fallback uses one date field.
- TreatmentMapper.DurationMillis: `MINUTES.toMillis` saturates at ±Long.MAX_VALUE for durations beyond ±Long.MAX_VALUE/60000 minutes. The model multiplies unboundedly, here and in the decoders' duration fallbacks, so that saturation is not modelled.
- `processChangedProfileStore`: the insertion of a missing "date" into the profile JSON is not modelled.
- OfflineEvents.OfflineEventStore.ActiveAtLegacy: the semantics of the DAO query `getOfflineEventActiveAtLegacy` are assumed, since its SQL is not part of this model. It takes a valid event with timestamp ≤ t < timestamp + duration, the latest start wins, and the first in storage order wins a tie. No referenceId filter is applied.
- `storeDataForDb.updateNsIds` and the database's other DAO queries are not modelled: the change log is a sorted sequence given as input. Preference cursors that were never set read as 0.
- `ActionRunAutotune.doAction` runs Autotune on a background thread and reports through a callback. The model returns the request instead.
