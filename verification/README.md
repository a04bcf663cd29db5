# Signal bridge: model and proofs

The Telegram signal bridge turns chat messages into a pair of files, a seed and its details, that a
trading terminal reads. This project models the code that decides what is written, when, and under
whose permission, and proves what holds of it over all inputs, runs, faults and interleavings.

| file | what it models |
|---|---|
| `message_text.dfy`, `text_readings.dfy` | cleaning, classification, validation, fingerprints; what they say of the text alone |
| `atomic_publish.dfy`, `publish_runs.dfy`, `publish_accepts.dfy` | the two-file publish with its hand-written rollback; sequences of publishes; which calls go through |
| `pairing.dfy`, `message_outcomes.dfy`, `pairing_runs.dfy`, `plain_runs.dfy` | the pair matchers and the message handler; what one message does; whole runs of messages, and of events from standard input |
| `timestamps.dfy` | stored timestamps and the two expiry tests |
| `candidate_test.dfy`, `candidate_runs.dfy` | the one-shot permission to publish for real; requests and interleavings |
| `route_listener.dfy`, `listener_outcomes.dfy`, `listener_runs.dfy` | the route listeners on the database; what each message, start and stop writes; reporting, delivery, registry |
| `worker_queue.dfy`, `worker_outcomes.dfy`, `worker_runs.dfy` | the worker's command queue; how commands end; runs of successive workers |
| `signal_prices.dfy` | which tokens of the details are prices, and what int(float(token)) makes of them |
| `json_text.dfy`, `signal_meta.dfy`, `signal_readings.dfy` | metadata built from a pair, written into event summaries and read back; what it says of the texts |
| `signal_pipeline.dfy` | from two messages to the files and the metadata |
| `target_registry.dfy`, `target_decisions.dfy` | conflicts between MT5 targets and the requests that change them; which requests go through |
| `decimals.dfy`, `sequences.dfy`, `wrappers.dfy` | integers as text, ordered ids, option and result types |

What the source updates in place is a class here (`FileCommonRoot`, `AtomicPublisher`, the matchers,
the handler, the runtimes, managers, tables and workers); each method is proved to do what a function
of the old state says, and the theorems are about these functions. A fault is an argument: the step
that raises, with a torn staging file if the step is a write. A clock reading, a set of uuid4
suffixes and the answer of the Telegram client are arguments too.

## What the proofs found

- The rollback is not all or nothing. Holding the seed raises: both old files are deleted. Holding the
  details raises: the old details are lost. Unlinking a hold raises: the new seed stays beside the old
  details. During a rollback a reader can see the old seed beside new or missing details. The runbook
  (docs/operations/SPRINT9B_TELEGRAM_FILE_BRIDGE_RUNBOOK.md:93-100) says that a failure restores the
  holds and leaves no mismatched pair; the model follows the code (`PublishRuns.AllOrNothing`,
  `PublishRuns.NewSeedOldDetails`, `AtomicPublish.RollBack`).
- The bridge accepts one name for both files and then publishes the seed alone (`PublishRuns.EqualNames`).
- A price that reads as an infinity or as nan (`SL: inf`, `TP: nan`, `SL: 1e999`, a number of 310 digits)
  passes classification and validation, and then makes every publish of those details raise before any
  file step (`PublishRuns.RaisesForPrices`, `PublishRuns.SpoiltDetailsNeverPublish`).
- A details text with white space outside ASCII around it is classified as details and rejected by the
  validator (`MessageText.OddSpaceBreaksValidation`).
- A ready line that cannot be logged leaves the new pair published while the arm stays unspent and the
  seed pending (`ListenerRuns.UnloggedPublishKeepsTheArm`). A listener that dies before it consumes lets
  the arm publish again exactly while the row stays armed by it, uncounted and unexpired
  (`CandidateRuns.CrashBreaksTheBound`).
- A route deleted between the detection of its details and the permission check publishes unasked
  (`CandidateRuns.DeletionRacesTheCheck`).
- Arming passes the joined row for the target as well, whose `is_enabled` is the route's own, so a
  disabled target can be armed (integrations/telegram/dashboard_api.py:669,
  integrations/telegram/dashboard_store.py:848-877; `CandidateTest.TargetFlagNeverAsked`,
  `CandidateTest.DisabledTargetArms`).
- A seed with an unsupported symbol raises out of its route and ends the delivery to the routes after it
  (`ListenerRuns.RaisesExactly`, `ListenerRuns.DeliveryReaches`).
- Commands claimed together with a stop, and after it, are never served (`WorkerRuns.StopLeavesItsBatch`,
  `WorkerRuns.StopsLeaveExactlyTheirBatches`).
- The plain matcher keeps no record of its own: a pair sent again consumes its seed and writes nothing,
  even if another pair has taken the two files since (`PlainRuns.ResentPairIsNotPublished`).
- A create body with `is_enabled` other than 1 skips the conflict check and is stored enabled; a patch
  body with a foreign `id` skips it too (`TargetRegistry.CreateKeepsInstancesApart`,
  `TargetRegistry.UncheckedCreatePasses`, `TargetRegistry.PatchKeepsInstancesApart`,
  `TargetRegistry.ForeignIdPatchPasses`).
- A patch may empty the data path of an active target, although a target cannot be created without one
  (`TargetRegistry.PathsStayPresent`, `TargetRegistry.BlankPatchPasses`).

## Model

| member | source | states |
|---|---|---|
| `MessageText.StripUnique` | integrations/telegram/fasttrack_file_bridge.py:93-97 | stripping removes exactly the outer white space: any reading of a text as blank, trimmed core, blank gives that core |
| `MessageText.SeedPatternIsThreeWords` | integrations/telegram/fasttrack_file_bridge.py:38-41 | on stripped text the seed pattern matches if and only if splitting on white space gives exactly a symbol, buy or sell, and now; the groups are those words |
| `MessageText.ClassifiedSeedValidates` | integrations/telegram/fasttrack_file_bridge.py:104-116 | a text classified as a seed fails seed validation only for an unsupported symbol, and otherwise yields its first two words in lower case |
| `MessageText.ClassifiedDetailsValidates` | integrations/telegram/fasttrack_file_bridge.py:119-123 | a text classified as details passes details validation if and only if all of it is ASCII, and then comes back with its line endings normalised |
| `MessageText.ClassifiedDetailsOuterSpace` | integrations/telegram/fasttrack_file_bridge.py:283-304 | the only characters that can make such a text fail are its outer white space, which the classifier strips and the validator does not |
| `MessageText.OddSpaceBreaksValidation` | integrations/telegram/fasttrack_file_bridge.py:119-123 | any details text with white space outside ASCII put before it is still classified as details and never validates |
| `MessageText.SomeDetailsTexts` | integrations/telegram/fasttrack_file_bridge.py:283-304 | every ASCII symbol followed by buy, now and a price is a details text, so the cases above occur |
| `MessageText.NormalizeIsTwoReplaces` | integrations/telegram/fasttrack_file_bridge.py:100-101 | one pass over the text does what the two replacements do one after the other |
| `TextReadings.SeedAcceptedIff` | integrations/telegram/fasttrack_file_bridge.py:104-116 | a text is accepted as a seed if and only if, stripped, it is ASCII and has a reading as gold, buy or sell, and now; that reading gives the direction |
| `TextReadings.OtherSymbolRefused` | integrations/telegram/fasttrack_file_bridge.py:104-116 | a reading with any other symbol is refused for that symbol |
| `TextReadings.NoSeedRefused` | integrations/telegram/fasttrack_file_bridge.py:104-113 | the other three refusals: no text, no ASCII, no reading |
| `TextReadings.DetailsHeaderIff` | integrations/telegram/fasttrack_file_bridge.py:42-45 | the details pattern matches if and only if the line has a reading as symbol, direction and now at the end of a word, and every reading gives the same header |
| `TextReadings.ParsedHeaderIff` | integrations/telegram/fasttrack_file_bridge.py:168-180 | the header of details is that of their first line, if it is for gold |
| `TextReadings.RangeHintIff` | integrations/telegram/fasttrack_file_bridge.py:46-46 | the range hint is a now, white space and a digit somewhere in the line |
| `TextReadings.StopLossIff` | integrations/telegram/fasttrack_file_bridge.py:298-303 | a stop loss is mentioned if and only if sl and a colon stand somewhere, in any mix of cases |
| `TextReadings.ClassifyIff` | integrations/telegram/fasttrack_file_bridge.py:283-304 | which of the five kinds a text is, by its readings alone |
| `AtomicPublish.AfterContent` | integrations/telegram/fasttrack_file_bridge.py:451-477 | what every name of the directory holds after any number of forward steps, for any presence of the old files |
| `AtomicPublish.ForwardStateSafe` | integrations/telegram/fasttrack_file_bridge.py:451-477 | in every forward state, torn writes included, a visible seed stands beside its own details, and both old texts are still in the directory until the new pair is visible |
| `AtomicPublish.MoveToHold` | integrations/telegram/fasttrack_file_bridge.py:341-346 | renames an existing file to its hold name and says whether it did |
| `AtomicPublish.HoldOldFiles` | integrations/telegram/fasttrack_file_bridge.py:451-453 | the two holds, or the state and handles at the step that raised, passing only through states that are safe to crash in |
| `AtomicPublish.PublishDetails` | integrations/telegram/fasttrack_file_bridge.py:455-461 | stages and renames the details, or stops at the raising step with its torn staging file, through safe states only |
| `AtomicPublish.PublishSeed` | integrations/telegram/fasttrack_file_bridge.py:463-470 | the same for the seed |
| `AtomicPublish.DropHolds` | integrations/telegram/fasttrack_file_bridge.py:472-477 | unlinks the holds that were made; raises if and only if such a step faults |
| `AtomicPublish.Attempt` | integrations/telegram/fasttrack_file_bridge.py:451-477 | the try block fails if and only if the fault strikes a file step that this call takes |
| `AtomicPublish.RestoreSeed` | integrations/telegram/fasttrack_file_bridge.py:504-509 | the seed branch of the handler, name by name, for every step that raised |
| `AtomicPublish.RestoreDetails` | integrations/telegram/fasttrack_file_bridge.py:511-517 | the details branch of the handler, name by name, and the states it shows |
| `AtomicPublish.RollBackSeed` | integrations/telegram/fasttrack_file_bridge.py:498-509 | the handler up to the seed: no old text is lost, and a mixed pair shows if and only if there was an old seed and the state with it back is mixed |
| `AtomicPublish.RollBackDetails` | integrations/telegram/fasttrack_file_bridge.py:511-522 | the rest of the handler ends in the outcome table, showing a mixed pair if and only if both old files existed and the new details were in place |
| `AtomicPublish.RollBack` | integrations/telegram/fasttrack_file_bridge.py:498-522 | the handler ends in the directory of the outcome table for every fault; in the restoring window it never loses an old text, and shows a mixed pair on the way if and only if there was an old seed and (old details, or new details already in place and a different old seed) |
| `AtomicPublish.AtomicPublisher.PublishPair` | integrations/telegram/fasttrack_file_bridge.py:378-535 | directory, fingerprints and result are those of the specification for every request and fault, a price that does not read among the failures; the history of states is safe during the try block and, in the restoring window, recoverable during the rollback |
| `PublishRuns.AllOrNothing` | integrations/telegram/fasttrack_file_bridge.py:445-522 | with distinct names a call leaves the directory it found or exactly that directory with the new pair if and only if its fault is not one of the listed tearing faults; between writing the details and replacing the seed it leaves the directory it found |
| `PublishRuns.NewSeedOldDetails` | integrations/telegram/fasttrack_file_bridge.py:472-477 | corollary of the outcome table: with a pair that differs in both texts, the new seed ends beside the old details if and only if unlinking a hold raises while old details existed |
| `PublishRuns.EqualNames` | integrations/telegram/fasttrack_file_bridge.py:445-522 | corollary of the outcome table, seed and details under one file name: only the seed text is ever published, and an early fault deletes the old file |
| `PublishRuns.RaisesForPrices` | integrations/telegram/fasttrack_file_bridge.py:394-396 | a call on a valid request with no fault raises if and only if some price of its details does not read; with any fault that reason comes first, before the duplicate check and before any file step |
| `PublishRuns.SpoiltDetailsPass` | integrations/telegram/fasttrack_file_bridge.py:119-123 | a plain details line above a stop-loss line such as SL: inf is classified as details and passes every validation |
| `PublishRuns.SpoiltDetailsNeverPublish` | integrations/telegram/fasttrack_file_bridge.py:390-396 | such details are never published, by any call, with any seed, in any state |
| `PublishRuns.SomeSpoilingLines` | integrations/telegram/fasttrack_file_bridge.py:183-195 | inf, infinity and nan in any mix of cases, and short numbers such as 1e999, make such a line |
| `PublishRuns.SeedHasNoHyphen` | integrations/telegram/fasttrack_file_bridge.py:132-138 | a validated seed contains no hyphen |
| `PublishRuns.PayloadInjective` | integrations/telegram/fasttrack_file_bridge.py:141-145 | the payload seed, separator, details determines both texts |
| `PublishRuns.FingerprintsIdentifyPairs` | integrations/telegram/fasttrack_file_bridge.py:141-145 | validated pairs have equal fingerprints if and only if they are equal |
| `PublishRuns.RunShowsLastLanded` | integrations/telegram/fasttrack_file_bridge.py:378-535 | over any sequence of real calls whose faults fall in the restoring window the directory shows the last pair whose prices read and that was new when published, nothing else changed, and the fingerprints are exactly those of the published pairs |
| `PublishRuns.FailureLeavesNoTrace` | integrations/telegram/fasttrack_file_bridge.py:498-535 | a call that fails in the restoring window changes nothing, so calling again is like calling first |
| `PublishRuns.RunTouchesOnlyFinalNames` | integrations/telegram/fasttrack_file_bridge.py:498-522 | over any sequence of calls and faults no other file changes: no hold or staging file outlives its call |
| `PublishRuns.DryRunsWriteNothing` | integrations/telegram/fasttrack_file_bridge.py:423-443 | dry runs never change the directory, whatever they record |
| `PublishAccepts.NameAcceptedIff` | integrations/telegram/fasttrack_file_bridge.py:62-69 | a file name is accepted, stripped, if and only if something is left without separators, colons and two dots in a row |
| `PublishAccepts.DetailsAcceptedIff` | integrations/telegram/fasttrack_file_bridge.py:119-123 | details are accepted if and only if they are not blank and all ASCII |
| `PublishAccepts.FaultlessCall` | integrations/telegram/fasttrack_file_bridge.py:378-496 | for every request: a call without a fault returns if and only if names, readings, sizes (8192 each) and prices are as they should be; then the pair is on record and, if new and no dry run, exactly its two files are written; any other call changes nothing |
| `PublishAccepts.RefusedCall` | integrations/telegram/fasttrack_file_bridge.py:378-396 | why any other call fails, in the order of the checks, whatever the fault |
| `PublishAccepts.PlainPairIsPublished` | integrations/telegram/fasttrack_file_bridge.py:126-138 | any reading of a gold seed with plain ASCII details is published up to 8192 characters of each and refused from the 8193rd on |
| `Pairing.PairMatcher.IngestSeed` | integrations/telegram/fasttrack_file_bridge.py:590-612 | a seed from standard input: expiry, validation, replacement, new pending seed |
| `Pairing.PairMatcher.IngestDetails` | integrations/telegram/fasttrack_file_bridge.py:614-644 | details from standard input publish with the pending seed, which is freed only by a normal return |
| `Pairing.TelegramPairMatcher.UnregisterSeed` | integrations/telegram/fasttrack_file_bridge.py:672-676 | removes the index entry only if it is this very seed object |
| `Pairing.TelegramPairMatcher.ClearPendingSeed` | integrations/telegram/fasttrack_file_bridge.py:678-680 | clears slot and index together and keeps the index agreement |
| `Pairing.TelegramPairMatcher.ExpirePendingSeedIfNeeded` | integrations/telegram/fasttrack_file_bridge.py:567-588 | expires the pending seed exactly when it is older than the timeout, and keeps the index agreement |
| `Pairing.TelegramPairMatcher.IngestTelegramSeed` | integrations/telegram/fasttrack_file_bridge.py:682-720 | keeps the index agreement (the group index holds the pending seed under its own key and nothing else) and takes the slot |
| `Pairing.TelegramPairMatcher.FindSeedForDetails` | integrations/telegram/fasttrack_file_bridge.py:722-750 | under the index agreement the result is the pending seed or nothing, and it is the pending seed if and only if one of the three rules asked of it alone holds |
| `Pairing.TelegramPairMatcher.PublishMatchedPair` | integrations/telegram/fasttrack_file_bridge.py:646-665 | a raising publish leaves the pending seed in place |
| `Pairing.TelegramPairMatcher.IngestTelegramDetails` | integrations/telegram/fasttrack_file_bridge.py:752-780 | keeps the index agreement and does what the matching rules say |
| `Pairing.TelegramMessageHandler.HandleMessage` | integrations/telegram/fasttrack_file_bridge.py:835-912 | one message through both duplicate sets, classification and matcher |
| `PairingRuns.RunAgrees` | integrations/telegram/fasttrack_file_bridge.py:567-780 | in every run the log is legal (a seed is accepted only into an empty slot, consumed only while waiting and in time, and so on) and the slot is what the log says |
| `PairingRuns.SeedsConserved` | integrations/telegram/fasttrack_file_bridge.py:567-665 | in every run accepted seeds = consumed + replaced + expired + the one pending; a raising publish moves none |
| `PairingRuns.EveryPairIsSound` | integrations/telegram/fasttrack_file_bridge.py:722-780 | every consumed pair uses the latest accepted seed, accepted earlier and untouched since, within its timeout at the check; the seed is that of one message of the run and the details are those of a later one, which replies to the seed's message, or shares its group without a differing header, or has a header with its symbol and direction |
| `PairingRuns.Origin` | integrations/telegram/fasttrack_file_bridge.py:835-903 | every accepted seed and every consumed pair was added by exactly one message of the run, with that message's text, ids and clock |
| `PairingRuns.MessageKeyIdentifies` | integrations/telegram/fasttrack_file_bridge.py:835-837 | two messages have the same key if and only if they have the same channel and the same id in it |
| `PairingRuns.GroupJoinsOneGroup` | integrations/telegram/fasttrack_file_bridge.py:722-750 | a pair joined by its group key joins two messages of one and the same group |
| `PairingRuns.NewContentNewPair` | integrations/telegram/fasttrack_file_bridge.py:870-883 | details whose content the handler has not seen never repeat a recorded pair, whatever the seed |
| `PairingRuns.DuplicateCheckNeverTaken` | integrations/telegram/fasttrack_file_bridge.py:396-410 | in every run through one handler the recorded fingerprints number exactly the recording publishes, so the publisher's own duplicate branch is never taken |
| `PairingRuns.DirectoryShowsLastConsumed` | integrations/telegram/fasttrack_file_bridge.py:378-780 | from messages to files: with faults in the restoring window the directory is the initial one with the last consumed pair in its two names |
| `MessageOutcomes.SeedFoundIff` | integrations/telegram/fasttrack_file_bridge.py:722-750 | a pending seed is found if and only if one of the three rules holds of it, and by the first that does |
| `MessageOutcomes.RulesByReading` | integrations/telegram/fasttrack_file_bridge.py:722-750 | what the three rules ask, in terms of ids and of readings of the details' first line |
| `MessageOutcomes.SkippedMessage` | integrations/telegram/fasttrack_file_bridge.py:835-881 | what is no seed and no details, or was there before, is skipped with its own reason, and marked as seen only when it is new and unrecognized |
| `MessageOutcomes.NewSeedWaits` | integrations/telegram/fasttrack_file_bridge.py:682-720 | a new gold seed takes the slot, the one still waiting there is replaced and one that is too old has expired |
| `MessageOutcomes.OtherSeedIsRefused` | integrations/telegram/fasttrack_file_bridge.py:682-688 | a new seed of another symbol raises for it |
| `MessageOutcomes.NewDetailsOutcome` | integrations/telegram/fasttrack_file_bridge.py:752-780 | all that new details do: refused, skipped, or published with the waiting seed, which is used up exactly when the call returns |
| `MessageOutcomes.FaultlessDetails` | integrations/telegram/fasttrack_file_bridge.py:752-780 | without a fault the seed is used up if and only if the pair is publishable, and then its files are there unless it was on record |
| `MessageOutcomes.EveryMatchIsTried` | integrations/telegram/fasttrack_file_bridge.py:722-780 | completeness over every run: new ASCII details add a consumption of the waiting seed, or the raise of its publish, if and only if a seed waits in time and one of the three rules joins them |
| `PlainRuns.SimulationIsRun` | integrations/telegram/fasttrack_file_bridge.py:1056-1073 | the loop over standard input is the run of its events up to the first call that raises, or of all of them |
| `PlainRuns.PlainSeedWaits` | integrations/telegram/fasttrack_file_bridge.py:590-612 | a gold seed from standard input takes the slot, under its id or the name unknown-seed |
| `PlainRuns.PlainDetailsOutcome` | integrations/telegram/fasttrack_file_bridge.py:614-644 | details from standard input are published with whatever seed still waits, or skipped |
| `PlainRuns.PlainRunAgrees` | integrations/telegram/fasttrack_file_bridge.py:590-644 | every run of the plain matcher keeps a legal log as well, and the slot is what the log says |
| `PlainRuns.PlainSeedsConserved` | integrations/telegram/fasttrack_file_bridge.py:590-644 | accepted seeds = consumed + replaced + expired + the one pending, in every run of the plain matcher |
| `PlainRuns.PlainPairIsSound` | integrations/telegram/fasttrack_file_bridge.py:614-644 | there every consumed pair uses the latest accepted seed, in time and untouched since, whatever the details say |
| `PlainRuns.RecordIsWhatWasPublished` | integrations/telegram/fasttrack_file_bridge.py:396-411 | in every run of the plain matcher the publisher's fingerprints are exactly those of the pairs that the log shows as recorded, duplicates included |
| `PlainRuns.DuplicateIff` | integrations/telegram/fasttrack_file_bridge.py:396-411 | a real publish that returns leaves files and record as they were if and only if its pair was on record |
| `PlainRuns.ResentPairIsNotPublished` | integrations/telegram/fasttrack_file_bridge.py:396-411 | whatever comes in between, sending a pair on record again consumes its seed and changes neither files nor record, so the duplicate branch is reached here |
| `Timestamps.BeforeIffEarlier` | integrations/telegram/candidate_test_arm_service.py:156-163 | dates compare field by field exactly as their seconds |
| `Timestamps.SecondsRoundTrip` | integrations/telegram/dashboard_security.py:97-98 | turning a second count into a date and back is the identity, leap years included |
| `Timestamps.CalendarRoundTrip` | integrations/telegram/dashboard_security.py:97-98 | turning a valid date into seconds and back is the identity |
| `Timestamps.DaysInClosedForm` | integrations/telegram/candidate_test_arm_service.py:166-171 | the days before a year are those of the Gregorian closed form |
| `Timestamps.IsoShape` | integrations/telegram/candidate_test_arm_service.py:166-171 | the shape of a stored timestamp, place by place |
| `Timestamps.IsoTextOrder` | integrations/telegram/dashboard_store.py:896-909 | for years of four digits stored timestamps compare as text exactly as instants |
| `Timestamps.IsoRoundTrip` | integrations/telegram/candidate_test_arm_service.py:166-171 | a stored timestamp parses back to its second |
| `Timestamps.ExpiryTestsAgree` | integrations/telegram/candidate_test_arm_service.py:156-163 | the SQL comparison of texts against the truncated clock and the comparison of datetimes against the untruncated clock agree for every stored expiry and every microsecond |
| `CandidateTest.DashboardDatabase.ExpireCandidateTestArms` | integrations/telegram/dashboard_store.py:896-922 | expires exactly the armed rows whose expiry is due and returns their ids |
| `CandidateTest.DashboardDatabase.CountActiveCandidateTestArms` | integrations/telegram/dashboard_store.py:879-894 | the number of armed routes other than the given one |
| `CandidateTest.DashboardDatabase.GetRouteDetail` | integrations/telegram/dashboard_store.py:848-877 | expires what is due before it reads |
| `CandidateTest.DashboardDatabase.ConsumeCandidateTestPublish` | integrations/telegram/dashboard_store.py:975-996 | counts the publish and marks the row consumed; raises if and only if the row is missing |
| `CandidateTest.DashboardDatabase.DisarmCandidateTestRoute` | integrations/telegram/dashboard_store.py:953-973 | puts the row back to its unarmed state; raises if and only if the row is missing |
| `CandidateTest.DashboardDatabase.BlockCandidateTestRoute` | integrations/telegram/dashboard_store.py:998-1014 | blocks the row with its reason and keeps its count; raises if and only if the row is missing |
| `CandidateTest.DashboardDatabase.ArmRequest` | integrations/telegram/dashboard_api.py:664-681 | arms if and only if the route exists and passes every guard after expiry, with the first failing guard as the error; the target's own enabled flag is never among them |
| `CandidateTest.TargetFlagNeverAsked` | integrations/telegram/dashboard_api.py:664-671 | setting the enabled flag of any target changes neither what may be armed nor the reason against it, in any table, and the reason for a disabled target is never given |
| `CandidateTest.DisabledTargetArms` | integrations/telegram/dashboard_api.py:664-681 | the route the guards are made for, on a disabled target, is armed by the request |
| `CandidateTest.CanArmIff` | integrations/telegram/candidate_test_arm_service.py:107-149 | a route can be armed if and only if its row is enabled, on a DEMO and LOCKED target with the expected magic number, symbol, files, broker, path and source, in observer mode, with no other row armed |
| `CandidateTest.ArmBlockIsFirst` | integrations/telegram/candidate_test_arm_service.py:107-149 | the reason against it is that of the first check that fails, in the source's order |
| `CandidateTest.PermissionIsFirst` | integrations/telegram/candidate_test_arm_service.py:192-213 | permission to publish is given if and only if the row is armed, not in a dry run, listened to, before its expiry and uncounted; otherwise the first failing check gives the reason |
| `CandidateTest.DisarmingUndoes` | integrations/telegram/dashboard_store.py:953-973 | disarming undoes whatever arming, publishing, expiry and blocking have written |
| `CandidateTest.TransitionColumns` | integrations/telegram/dashboard_store.py:924-1014 | the columns that arming, consuming, expiry and blocking write, with 900 seconds to live |
| `CandidateRuns.ApplyKeepsSound` | integrations/telegram/dashboard_api.py:664-687 | every request keeps: at most one armed route, armed means count 0 and expiry at armed-at plus 900 seconds, consumed means count 1, no count above 1 |
| `CandidateRuns.RunKeepsSound` | integrations/telegram/dashboard_api.py:664-687 | so does every sequence of requests |
| `CandidateRuns.SpentUntilDisarmed` | integrations/telegram/candidate_test_arm_service.py:140-149 | a consumed, expired or blocked route stays so through any requests other than its disarming and deletion |
| `CandidateRuns.ArmedWasArmable` | integrations/telegram/dashboard_api.py:664-687 | over every run from nothing armed: each armed row passed every check when the request that armed it came, shows that request's time and an expiry 900 seconds later, and has not been disarmed since |
| `CandidateRuns.SplitArmBreaksTheBound` | integrations/telegram/dashboard_api.py:664-678 | two requests that both count before either writes arm two routes |
| `CandidateRuns.ReadingSettlesExpiry` | integrations/telegram/candidate_test_arm_service.py:192-213 | right after a read at the same instant permission is given if and only if the row was armed and not due: the guard's own expiry test adds nothing |
| `CandidateRuns.AtMostOncePerArm` | integrations/telegram/route_listener_service.py:586-613 | for every interleaving of arm, disarm, expire, block, create and delete transactions with the detect, check, publish, read and consume steps of any number of listeners, no arm authorises two successful publishes, wherever listeners die, as long as none dies while its route is still armed by the arm it has just published under |
| `CandidateRuns.StartIsSafe` | integrations/telegram/route_listener_service.py:633-638 | every sound table with idle listeners is such a start |
| `CandidateRuns.DeathBeforePublishIsHarmless` | integrations/telegram/route_listener_service.py:586-611 | a listener that dies before it has published, or after it has settled, never matters |
| `CandidateRuns.ArmCanPublishIff` | integrations/telegram/candidate_test_arm_service.py:192-213 | an arm of an idle route can publish from some instant on, in any interleaving, if and only if it is the route's current arm and the row is permitted at that instant |
| `CandidateRuns.CrashBreaksTheBound` | integrations/telegram/route_listener_service.py:612-638 | after a death between publish and consume the same arm can publish again from some instant on if and only if the row is still armed by it with count 0 and not expired then |
| `CandidateRuns.OverrunEndsExpired` | integrations/telegram/route_listener_service.py:633-638 | a publish that outlasts the time to live leaves the route expired and uncounted, and no later permission |
| `CandidateRuns.DeletionRacesTheCheck` | integrations/telegram/route_listener_service.py:586-604 | a row deleted before the details are detected stops the listener at its first write; one deleted right after lets the publish through whatever the mode was |
| `CandidateRuns.ClearedByArmOrByAbsence` | integrations/telegram/route_listener_service.py:586-604 | corollary of the check: a listener passes it if and only if its row is armed, unexpired and unspent, or gone |
| `RouteListener.ListenerDatabase.UpsertRouteListenerState` | integrations/telegram/dashboard_store.py:1058-1110 | writes the status; raises if and only if the route's row is gone |
| `RouteListener.ListenerDatabase.AddRouteEvent` | integrations/telegram/dashboard_store.py:1131-1163 | appends the event; raises if and only if the route's row is gone |
| `RouteListener.ListenerDatabase.StopEveryListener` | integrations/telegram/route_listener_service.py:716-737 | every stored status becomes stopped |
| `RouteListener.ListenerDatabase.DeleteRoute` | integrations/telegram/dashboard_store.py:1016-1020 | the route's status and events go with it, all others stay in order |
| `RouteListener.IsPermitted` | integrations/telegram/route_listener_service.py:586-596 | the permission question with its expiries before and after |
| `RouteListener.RecordPublishSuccess` | integrations/telegram/route_listener_service.py:633-662 | consumes the arm if still armed, then records the success |
| `RouteListener.ProcessMessage` | integrations/telegram/route_listener_service.py:538-631 | one message on one route: runtime, files, tables and raised error are those of the specification |
| `RouteListener.RouteListenerManager.constructor` | integrations/telegram/route_listener_service.py:280-302 | starts with an empty registry on normalised statuses |
| `RouteListener.RouteListenerManager.ProcessRoute` | integrations/telegram/route_listener_service.py:538-631 | changes this route's runtime, its root's directory and the tables, and no other route although roots may be shared |
| `RouteListener.RouteListenerManager.RoutesOn` | integrations/telegram/route_listener_service.py:481-487 | the running routes of a channel in the order they were started |
| `RouteListener.RouteListenerManager.DeliverInboundMessage` | integrations/telegram/route_listener_service.py:481-489 | hands the message to these routes one after the other until one raises |
| `RouteListener.RouteListenerManager.BuildRuntime` | integrations/telegram/route_listener_service.py:518-536 | a fresh handler, matcher and publisher on the root's directory |
| `RouteListener.RouteListenerManager.StartRoute` | integrations/telegram/route_listener_service.py:392-449 | starts a route once, refuses with the first failing check, and undoes the start when the client cannot be started |
| `RouteListener.RouteListenerManager.StopRoute` | integrations/telegram/route_listener_service.py:451-472 | stops a route, also one that only its stored status still shows; on a deleted route the registry entry goes before the write raises |
| `ListenerOutcomes.RowlessMessage` | integrations/telegram/route_listener_service.py:538-567 | a message on a route whose row is gone writes nothing and raises |
| `ListenerOutcomes.SkippedMessageTrace` | integrations/telegram/route_listener_service.py:541-631 | what a repeated or unusable message writes, and that it changes nothing else |
| `ListenerOutcomes.SeedTrace` | integrations/telegram/route_listener_service.py:553-572 | what a new seed writes before the handler gets it |
| `ListenerOutcomes.RefusedDetailsTrace` | integrations/telegram/route_listener_service.py:574-604 | what refused details write, with the reason of the first failing check |
| `ListenerOutcomes.HandledDetailsTrace` | integrations/telegram/route_listener_service.py:605-638 | what handled details write: failure, publish with the arm spent, or nothing published |
| `ListenerOutcomes.StartOutcome` | integrations/telegram/route_listener_service.py:392-449 | a start in full: already running, refused by the first failing check, running and waiting, or undone when the client cannot start |
| `ListenerOutcomes.StopOutcome` | integrations/telegram/route_listener_service.py:451-472 | a stop in full, and that it raises if and only if the row is gone and it is not recorded as stopped without running |
| `ListenerOutcomes.DeletionTakesAll` | integrations/telegram/dashboard_store.py:1016-1020 | a deleted route takes its status and events along, and the other events keep their order |
| `ListenerOutcomes.ChannelInOrder` | integrations/telegram/route_listener_service.py:481-492 | a channel's routes come in the order of their starts |
| `ListenerRuns.HandlerSeesReaching` | integrations/telegram/route_listener_service.py:538-631 | the handler runs on exactly the messages that are new to the runtime, are seeds or permitted details, and whose route has a row |
| `ListenerRuns.ReadyIffRecorded` | integrations/telegram/route_listener_service.py:605-622 | a PUBLISH_READY event is added if and only if one more fingerprint is on record and the publisher's ready line could be logged; no message records two |
| `ListenerRuns.EachContentHandledOnce` | integrations/telegram/route_listener_service.py:541-572 | however messages repeat and whatever happens to tables and files in between, no content reaches a route's handler twice, and the handler's own content set stays inside the runtime's |
| `ListenerRuns.RaisesExactly` | integrations/telegram/route_listener_service.py:538-631 | a message raises out of a route if and only if the row is gone or it is a new seed that does not validate; nothing a publish raises does |
| `ListenerRuns.MessageAddsEvents` | integrations/telegram/route_listener_service.py:538-631 | every message adds at least one event on its own route if that has a row, and none on any other |
| `ListenerRuns.DeliveryReaches` | integrations/telegram/route_listener_service.py:481-489 | delivery passes if and only if no route raises in that sense; each route up to the first that does has its runtime made by processing the message, whatever happened to the publishes of the others, and exactly those of them with a row have new events; the runtimes after it are as they were |
| `ListenerRuns.ServedHasSeen` | integrations/telegram/route_listener_service.py:541-572 | a route that had its turn has seen the content of a seed or details, and no other content |
| `ListenerRuns.FilesMoveOnlyWithTheArm` | integrations/telegram/route_listener_service.py:586-638 | with faults in the restoring window a real listener moves files only while its route is armed, announces it, and leaves the arm spent |
| `ListenerRuns.MatchedDetailsArePublished` | integrations/telegram/route_listener_service.py:571-622 | without a fault, permitted details that match the pending seed are announced if and only if their pair is valid, its prices read and it is not on record; then the files show the pair (unless it is a dry run), its fingerprint is added and the seed consumed, and otherwise no file and no fingerprint changes |
| `ListenerRuns.ArmSpentIffAnnounced` | integrations/telegram/route_listener_service.py:606-638 | for every fault a permitted message spends the arm if and only if its publish is announced |
| `ListenerRuns.UnloggedPublishKeepsTheArm` | integrations/telegram/fasttrack_file_bridge.py:479-490 | if the ready line cannot be logged the same files are published, yet the failure is recorded, the arm would permit again at once and the seed stays pending |
| `ListenerRuns.MessageIsARun` | integrations/telegram/route_listener_service.py:586-638 | every message that a real listener processes is a run of the interleaving's steps without a death, with the same rows and one publish under the current arm if and only if it is announced, so the bound on publishes per arm holds of it |
| `ListenerRuns.MessageWritesStatus` | integrations/telegram/route_listener_service.py:538-700 | every message, also one that raises, leaves its route's status other than stopped if the row is there, and no other route's status changed |
| `ListenerRuns.RestartInStep` | integrations/telegram/route_listener_service.py:716-737 | a manager built on any tables, however the last process ended, starts in agreement |
| `ListenerRuns.RegistryAgrees` | integrations/telegram/route_listener_service.py:392-472 | over every run of starts, stops, messages, route changes without deletion, and restarts, a route is in the registry if and only if its stored status is not stopped |
| `ListenerRuns.DeletionBreaksAgreement` | integrations/telegram/dashboard_store.py:1016-1020 | deleting a route keeps that agreement if and only if the route is not running |
| `ListenerRuns.LateMessageBreaksAgreement` | integrations/telegram/route_listener_service.py:481-489 | a message still under way on a route keeps that agreement if and only if the route is still running |
| `WorkerQueue.PendingFromLowest` | integrations/telegram/dashboard_store.py:1367-1391 | claimed ids ascend, and a pending id is left out only when the limit is reached by lower ids |
| `WorkerQueue.CommandTable.ClaimPending` | integrations/telegram/dashboard_store.py:1367-1391 | returns the lowest pending ids up to the limit and marks exactly these |
| `WorkerQueue.CommandTable.Enqueue` | integrations/telegram/dashboard_store.py:1349-1365 | appends a pending command under the next id |
| `WorkerQueue.ListenerWorkerRuntime.SyncActiveRoutes` | integrations/telegram/listener_worker_runtime.py:185-192 | writes the sorted duplicate-free keys of the registry and their number |
| `WorkerQueue.ListenerWorkerRuntime.DispatchCommand` | integrations/telegram/listener_worker_runtime.py:166-183 | start and stop act on the registry and sync; missing ids, unknown commands and raising stops fail without a sync |
| `WorkerQueue.ListenerWorkerRuntime.ProcessCommands` | integrations/telegram/listener_worker_runtime.py:147-164 | the loop is the claim followed by dispatch and completion in turn until a stop command |
| `WorkerQueue.ListenerWorkerRuntime.Shutdown` | integrations/telegram/listener_worker_runtime.py:132-145 | stops the running routes in turn, then clears the state row unless a stop raises |
| `Sequences.SortedSet` | integrations/telegram/dashboard_store.py:1334-1338 | ascending, without repeats, with exactly the given elements |
| `WorkerRuns.NewWorkerSound` | integrations/telegram/listener_worker_runtime.py:92-120 | a worker on an empty queue is where these runs start |
| `WorkerRuns.DispatchedOnceInOrder` | integrations/telegram/listener_worker_runtime.py:147-164 | over every run of successive workers, deaths in mid-batch included, each command is dispatched at most once, in ascending order of ids, and none is skipped except what an ended worker had claimed |
| `WorkerRuns.RunMovesForward` | integrations/telegram/dashboard_store.py:1367-1409 | kinds and routes of commands never change and statuses only go from pending to processing to done or failed |
| `WorkerRuns.NothingAfterStop` | integrations/telegram/listener_worker_runtime.py:162-164 | after a stop command the same worker dispatches nothing more |
| `WorkerRuns.StopLeavesItsBatch` | integrations/telegram/listener_worker_runtime.py:162-164 | the later commands of a stop's own batch stay processing for ever and are never dispatched, by any worker |
| `WorkerRuns.OnlyStopsLeaveCommands` | integrations/telegram/listener_worker_runtime.py:147-164 | if workers end only stopped or idle, every command left behind lies fewer than twenty ids after a dispatched stop |
| `WorkerRuns.StopsLeaveExactlyTheirBatches` | integrations/telegram/listener_worker_runtime.py:147-164 | if workers end only stopped or idle, the commands left undispatched for ever are exactly those claimed together with a stop and after it |
| `WorkerRuns.AgreeingViews` | integrations/telegram/dashboard_store.py:1334-1338 | what the state row shows then: ascending ids without repeats of exactly the running routes, and their number |
| `WorkerRuns.ThreeViewsAgree` | integrations/telegram/listener_worker_runtime.py:166-192 | over every run without route deletion, between steps (a start or stop and its sync are one), state row, registry and stored statuses agree |
| `WorkerRuns.ShutdownStopsEverything` | integrations/telegram/listener_worker_runtime.py:132-145 | with no route deleted a shutdown completes, nothing runs and every status is stopped |
| `WorkerRuns.ProcessCommandsIsRun` | integrations/telegram/listener_worker_runtime.py:147-164 | one call of the loop is a run of the queue, so all of the above holds of it |
| `WorkerOutcomes.LoopOutcome` | integrations/telegram/listener_worker_runtime.py:147-164 | one call of the loop serves the claimed commands up to the first worker stop; each served row ends done or failed as the command and the tables it found say, and no other row changes |
| `WorkerOutcomes.SingleStartEndsDone` | integrations/telegram/listener_worker_runtime.py:150-155 | a single start with a route id ends done, also when the start is refused |
| `WorkerOutcomes.PollClaims` | integrations/telegram/dashboard_store.py:1367-1391 | an idle worker claims the lowest pending commands, twenty at most |
| `WorkerOutcomes.CommandsEndAsTheyMay` | integrations/telegram/listener_worker_runtime.py:166-183 | over every run of workers a start with an id and a worker stop never end failed, and a command without an id or of an unknown kind never ends done |
| `JsonText.ObjectRoundTrip` | integrations/telegram/fasttrack_file_bridge.py:279 | a flat object printed with compact separators and ASCII escapes is read back exactly, whatever its texts hold |
| `JsonText.EscapedIsPlain` | integrations/telegram/fasttrack_file_bridge.py:279-279 | what is written is printable ASCII |
| `SignalPrices.WholeNumberReads` | integrations/telegram/fasttrack_file_bridge.py:183-195 | a whole number makes int(float(token)) raise if and only if it is at least half a unit above the largest double |
| `SignalPrices.WholePriceIsExact` | integrations/telegram/fasttrack_file_bridge.py:183-195 | whole prices below 2 to the 53 come through exactly |
| `SignalPrices.WordUnreadable` | integrations/telegram/fasttrack_file_bridge.py:183-195 | inf, infinity and nan raise, in any mix of cases |
| `SignalPrices.ExponentUnreadable` | integrations/telegram/fasttrack_file_bridge.py:183-195 | so does 1e999 |
| `SignalPrices.SpoiltByOneLine` | integrations/telegram/fasttrack_file_bridge.py:227-249 | one price line that does not read spoils any details text it is added to |
| `SignalPrices.ZeroIsNoPrice` | integrations/telegram/fasttrack_file_bridge.py:183-195 | zero is no price |
| `SignalPrices.NegativeIsNoPrice` | integrations/telegram/fasttrack_file_bridge.py:183-195 | a number with a minus sign is no price |
| `SignalPrices.LettersAreNoPrice` | integrations/telegram/fasttrack_file_bridge.py:183-195 | letters other than the three words are no price |
| `SignalPrices.FractionIsDropped` | integrations/telegram/fasttrack_file_bridge.py:183-195 | of a price with up to four places behind the point, and a whole part below 2 to the 40, the whole part is kept, through the rounding to a double |
| `SignalMeta.ReadEntryRange` | integrations/telegram/fasttrack_file_bridge.py:228-232 | the entry range of the first line; raises if and only if one of its numbers does not read |
| `SignalMeta.ReadPriceLines` | integrations/telegram/fasttrack_file_bridge.py:234-249 | the loop keeps the last stop loss and all take profits, and raises if and only if some line's price does not read |
| `SignalMeta.BuildSignalMeta` | integrations/telegram/fasttrack_file_bridge.py:209-251 | empty metadata for an invalid pair; for a valid one it raises if and only if some price does not read, and otherwise gives its metadata |
| `SignalMeta.ValidPairIsComplete` | integrations/telegram/fasttrack_file_bridge.py:198-225 | a valid pair always has a symbol and a side |
| `SignalMeta.PublishedMetaShows` | integrations/telegram/fasttrack_file_bridge.py:271-280 | the summary of any valid pair gives back its metadata, symbol and side included, for every base without the marker |
| `SignalMeta.FinalizeSignalMeta` | integrations/telegram/fasttrack_file_bridge.py:254-268 | absent texts are dropped, absent numbers are null, take profits are a list, in the order the keys are walked |
| `SignalMeta.ExtractSignalMeta` | integrations/telegram/dashboard_signal_history.py:37-64 | the result does not depend on the order in which the allowed keys are walked |
| `SignalMeta.LooseValues` | integrations/telegram/dashboard_signal_history.py:47-63 | what is made of values that the writer never writes: numbers as text and truth values, nulls, wrong kinds |
| `SignalMeta.AfterInsertedMarker` | integrations/telegram/dashboard_signal_history.py:38-40 | the first marker in a formatted summary is the inserted one, because the marker cannot overlap itself |
| `SignalMeta.SummaryRoundTrip` | integrations/telegram/dashboard_api.py:142-169 | for every base summary without the marker and every metadata with symbol and side, extracting gives exactly the fields that are not null, for all key orders of writer and reader |
| `SignalMeta.MetaShowsIffComplete` | integrations/telegram/fasttrack_file_bridge.py:275-280 | metadata can be extracted if and only if symbol and side were given |
| `SignalMeta.SummaryText` | integrations/telegram/fasttrack_file_bridge.py:275-280 | the text behind a summary, character by character, for one order of the keys |
| `SignalReadings.SideOfSeed` | integrations/telegram/fasttrack_file_bridge.py:198-225 | the metadata of a valid pair shows XAUUSD, and BUY or SELL exactly as the seed reads |
| `SignalReadings.WrittenDetailsRead` | integrations/telegram/fasttrack_file_bridge.py:227-249 | details written out of any whole prices below 2 to the 53 give back the entry range, the last stop loss and the take profits in order, and never raise |
| `SignalReadings.WrittenIsDetails` | integrations/telegram/fasttrack_file_bridge.py:283-304 | such details are classified as details, come through validation as they are, and carry their first line's header |
| `SignalPipeline.SignalReachesTheFiles` | integrations/telegram/fasttrack_file_bridge.py:835-912 | a gold seed and, in time, such details of the same direction, both new: without a fault the two files then hold exactly the two texts, nothing else has changed and no seed waits |
| `SignalPipeline.SignalIsShown` | integrations/telegram/fasttrack_file_bridge.py:209-251 | and the metadata of the pair is XAUUSD, the side of the seed and the prices of the details |
| `TargetRegistry.FindTargetConflicts` | integrations/telegram/mt5_target_service.py:145-195 | the nested loops compute the duplicate-free list of conflicts of the rows checked |
| `TargetDecisions.ClashMeans` | integrations/telegram/mt5_target_service.py:114-125 | what the four conflicts say of the columns of two rows; the second way of asking for the other row's account adds nothing |
| `TargetDecisions.ScanMeans` | integrations/telegram/mt5_target_service.py:145-195 | the scan of one enabled target reports exactly its conflicts with the other enabled ones |
| `TargetRegistry.WholeScanIsUnionOfScans` | integrations/telegram/mt5_target_service.py:145-195 | the scan of the whole list finds, without repeats, exactly what the scans of the single targets find |
| `TargetRegistry.AccountScanIsAsymmetric` | integrations/telegram/mt5_target_service.py:114-125 | one target can be reported for an account while the scan of the other one is silent |
| `TargetRegistry.TargetTable.ValidateTargetRegistration` | integrations/telegram/mt5_target_service.py:427-459 | the first blocking conflict of the row as it would become |
| `TargetRegistry.TargetTable.CreateMt5Target` | integrations/telegram/dashboard_api.py:1123-1129 | create: data path required, conflicts block, the stored row is enabled |
| `TargetRegistry.TargetTable.PatchMt5Target` | integrations/telegram/dashboard_api.py:1363-1373 | patch: checked as the merged row, stored without the body's id |
| `TargetRegistry.CreateKeepsInstancesApart` | integrations/telegram/dashboard_api.py:1123-1129 | an accepted create keeps active data paths apart if and only if its body was checked as an enabled target or its path is new |
| `TargetRegistry.UncheckedCreatePasses` | integrations/telegram/mt5_target_service.py:433-440 | a body that says is_enabled is not 1 is accepted and stored enabled whatever it clashes with |
| `TargetDecisions.CreateOutcome` | integrations/telegram/dashboard_api.py:1123-1129 | a create goes through if and only if its path is not blank, the store accepts it and, if the body has it switched on, no other enabled target has its place or account; what is stored, and which error otherwise |
| `TargetDecisions.PatchOutcome` | integrations/telegram/dashboard_api.py:1363-1373 | the same for a patch whose body names no foreign id |
| `TargetDecisions.OtherRequests` | integrations/telegram/dashboard_api.py:1363-1373 | what disabling, verification and deletion make of the list |
| `TargetRegistry.PatchKeepsInstancesApart` | integrations/telegram/mt5_target_service.py:441-448 | an accepted patch keeps active data paths apart if and only if its body names no foreign id, or the patched row is off, or its path is new |
| `TargetRegistry.ForeignIdPatchPasses` | integrations/telegram/mt5_target_service.py:441-448 | a patch body with a foreign id is accepted whatever it clashes with, and the target keeps its own id |
| `TargetRegistry.ActiveInstancesStayApart` | integrations/telegram/mt5_target_service.py:427-459 | over every sequence of create, add from discovery, patch, disable, verify and delete whose bodies are checked as what they become, no two active targets have the same normalised data path, unless both have none |
| `TargetRegistry.PathsStayPresent` | integrations/telegram/dashboard_api.py:1363-1373 | every request keeps every data path present if and only if it is not an accepted patch with an empty one |
| `TargetRegistry.BlankPatchPasses` | integrations/telegram/dashboard_api.py:1363-1373 | emptying the data path of an active target is accepted if and only if no other active target claims its account, and leaves it active without a path |
| `TargetRegistry.EveryTargetHasItsPath` | integrations/telegram/mt5_target_service.py:606-625 | over every run without such patches every target has a normalised data path |

## Left out

- FilesMoveOnlyWithTheArm: stated for no fault or a fault in the restoring window; what the other faults leave in the directory is the outcome table of the publish, and `ArmSpentIffAnnounced` says for all faults when the arm is spent.
- StartRoute: the Telegram client is only its answer, started or not; its connection, reconnects and shutdown, and the making of a missing root in dry runs, are not modelled.
- CreateMt5Target: the store's own checks (file names, account type, unique name) are one flag.
- PatchMt5Target: the same flag stands for the checks of the update.
- ThreeViewsAgree: the states inside a start or stop, before its sync, and between a worker's end and the next start are not looked at.
- ExtractSignalMeta: payloads with fractions, nested containers or lone surrogates read as unreadable, numerals with a plus sign or underscores are not integers, and the text of a list under symbol or side is dropped.
- PublishPair: raising rollback steps are covered only by the history of intermediate states; correlation keys are not modelled.
- Telethon, asyncio, HTTP, subprocesses, the worker's lock file, heartbeats and reconnect delays: operating-system behaviour; only the order of atomic steps is kept.
- SHA-256 is an injective constructor; that uuid4 suffixes are new and different is a precondition.
- Log lines other than the publisher's own last line, and database writes on existing rows, do not fail.
- The ignore-case patterns fold ASCII letters only; characters such as the long s are not folded.
- The file name `.` passes the source's name check (integrations/telegram/fasttrack_file_bridge.py:62-69), and a publish under it would hold, that is rename, the root directory itself; the map from names to files takes it for one more file.
- The JSON lines of standard input and the one-shot publish of the command line; a run of the plain matcher starts from typed events.
- File systems with symbolic links or case-insensitive names, and `assert_within_root`.
- Timestamps with years below 1000 or in forms other than the stored one.
- The two matcher classes repeat what the source inherits, since classes here do not inherit.
- Each database method is one transaction; `last_publish_status` and audit rows are not modelled, nor is the fingerprint shown in a ready event, which is an arbitrary element of a set.
- History filters and pages, `is_instance_ambiguous`, instance keys: each easy to read from its own body.
- The plain `/api/targets` create and patch, which check no conflicts at all.
- The vault, account probing, terminal discovery scans, Telegram login, masking and redaction, the browser script and the PowerShell tooling.
