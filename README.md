# SCADA tag, alarm and data-collector model

A Dafny model of the core of a small SCADA system. The system has four parts:

- **DataConcentrator.** Input and output tags (DI, DO, AI, AO). Their characteristics are gated by type. An analog-input tag owns threshold alarms, which move through an edge-triggered activate / acknowledge / reset cycle. A data collector keeps the tag registry, one scan timer per scan-enabled input tag, a running flag and the list of activated alarms.
- **PLC simulator.** A fixed map of 17 registers (address → value and type). Reads of an unknown address return -1. Writes to an unknown address are ignored. One digital generator toggles ADDR009.
- **GUI-side mock services.** An in-memory database of GUI tags and alarm definitions. A mock concentrator whose polling pass refreshes scanning tags from the PLC and keeps a level-triggered active-alarm list. That list is de-duplicated by (tag name, message). A tag's entries are cleared when none of its conditions holds.
- **GUI tag model.** The GUI tag keeps its characteristics in a string-keyed property bag, read and written through typed accessors.

Modules, one per source file or concern:

| module | models |
|---|---|
| `Common` | shared types (`Option`, `Result`, `Outcome`, `TagType`), blank-string checks, `List.Remove` on sequences |
| `Alarms` | DataConcentrator/Alarm.cs |
| `Tags` | DataConcentrator/Tag.cs |
| `Plc` | PLCSimulator/PLCSimulatorManager.cs |
| `Collector` | DataConcentrator/DataCollector.cs |
| `GuiModels` | ScadaGUI/Models/Tag.cs and ScadaGUI/Models/Alarm.cs |
| `MockDatabase` | ScadaGUI/Services/MockDatabaseService.cs |
| `MockConcentrator` | ScadaGUI/Services/MockDataConcentratorService.cs |

Objects whose fields the source updates in place are classes with `modifies` clauses:

- `Alarm`, `Tag` and `DataCollector`;
- `PlcSimulator`, `GuiTag` and the two mock services.

Each mutating method is tied to a pure function of the old state, for example:

- `TryActivateStep`, `StartTimer` and `StartEach`;
- `Marked`, `Records` and `ApplyWrites`;
- `Raise`, `Clear`, `Evaluate` and `ScanPass`.

The lemmas state what those functions mean.

A thrown exception is modelled as a returned `Fail(error)` or `Err(error)` whose error names the .NET exception type. A C# `double` is a `real`. The Threshold setter's NaN and infinity checks use a four-case `Double` datatype. `DateTime.Now` is a `Time` parameter. A running timer is an entry in a map from tag id to period. A timer firing is an explicit call of `ScanSingleTag`. The database is the map of stored tag ids and types, and every database write succeeds.

## Model

| member | source | states |
|---|---|---|
| Alarms.ConditionIsStrict | DataConcentrator/Alarm.cs:104-107 | a value equal to the threshold never triggers, for Above or Below |
| Alarms.AcceptedTextIsBounded | DataConcentrator/Alarm.cs:38-46 | the Id (and Message) setter accepts exactly non-null, non-blank text whose `Length` in UTF-16 code units is within the bound (50, 1000); for text inside the Basic Multilingual Plane that is the number of characters |
| Alarms.SupplementaryIdIsTooLong | DataConcentrator/Alarm.cs:42 | an Id of 26 supplementary characters (52 UTF-16 units) is refused |
| Common.Utf16Length | DataConcentrator/Alarm.cs:42 | `String.Length`: between one and two UTF-16 code units per character, two exactly for a supplementary character |
| Common.Utf16LengthOfBmp | DataConcentrator/Alarm.cs:42 | `Length` equals the number of characters exactly when none is supplementary |
| Common.Utf16LengthOfSupplementary | DataConcentrator/Alarm.cs:42 | `Length` is twice the number of characters for text made only of supplementary characters |
| Alarms.SetterDomains | DataConcentrator/Alarm.cs:50-74 | Threshold accepts exactly finite doubles; Trigger accepts exactly the two defined enum values |
| Alarms.ActiveAlarmDoesNotReactivate | DataConcentrator/Alarm.cs:108-121 | on an active alarm TryActivate returns false and changes nothing, whatever the value |
| Alarms.TryActivateSettles | DataConcentrator/Alarm.cs:108-121 | after one TryActivate, a second with the same condition cannot activate |
| Alarms.AcknowledgeIsIdempotent | DataConcentrator/Alarm.cs:124-132 | a second Acknowledge returns false and leaves the state as the first left it |
| Alarms.ResetIsGated | DataConcentrator/Alarm.cs:135-144 | Reset succeeds iff active, acknowledged and the condition no longer holds; it never changes IsAcknowledged |
| Alarms.ResetSettles | DataConcentrator/Alarm.cs:135-144 | a second Reset never succeeds |
| Alarms.StepsFollowTheCycle | DataConcentrator/Alarm.cs:108-144 | each successful call moves Inactive → Unacknowledged → Acknowledged → Inactive one phase; a failed call stays put |
| Alarms.TimeTracksActivityInvariant | DataConcentrator/Alarm.cs:93-144 | if the state changes only through the three transitions, ActivationTime is set exactly when IsActive, after any run of calls |
| Alarms.ActivationsAlternateWithResets | DataConcentrator/Alarm.cs:108-144 | over any run, activations and successful resets differ exactly by the change in IsActive |
| Alarms.AtMostOneActivationWithoutReset | DataConcentrator/Alarm.cs:108-121 | without a Reset, an alarm activates at most once, and never if it starts active |
| Alarms.EdgeTriggeredScenario | DataConcentrator/Alarm.cs:108-121 | Above 80 fed 50, 85, 85, 70 activates at the second value only |
| Alarms.AcknowledgeThenResetScenario | DataConcentrator/Alarm.cs:124-144 | Reset fails before Acknowledge whatever the value; after it, Reset at 70 clears the alarm and keeps it acknowledged |
| Alarms.Alarm.constructor | DataConcentrator/Alarm.cs:97-103 | allocation with accepted values: the given rule, cleared state, no TagId |
| Alarms.Alarm.Create | DataConcentrator/Alarm.cs:97-103 | the constructor fails with the first failing setter's exception (Id, Trigger, Threshold, Message order), otherwise yields a fresh cleared alarm with that rule |
| Alarms.Alarm.SetId | DataConcentrator/Alarm.cs:38-46 | throws on blank text or text over 50 UTF-16 units and keeps the old Id; otherwise stores it; either way an alarm whose Id and Message were accepted stays so |
| Alarms.Alarm.SetTrigger | DataConcentrator/Alarm.cs:52-57 | throws on an undefined enum value and keeps the old Trigger |
| Alarms.Alarm.SetThreshold | DataConcentrator/Alarm.cs:66-73 | throws ArgumentException on NaN or infinity and keeps the old Threshold |
| Alarms.Alarm.SetMessage | DataConcentrator/Alarm.cs:82-90 | throws on blank text or text over 1000 UTF-16 units and keeps the old Message; otherwise stores it; an accepted Id and Message stay accepted |
| Alarms.Alarm.SetIsActive | DataConcentrator/Alarm.cs:93 | the public IsActive setter stores the value and nothing else |
| Alarms.Alarm.TryActivate | DataConcentrator/Alarm.cs:108-121 | returns true iff it was inactive and the condition holds; then active, unacknowledged, stamped now; otherwise no change |
| Alarms.Alarm.Acknowledge | DataConcentrator/Alarm.cs:124-132 | returns true iff active and unacknowledged; then acknowledged; nothing else changes |
| Alarms.Alarm.Reset | DataConcentrator/Alarm.cs:135-144 | returns true iff active, acknowledged and the condition fails; then inactive with no ActivationTime; otherwise no change |
| Tags.TypeClassification | DataConcentrator/Tag.cs:107-130 | each type is exactly one of input/output and one of analog/digital; analog input is exactly AI |
| Tags.CharacteristicGates | DataConcentrator/Tag.cs:64-104 | ScanTime/OnOffScan allowed on DI and AI only, limits and units on AI and AO only, InitialValue on DO and AO only |
| Tags.WriteDomain | tester/NewTestProgram.cs:633-655 | a DO tag accepts exactly 0 and 1, an AO tag every value, input tags none |
| Tags.ShortNumeralsAreInRange | DataConcentrator/Tag.cs:255-256 | every decimal address of at most four digits passes the [0, 65535] check |
| Tags.FindAlarmIndex | DataConcentrator/Tag.cs:161 | the first alarm with the id, or -1 exactly when none has it |
| Tags.RemovedIdIsGone | DataConcentrator/Tag.cs:154-167 | with unique ids, removing the found alarm leaves no alarm with that id and ids stay unique |
| Tags.MarkedMembers | DataConcentrator/Tag.cs:183-189 | an alarm is in the collected list iff it sits at a marked position |
| Tags.MarkedNone | DataConcentrator/Tag.cs:183-189 | nothing is collected when nothing is marked |
| Tags.MarkedIsDistinct | DataConcentrator/Tag.cs:183-189 | collecting from a list without repetitions never collects twice |
| Tags.UniqueIdsAreDistinct | DataConcentrator/Tag.cs:145-151 | alarms with unique ids are distinct objects |
| Tags.ActivateEach | DataConcentrator/Tag.cs:183-189 | the loop: every alarm takes its TryActivate step; the result is the activated alarms in list order |
| Tags.ResetEach | DataConcentrator/Tag.cs:208-214 | the loop: every active and acknowledged alarm takes its Reset step, others are untouched; the result is the reset alarms in list order |
| Tags.ActiveAmong | DataConcentrator/Tag.cs:234-237 | exactly the active alarms, in list order and with their multiplicity: the list filtered by the IsActive marks |
| Tags.UnacknowledgedAmong | DataConcentrator/Tag.cs:239-242 | exactly the active, unacknowledged alarms, in list order and with their multiplicity |
| Tags.FiltersSelectExactly | DataConcentrator/Tag.cs:234-242 | an alarm is returned by each filter iff it is listed and meets the filter's condition; from a list without repetitions none is returned twice |
| Tags.Tag.constructor | DataConcentrator/Tag.cs:55-61 | the given type, id, description and address; no characteristics, no alarms |
| Tags.Tag.ValidateAndSetScanTime | DataConcentrator/Tag.cs:64-69 | outside DI/AI throws and keeps ScanTime; otherwise stores it; no other field changes |
| Tags.Tag.ValidateAndSetOnOffScan | DataConcentrator/Tag.cs:71-76 | outside DI/AI throws and keeps OnOffScan; otherwise stores it |
| Tags.Tag.ValidateAndSetLowLimit | DataConcentrator/Tag.cs:78-83 | outside AI/AO throws and keeps LowLimit; otherwise stores it |
| Tags.Tag.ValidateAndSetHighLimit | DataConcentrator/Tag.cs:85-90 | outside AI/AO throws and keeps HighLimit; otherwise stores it |
| Tags.Tag.ValidateAndSetUnits | DataConcentrator/Tag.cs:92-97 | outside AI/AO throws and keeps Units; otherwise stores it |
| Tags.Tag.ValidateAndSetInitialValue | DataConcentrator/Tag.cs:99-104 | outside DO/AO throws and keeps InitialValue; otherwise stores it |
| Tags.Tag.WriteValue | tester/NewTestProgram.cs:633-655 | an accepted value becomes the current value; a refused one throws and keeps it |
| Tags.Tag.AddAlarm | DataConcentrator/Tag.cs:133-152 | non-AI, null and duplicate id each throw and change nothing; otherwise appends exactly that alarm with TagId set; ids that were unique stay unique |
| Tags.Tag.RemoveAlarm | DataConcentrator/Tag.cs:154-167 | non-AI throws; unknown id returns false unchanged; otherwise removes the matching alarm and returns true |
| Tags.Tag.GetAlarm | DataConcentrator/Tag.cs:169-172 | the first alarm of the list with that id, or none exactly when no alarm has it |
| Tags.Tag.CheckAlarms | DataConcentrator/Tag.cs:174-192 | non-AI: empty and no change; otherwise TryActivate on every alarm, returning in list order exactly those that activated |
| Tags.Tag.ResetAlarms | DataConcentrator/Tag.cs:199-217 | non-AI: empty and no change; otherwise Reset on the active and acknowledged alarms, returning those reset |
| Tags.Tag.AcknowledgeAlarm | DataConcentrator/Tag.cs:219-232 | non-AI throws; unknown id returns false; otherwise Acknowledge on the found alarm only |
| Tags.Tag.ValidateConfiguration | DataConcentrator/Tag.cs:245-257 | passes iff id and description are non-blank within 50 and 300 UTF-16 code units and the address is in [0, 65535] |
| Tags.CheckAlarmsIsEdgeTriggered | DataConcentrator/Tag.cs:174-192 | a second CheckAlarms with the same value activates nothing |
| Tags.CheckAlarmsReturnsTheActivated | DataConcentrator/Tag.cs:174-192 | an alarm is returned iff it was inactive and its condition held; none is returned twice |
| Plc.ReadAfterWrite | PLCSimulator/PLCSimulatorManager.cs:121-148 | a read after a write to a known address returns the value; other addresses read as before |
| Plc.UnknownAddress | PLCSimulator/PLCSimulatorManager.cs:121-148 | writing an unknown address changes nothing; reading one gives -1 |
| Plc.WriteKeepsAddressesAndTypes | PLCSimulator/PLCSimulatorManager.cs:134-148 | writes never change the address set or a register's type |
| Plc.ToggleTouchesOnlyAddr009 | PLCSimulator/PLCSimulatorManager.cs:109-116 | one generator step maps ADDR009 0 → 1 and any other value → 0, touching no other register |
| Plc.ToggleTwice | PLCSimulator/PLCSimulatorManager.cs:109-116 | two steps bring ADDR009 to 0 if it was 0, else to 1 |
| Plc.PlcSimulator.constructor | PLCSimulator/PLCSimulatorManager.cs:39-72 | exactly the 17 registers with their types, all at 0 |
| Plc.PlcSimulator.SetAnalogValue | PLCSimulator/PLCSimulatorManager.cs:134-140 | writes a known address only; a later read returns the value, or -1 for an unknown address |
| Plc.PlcSimulator.SetDigitalValue | PLCSimulator/PLCSimulatorManager.cs:142-148 | the same as SetAnalogValue, with no check of the register's kind |
| Plc.PlcSimulator.GenerateDigitalStep | PLCSimulator/PLCSimulatorManager.cs:101-119 | one generator iteration is the toggle of ADDR009 |
| Plc.PlcSimulator.GetAllAddresses | PLCSimulator/PLCSimulatorManager.cs:163-166 | one (address, type) pair per register, each address once |
| Collector.ScanPeriodValues | DataConcentrator/DataCollector.cs:380 | unset scan time gives 1000 ms; an in-range one truncates; one the Timer refuses is below -1 or beyond int range |
| Collector.StartTimerEffect | DataConcentrator/DataCollector.cs:372-391 | no second timer for a present id; a new one runs at the tag's period, or the Timer constructor throws |
| Collector.ShouldScanExactly | DataConcentrator/DataCollector.cs:393-397 | scanned exactly when DI or AI with OnOffScan true |
| Collector.RequestsAreTheScannableTags | DataConcentrator/DataCollector.cs:363-366 | the ids StartAllTagTimers visits are exactly those of the scan-enabled input tags |
| Collector.StartEachEffect | DataConcentrator/DataCollector.cs:359-370 | starting all keeps existing timers, adds only requested ids, adds all of them on success; the only failure is ArgumentOutOfRange |
| Collector.StartEachSucceeds | DataConcentrator/DataCollector.cs:359-370 | when every period is accepted, starting all timers succeeds |
| Collector.TagAddress | DataConcentrator/DataCollector.cs:352-357 | always starts with "ADDR"; unchanged iff it already did, otherwise prefixed |
| Collector.TagAddressIsIdempotent | DataConcentrator/DataCollector.cs:356 | normalising twice equals normalising once |
| Collector.ReadTagValueOfInputs | DataConcentrator/DataCollector.cs:339-350 | through a simulator, AI and DI read their register, -1 for an unknown address |
| Collector.ReadThroughUnassignedFieldFails | DataConcentrator/DataCollector.cs:344-346 | through the null `plcSimulator` every read throws |
| Collector.Records | DataConcentrator/DataCollector.cs:488-493 | one record per fired alarm, in order, with its id, message, the tag id and the time |
| Collector.ApplyWritesKeepsLayout | PLCSimulator/PLCSimulatorManager.cs:134-148 | any run of writes keeps the address set and every type |
| Collector.InitWritesAreAccepted | DataConcentrator/DataCollector.cs:567-580 | initialisation writes only to output tags' addresses, only their InitialValue, only values the type accepts |
| Collector.FindTag | DataConcentrator/DataCollector.cs:111 | the first tag with that id, or -1 exactly when none has it |
| Collector.RemovalKeepsUniqueIds | DataConcentrator/DataCollector.cs:111-116 | removing the found tag keeps ids unique, drops that id only, and is `List.Remove` |
| Collector.AppendKeepsUniqueIds | DataConcentrator/DataCollector.cs:64-74 | appending a tag with a fresh id keeps ids unique |
| Collector.RemovalKeepsInvariant | DataConcentrator/DataCollector.cs:92-125 | RemoveTag keeps unique ids, stored ids, timers-of-listed-tags, no-timers-while-stopped, and timers only for scan-enabled input tags |
| Collector.RemovalKeepsListedIds | DataConcentrator/DataCollector.cs:102-117 | removing the row, the first tag with the id and its timer keeps the id and timer parts of the invariant, and the id is no longer listed |
| Collector.RemovalKeepsScannedTimers | DataConcentrator/DataCollector.cs:111-117 | after removing the tag and its timer, every remaining timer still belongs to a scan-enabled listed input tag |
| Collector.ScannableAfterRemoval | DataConcentrator/DataCollector.cs:115 | removing one tag keeps every other scan-enabled id scan-enabled |
| Collector.ScannableAfterAppend | DataConcentrator/DataCollector.cs:74 | appending a tag keeps every scan-enabled id and adds its own when it is scanned |
| Collector.AppendKeepsInvariant | DataConcentrator/DataCollector.cs:54-90 | AddTag keeps the collector invariant, and timers only for scan-enabled input tags; the appended tag's id is scan-enabled when it is scanned |
| Collector.ReplaceKeepsInvariant | DataConcentrator/DataCollector.cs:128-178 | UpdateTag's remove-then-append keeps the collector invariant and timers only for scan-enabled input tags |
| Collector.TimerStartKeepsInvariant | DataConcentrator/DataCollector.cs:372-391 | starting a listed tag's timer while running keeps the invariant; starting a scan-enabled one keeps timers only for scan-enabled input tags |
| Collector.StartAllKeepsInvariant | DataConcentrator/DataCollector.cs:359-370 | starting all timers while running keeps the invariant and timers only for scan-enabled input tags |
| Collector.DataCollector.constructor | DataConcentrator/DataCollector.cs:28-50 | the loaded tags, or none when loading throws; stopped, no timers, no activated alarms |
| Collector.DataCollector.Create | DataConcentrator/DataCollector.cs:28-33 | a null db, then a null plc, throws ArgumentNullException; with both present it yields a fresh, valid, stopped collector holding the loaded tags |
| Collector.DataCollector.StartTimerForTag | DataConcentrator/DataCollector.cs:372-391 | the timer map and outcome are those of StartTimer |
| Collector.DataCollector.StopTimerForTag | DataConcentrator/DataCollector.cs:270-278 | removes that id's timer, if any, and nothing else |
| Collector.DataCollector.AddTag | DataConcentrator/DataCollector.cs:54-90 | null and duplicate id throw and change nothing; otherwise stores and appends, with a timer exactly when running and scannable; timers stay only on scan-enabled input tags |
| Collector.DataCollector.RemoveTag | DataConcentrator/DataCollector.cs:92-125 | blank id throws; otherwise the id's row, first tag and timer go; other tags and timers stay; timers stay only on scan-enabled input tags |
| Collector.DataCollector.UpdateTag | DataConcentrator/DataCollector.cs:128-178 | null and unstored throw; a listed tag is replaced at the end with its timer restarted exactly when running and scannable; timers stay only on scan-enabled input tags |
| Collector.DataCollector.AddAlarmToTag | DataConcentrator/DataCollector.cs:183-227 | blank id, null alarm, unknown or non-AI stored tag throw; otherwise TagId set and the alarm appended to the listed tag only |
| Collector.DataCollector.RemoveAlarmFromTag | DataConcentrator/DataCollector.cs:230-268 | blank ids throw; otherwise the first alarm with that id leaves that tag only |
| Collector.DataCollector.SetTagScanning | DataConcentrator/DataCollector.cs:281-320 | unknown or output tag: no change; otherwise OnOffScan set, timer started if enabled and running, else stopped; timers stay only on scan-enabled input tags |
| Collector.DataCollector.StartAllTagTimers | DataConcentrator/DataCollector.cs:359-370 | the timer map and outcome are those of StartEach over the scan-enabled tags |
| Collector.DataCollector.Start | DataConcentrator/DataCollector.cs:322-337 | a no-op while running; otherwise outputs initialised and, on success, timers for exactly the scannable ids, and never for others; corrected: the initial values also reach the PLC registers |
| Collector.DataCollector.StartStopped | DataConcentrator/DataCollector.cs:329-334 | from stopped: running, outputs initialised, timers as StartEach from empty, only on scan-enabled input tags; corrected: the registers take the initial values |
| Collector.DataCollector.Stop | DataConcentrator/DataCollector.cs:421-435 | afterwards stopped with no timers, whether or not it was running |
| Collector.DataCollector.StopAllTimers | DataConcentrator/DataCollector.cs:437-449 | the timer map is empty |
| Collector.DataCollector.SaveActivatedAlarm | DataConcentrator/DataCollector.cs:488-503 | appends one record for the alarm |
| Collector.DataCollector.ProcessTagValue | DataConcentrator/DataCollector.cs:452-486 | stores the value; for AI appends one record per alarm CheckAlarms activated; otherwise no alarm changes |
| Collector.DataCollector.SaveActivatedAlarms | DataConcentrator/DataCollector.cs:473-483 | the loop appends Records of the fired alarms |
| Collector.DataCollector.ScanSingleTag | DataConcentrator/DataCollector.cs:399-419 | corrected: while running and scannable, reads through the simulator and stores the value; an AI tag's alarms each take their TryActivate step, with one record per activation; one ValuesUpdated; else no value, alarm, record or event changes |
| Collector.DataCollector.ScanSingleTagAsWritten | DataConcentrator/DataCollector.cs:399-419 | as written: with `plcSimulator` null, no value, no alarm, no event ever results |
| Collector.DataCollector.WriteToPlc | DataConcentrator/DataCollector.cs:535-554 | corrected: AO and DO write their normalised address; other types write nothing |
| Collector.DataCollector.WriteToPlcAsWritten | DataConcentrator/DataCollector.cs:538 | as written: with `plcSimulator` null no register changes |
| Collector.DataCollector.WriteTagValueAsWritten | DataConcentrator/DataCollector.cs:506-538 | as written: an accepted write sets the tag's value, yet no PLC register changes |
| Collector.DataCollector.WriteTagValue | DataConcentrator/DataCollector.cs:506-533 | unknown id, non-output tag or refused value: no change and no exception; otherwise the tag's value is written and, corrected, its register too |
| Collector.DataCollector.GetTagValue | DataConcentrator/DataCollector.cs:557-564 | null for an unknown id, else the first such tag's current value |
| Collector.DataCollector.InitializeOutputTag | DataConcentrator/DataCollector.cs:571-578 | one iteration: an output tag's accepted InitialValue is written to it and, corrected, to its register |
| Collector.DataCollector.InitializeOutputTags | DataConcentrator/DataCollector.cs:567-580 | every output tag holds its accepted InitialValue; corrected: the registers are the old ones with InitWrites applied in order |
| GuiModels.Lookup | ScadaGUI/Models/Tag.cs:34-46 | the stored object, none exactly when the key is missing or holds null |
| GuiModels.LookupAfterStore | ScadaGUI/Models/Tag.cs:48-52 | a stored key reads back its value; other keys read as before |
| GuiModels.MissingKeysReadAsNull | ScadaGUI/Models/Tag.cs:34-46 | missing keys read as null through every accessor |
| GuiModels.AccessorsRoundTrip | ScadaGUI/Models/Tag.cs:27-32 | every accessor reads back what its setter stored, null included |
| GuiModels.AccessorsAreIndependent | ScadaGUI/Models/Tag.cs:27-32 | a write through one accessor leaves the other five unchanged |
| GuiModels.GuiTag.constructor | ScadaGUI/Models/Tag.cs:10-25 | the given name, type, address and description; empty bag, null current value |
| GuiModels.GuiTag.SetCurrentValue | ScadaGUI/Models/Tag.cs:14-18 | sets the value; the bag is unchanged |
| GuiModels.GuiTag.SetValue | ScadaGUI/Models/Tag.cs:48-52 | adds or overwrites one key; other keys and the current value unchanged |
| GuiModels.GuiTag.SetLowLimit | ScadaGUI/Models/Tag.cs:27 | writes key "LowLimit" only; LowLimit reads it back |
| GuiModels.GuiTag.SetHighLimit | ScadaGUI/Models/Tag.cs:28 | writes key "HighLimit" only; HighLimit reads it back |
| GuiModels.GuiTag.SetUnits | ScadaGUI/Models/Tag.cs:29 | writes key "Units" only; Units reads it back |
| GuiModels.GuiTag.SetScanTime | ScadaGUI/Models/Tag.cs:30 | writes key "ScanTime" only; ScanTime reads it back |
| GuiModels.GuiTag.SetIsScanning | ScadaGUI/Models/Tag.cs:31 | writes key "IsScanning" only; IsScanning reads it back |
| GuiModels.GuiTag.SetInitialValue | ScadaGUI/Models/Tag.cs:32 | writes key "InitialValue" only; InitialValue reads it back |
| GuiModels.GuiAlarm.constructor | ScadaGUI/Models/Alarm.cs:7-13 | the given tag name, type, limit and message |
| Common.RemoveFirst | ScadaGUI/Services/MockDatabaseService.cs:88 | `List.Remove`: unchanged when absent, else the first occurrence is dropped and the rest keeps its order |
| MockDatabase.StartingValue | ScadaGUI/Services/MockDatabaseService.cs:79 | the InitialValue characteristic if set, else 0 |
| MockDatabase.DeleteFromDistinct | ScadaGUI/Services/MockDatabaseService.cs:88 | deleting from a list without repetitions removes exactly that object |
| MockDatabase.DeleteIsMultisetRemoval | ScadaGUI/Services/MockDatabaseService.cs:88 | deleting removes one occurrence of the object and keeps every other element |
| MockDatabase.NewSineWave | ScadaGUI/Services/MockDatabaseService.cs:15-27 | the SINE_WAVE seed tag |
| MockDatabase.NewRampSignal | ScadaGUI/Services/MockDatabaseService.cs:28-40 | the RAMP_SIGNAL seed tag |
| MockDatabase.NewSwitch1 | ScadaGUI/Services/MockDatabaseService.cs:41-50 | the SWITCH_1 seed tag |
| MockDatabase.NewMotorSpeed | ScadaGUI/Services/MockDatabaseService.cs:51-63 | the MOTOR_SPEED seed tag |
| MockDatabase.MockDatabaseService.constructor | ScadaGUI/Services/MockDatabaseService.cs:12-66 | exactly the four seed tags and the Above-85 alarm on RAMP_SIGNAL |
| MockDatabase.MockDatabaseService.GetTags | ScadaGUI/Services/MockDatabaseService.cs:68 | the same tags in the same order |
| MockDatabase.MockDatabaseService.GetAlarms | ScadaGUI/Services/MockDatabaseService.cs:69 | the same alarms in the same order |
| MockDatabase.MockDatabaseService.AddTag | ScadaGUI/Services/MockDatabaseService.cs:71-86 | appends one new tag copying name, type, address, description and every characteristic, starting at InitialValue ?? 0 |
| MockDatabase.MockDatabaseService.DeleteTag | ScadaGUI/Services/MockDatabaseService.cs:88 | `List.Remove` of that tag; it is no longer listed |
| MockDatabase.MockDatabaseService.AddAlarm | ScadaGUI/Services/MockDatabaseService.cs:89 | appends a new copy with the same tag name, type, limit and message |
| MockDatabase.MockDatabaseService.DeleteAlarm | ScadaGUI/Services/MockDatabaseService.cs:90 | `List.Remove` of that alarm |
| MockConcentrator.RaiseAppends | ScadaGUI/Services/MockDataConcentratorService.cs:42-61 | raising only appends entries of the tag, each for a holding alarm of the tag |
| MockConcentrator.RaiseWithoutHolding | ScadaGUI/Services/MockDataConcentratorService.cs:42-61 | when no condition of the tag holds, raising changes nothing |
| MockConcentrator.RaiseCovers | ScadaGUI/Services/MockDataConcentratorService.cs:45-58 | after raising, every holding alarm of the tag has an entry |
| MockConcentrator.RaiseCoveredIsNoop | ScadaGUI/Services/MockDataConcentratorService.cs:49 | nothing is appended when every holding alarm already has an entry |
| MockConcentrator.RaiseKeepsUniquePairs | ScadaGUI/Services/MockDataConcentratorService.cs:49-58 | raising never lists a (tag name, message) pair twice |
| MockConcentrator.ClearKeepsOthers | ScadaGUI/Services/MockDataConcentratorService.cs:63-70 | clearing removes every entry of the tag and keeps exactly the others, in order |
| MockConcentrator.MatchingIsOfTag | ScadaGUI/Services/MockDataConcentratorService.cs:65 | the selected entries all belong to the tag |
| MockConcentrator.NoMatchIsClear | ScadaGUI/Services/MockDataConcentratorService.cs:63-70 | with no entry for the tag, clearing changes nothing |
| MockConcentrator.ClearKeepsUniquePairs | ScadaGUI/Services/MockDataConcentratorService.cs:63-70 | clearing keeps pairs unique |
| MockConcentrator.RemoveFirstMatch | ScadaGUI/Services/MockDataConcentratorService.cs:66-69 | removing the first selected entry advances towards the cleared list |
| MockConcentrator.EvaluateMeaning | ScadaGUI/Services/MockDataConcentratorService.cs:39-70 | null value: no change; some condition holds: entries for all holding alarms; none: the tag's entries are gone; other tags untouched |
| MockConcentrator.EvaluateIsIdempotent | ScadaGUI/Services/MockDataConcentratorService.cs:39-70 | evaluating a tag twice with the same value equals evaluating it once |
| MockConcentrator.PassKeepsUniquePairs | ScadaGUI/Services/MockDataConcentratorService.cs:31-72 | a whole pass keeps the active list free of duplicate pairs |
| MockConcentrator.MockDataConcentratorService.constructor | ScadaGUI/Services/MockDataConcentratorService.cs:20-27 | the given database and simulator; no active alarms |
| MockConcentrator.MockDataConcentratorService.ReadValuesFromPLC | ScadaGUI/Services/MockDataConcentratorService.cs:29-75 | each scanning tag takes its register's value; the active list is ScanPass over the tags in order; ValuesUpdated fires once |
| MockConcentrator.MockDataConcentratorService.ScanTags | ScadaGUI/Services/MockDataConcentratorService.cs:31-72 | the outer foreach: values as read, active list as ScanPass |
| MockConcentrator.MockDataConcentratorService.ScanTag | ScadaGUI/Services/MockDataConcentratorService.cs:33-71 | one tag: its value as read, the active list as Evaluate |
| MockConcentrator.MockDataConcentratorService.EvaluateAlarms | ScadaGUI/Services/MockDataConcentratorService.cs:39-71 | the alarm foreach and the clear: the active list as Evaluate |
| MockConcentrator.MockDataConcentratorService.RemoveAlarmsOf | ScadaGUI/Services/MockDataConcentratorService.cs:63-70 | removing the selected entries one by one leaves Clear of the list |
| MockConcentrator.MockDataConcentratorService.GetActiveAlarms | ScadaGUI/Services/MockDataConcentratorService.cs:78 | the active list itself |

## Left out

- Entity Framework persistence (ContextClass, `SaveChanges`, `LoadConfiguration`'s query, `SaveCurrentValueToDatabase`, the database half of `SaveActivatedAlarm`): a foreign library. The Tags table is the map `storedTags` of ids to types, and every write is assumed to succeed. The `Alarms` and `ActivatedAlarms` tables are not modelled.
- Locks, `volatile`, `System.Threading.Timer` and `System.Timers.Timer` callbacks, the generator threads, `StartPLCSimulator` and `Abort`: concurrency. A timer tick is an explicit `ScanSingleTag` or `ReadValuesFromPLC` call; a digital generator iteration is `GenerateDigitalStep`.
- `GeneratingAnalogInputs` and `RandomNumberBetween`: floating-point waveforms of the clock and a random source.
- `DateTime.Now`: a `Time` parameter.
- Console output, `PropertyChanged` notification and the `AlarmTriggered` event. `ValuesUpdated` is a ghost counter of raised events.
- `GetTags` of DataCollector (a database query), `Stop` of the GUI mock service (timer disposal), and MockDataConcentratorService's `GetTags`, which forwards to the database.
- ProcessTagValue: the unused `ActivatedAlarm` built in the foreach (DataConcentrator/DataCollector.cs:477-482) has no effect and is not modelled.
- GuiModels.Lookup: `Convert.ChangeType` is not modelled. A stored value of another kind than the accessor's reads as absent instead of being converted, or throwing.
- GuiModels.GuiTag: Name, Type, IOAddress and Description are set only by object initialisers here, so they are `const` fields; GuiModels.GuiAlarm likewise.
- Tags.Tag: IOAddress is declared `int` in DataConcentrator/Tag.cs:34 but used as a string by DataCollector.cs:356 and the tests. It is a string here; `ValidateConfiguration`'s [0, 65535] check reads it as a decimal numeral, and any other text fails.
- Tags.Tag: `Id` and `Type` have public setters in DataConcentrator/Tag.cs:27 and 37, but the model makes them `const`. Unique tag ids and "timers only for input tags" rely on that; a caller renaming or retyping a listed tag is not modelled.
- Collector.TagAddress: `StartsWith("ADDR")` without a StringComparison compares culture-sensitively in .NET. The model compares character by character, which differs only for characters the culture ignores.
- Collector.DataCollector.TimersOnlyForScannable: callers hold the Tag objects and may change OnOffScan directly, so "every timer belongs to a scan-enabled input tag" is not part of `Valid`; each collector operation is proved to keep it, and Start and Stop establish it.
- Tags.Tag.WriteValue, Tags.Tag.GetCurrentValue and the `CurrentValue` field are used by DataCollector.cs but declared in no file of this model's sources. They follow the behaviour the repository's tests expect: an input tag refuses any write, and a DO tag refuses any value other than 0 and 1.
- Plc.PlcSimulator.constructor: PLCSimulatorManager.cs:42 assigns a `Dictionary<string, (double value, TagType type)>` to the `Dictionary<string, TagValue>` field declared at line 34, which does not compile. The model follows the declared field type, a map from address to value and type, which the `Add` calls at lines 45-61 fill.
- Plc.PlcSimulator.GetDigitalValue: called by DataCollector.cs:346 but not declared in PLCSimulatorManager.cs; it is the same lookup as `GetAnalogValue`.
- Collector.DataCollector.AddAlarmToTag: the source appends to the in-memory tag with no duplicate-id check and relies on the database key. The model does not prove that AddAlarmToTag keeps alarm ids unique. `Tags.Tag.RemoveAlarm`, `Tags.Tag.CheckAlarms`, `Tags.Tag.ResetAlarms` and `Collector.DataCollector.ScanSingleTag` require unique alarm ids (`Tag.Valid`), so the model says nothing about them on a tag that AddAlarmToTag gave a duplicate id. `Tags.Tag.AddAlarm` needs no such requirement; it keeps the ids unique when they were unique before.
- Tags.Tag.ValidateConfiguration: the tag's `id` and `description` are strings and never null, so the branch where `string.IsNullOrWhiteSpace` throws on a null Id or Description (DataConcentrator/Tag.cs:247, 251) is not modelled; only blank and over-long text fail.
- Collector.DataCollector.UpdateTag: the source copies `CharacteristicsJson`, which DataConcentrator/Tag.cs does not declare. The database half is not modelled.
- Collector.DataCollector.Start: when a Timer constructor throws part-way (a scan time below -1 ms or beyond the int range), the timers already started stay running and the collector stays marked running. The model returns the failure with those timers and promises the exact timer set only on success.
- The console test programs are not modelled. Where their expectations contradict the code, the model follows the code:
  - an unknown id in `SetTagScanning` is ignored, not rejected;
  - the LowLimit setter has no NaN check;
  - a refused `WriteTagValue` is swallowed.
- NaN and infinity outside Threshold: ScanTime, LowLimit, HighLimit, InitialValue and the values read or written are `real`, which has neither. So the model cannot show that a NaN ScanTime casts to int.MinValue, which makes the Timer constructor in `StartTimerForTag` throw ArgumentOutOfRangeException, nor that a NaN or infinite limit or value is stored.
- The WPF view models and views, the report service and the converters: presentation code.

## Findings

| source | as written | input that shows it | evidently intended | confidence | as-written member | corrected member |
|---|---|---|---|---|---|---|
| DataConcentrator/DataCollector.cs:19 | `plcSimulator` is declared and never assigned; `ReadTagValue` reads through it (lines 344-346) and the NullReferenceException is swallowed by `ScanSingleTag` (lines 415-418) | a running collector with an AI tag whose OnOffScan is true: every scan tick leaves CurrentValue, the alarms and `_activeAlarms` unchanged and raises no ValuesUpdated | read through `_plc`, the simulator the constructor receives | not executed | Collector.DataCollector.ScanSingleTagAsWritten | Collector.DataCollector.ScanSingleTag |
| DataConcentrator/DataCollector.cs:538 | `WriteToPLCSimulator` returns at once because `plcSimulator` is null | `WriteTagValue("MOTOR", 50)` on an AO tag at ADDR005: the tag's value becomes 50 but the register ADDR005 stays 0 | write through `_plc` | not executed | Collector.DataCollector.WriteTagValueAsWritten | Collector.DataCollector.WriteTagValue |
