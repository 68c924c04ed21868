# Verification of the thermal, power and backlight control of a Lenovo LOQ 83SC

Dafny models of what the repository's driver, boot service, command-line tool, GUI and
keyboard daemon do to one machine, and proofs of what their parts keep, alone and
together.

| module | models |
|---|---|
| MachineInts | 8-, 16- and 32-bit integers of the C code |
| EcPorts, EcRaces | the index/data port sequence to EC RAM under its mutex, as a step machine of any number of threads, refining an atomic byte memory, and what happens without the mutex (ITE IT8502E/F/G datasheet, section 6.2) |
| ByteTable, FanCurve, EcCurve, EcOtherLayouts, EcBytes | fan tables in EC RAM: register layouts, the in-memory curve, the sysfs store and show on top, and what they do to each byte |
| SpeedCodec, FanRequest | the integer codecs between PWM, stored speed and rpm, and their composition with userland's rounding |
| CapData, DiscreteGroups, PowerLimits | clamping a power limit in the driver's 32-bit arithmetic, building the discrete-value tables, and the PL1/PL2 coupling |
| TopDown, Descending | the order in which a temperature table is replaced, and loops from the highest item down |
| BootText, BootReplay, BootRestore, BootLines, RejectingReplay, CurveConf | the snapshot as text, its parser, its replay at boot and exit code, on a firmware that rejects disordered tables too, and the older curve.conf route |
| GuiHardware, PollLoop, Following, PollOutcome | the GUI's hardware writes, its poll loop, which profile each change applies, which one wins, and what a reboot keeps of it |
| BootSnapshot | freshness of the snapshot under failing saves and outside changes |
| Profiles, ProfileEdits | the configuration callbacks, save and load |
| IdleDimmer, UserChanges | the keyboard daemon, with signals in flight, a rival writer and the user |

Code that updates state is a class or a method with loops, specified by a function; the
theorems are about those functions, runs of them, and compositions across modules. The
longest chain is `PollOutcome.WinnerSurvivesRebootIff`: poll loop, GUI writes, driver
clamp and codec, snapshot printer, parser and replay.

Check everything with `dafny verify dfyconfig.toml`.

## Where the code differs from its own words

- bin/83sc-fan:147-149 and gui/src/hw.rs:250-252 say writing from the top never inverts
  temperatures. It does exactly when some old temperature exceeds the new one of the next
  point (`TopDown.TopDownNeverInvertsIff`, `TopDown.FactoryToPresetInverts`).
- driver/legion-laptop.c:3458-3481 is named for setting the size of a curve and never
  assigns it (`EcCurve.SizeStoreNeverResizes`).
- `clamp_t(u8, ...)` at driver/legion-laptop.c:3316-3329 casts before it clamps, so a
  speed above 255 wraps (`SpeedCodec.CastLosesNothingIff`, `SpeedCodec.CastWraps`).
- systemd/83sc-thermal.sh:107-108 says nothing can drift on the way back in: true of
  boot.conf up to 25500 rpm (`BootRestore.CurveNeverDriftsIff`), not of curve.conf
  (`CurveConf.ConfNeverDriftsIff`, `CurveConf.ConfRaisesPresetSpeed`).
- kbd-idle/src/main.rs:173-176 expects one write of KDE after a resume. It is expected only
  if KDE's first zero was handled before the resume; otherwise KDE's restore leaves the
  keyboard dark (`IdleDimmer.KdeRestoreEndsLitIff`, `IdleDimmer.ResumeBeforeNoticeLeavesDark`).
- gui/src/main.rs:1073-1074 wants every change to reach the snapshot; a save that fails is
  forgotten (`BootSnapshot.FailedSaveIsNotRetried`), and a firmware limit pushed by a store
  that then fails is never saved (`PollLoop.FailedStoreStalesBoot`).
- driver/legion-laptop.c:6175-6189 couples the limits, but not those of stores that overlap,
  even of one and the same limit (`PowerLimits.OverlapOrderedIff`).
- A store to a fan point beyond the size reports success and its value is cleared by the write that
  follows (`EcBytes.StoreBeyondSizeIsLost`).
- A snapshot does not restore a machine saved outside mode 255 or with full speed on, since
  replaying the curve forces the one and clears the other (`BootRestore.ReplayRestoresIff`).
- A limit set while the driver knows another mode is clamped by that mode's range, and may
  not be put back in custom mode (`PollOutcome.AnsweredWinnerSurvivesIff`,
  `PollOutcome.ClampedInAnotherModeIsLost`).

## Model

| member | source | states |
|---|---|---|
| EcPorts.EcRam.PortRead | driver/legion-laptop.c:3043-3067 | returns the RAM byte at the 16-bit offset and changes no RAM byte, from any state the index registers were left in |
| EcPorts.EcRam.PortWrite | driver/legion-laptop.c:3074-3100 | changes exactly the byte at the offset |
| EcPorts.EcRam.ReadByte | driver/legion-laptop.c:3138-3147 | the same through the wrapper that truncates the address to 16 bits |
| EcPorts.EcRam.WriteByte | driver/legion-laptop.c:3149-3162 | the same for writes |
| EcPorts.AccessLeads | driver/legion-laptop.c:2979-3018 | each single port access of a call leads the controller exactly one stage further, and only the last one of a write reaches RAM |
| EcPorts.ProgramRuns | driver/legion-laptop.c:2979-3100 | an uninterrupted port sequence performs exactly its read or write from any state of the controller's registers |
| EcPorts.StepRefines | driver/legion-laptop.c:3043-3100 | every step of any thread is one step of an atomic byte memory with the same observable label, or changes nothing observable |
| EcPorts.PortsRefineAtomicMemory | driver/legion-laptop.c:3043-3100 | for any number of threads and any interleaving at single port accesses under the mutex, callers see exactly a run of an atomic byte memory |
| EcPorts.ReadsSeeLatestWrite | driver/legion-laptop.c:3043-3100 | in every such run each completed read got the latest write to its offset that took effect before it, and no write changed another byte |
| EcPorts.UnlockedAddressesMix | driver/legion-laptop.c:3043-3100 | without the mutex the address bytes of two calls do mix: a concrete interleaving stores at an address nobody asked for |
| EcRaces.MutexIsNeeded | driver/legion-laptop.c:3043-3100 | the mutex is needed for any two calls: there is a RAM content and an interleaving of their port accesses whose outcome, bytes read and RAM, is that of neither order |
| EcRaces.LatchIsMoved | driver/legion-laptop.c:3043-3100 | a call whose last access comes after the whole of another acts at the other's offset |
| EcRaces.AddressIsStored | driver/legion-laptop.c:3043-3067 | two reads alone can write: an address byte of one is stored at the other's offset |
| SpeedCodec.RpmHundredIsExact | driver/legion-laptop.c:3323-3330 | no 32-bit intermediate result of the hundreds-of-rpm unit wraps: storing is the ceiling and showing the floor |
| SpeedCodec.RpmAdjunction | driver/legion-laptop.c:3323-3366 | set(p) <= s if and only if p <= get(s), for all p, s and every positive maximum |
| SpeedCodec.RpmCodecCollapses | driver/legion-laptop.c:3323-3366 | set after get after set is set, get after set after get is get |
| SpeedCodec.RpmRoundTripIffSmallMax | driver/legion-laptop.c:3323-3366 | set(get(s)) = s for every s up to the maximum if and only if the maximum is at most 25500 rpm |
| SpeedCodec.CastLosesNothingIff | driver/legion-laptop.c:3324-3329 | the setter, its u8 cast before the clamp included, stores the exact ceiling of every legal PWM value if and only if the maximum is at most 25500 rpm |
| SpeedCodec.CastWraps | driver/legion-laptop.c:3324-3329 | above it the setter wraps: full speed on the fastest fan is stored as 144, not 656 and not 255 |
| SpeedCodec.StoredIsCeil | driver/legion-laptop.c:3295-3337 | below that bound the setter with its cast stores the exact ceiling |
| SpeedCodec.StoredSpeedSurvives | driver/legion-laptop.c:3295-3373 | setter after getter, with casts and 32-bit arithmetic, returns every in-range speed |
| SpeedCodec.SpeedReturnsIff | driver/legion-laptop.c:3295-3373 | for every maximum and every stored byte, what is shown is legal and stored as the same byte if and only if 25500 s < 256 max and 25500 s mod max < 25500 |
| SpeedCodec.CycleIsTheDriver | driver/legion-laptop.c:3310-3358 | the cycle studied for the percent units is what setter after getter computes, exactly for speeds up to 100 |
| SpeedCodec.NearestNeverDrifts | driver/legion-laptop.c:3314-3319 | the nearest percent form keeps every speed over any number of cycles |
| SpeedCodec.TruncatingDriftsToMultipleOf20 | driver/legion-laptop.c:3310-3313 | the truncating percent form goes from s to max(s - n, 20*(s/20)) after n cycles |
| SpeedCodec.AcceptedIff | driver/legion-laptop.c:3295-3309 | every unit accepts exactly the values 0 to 255 |
| SpeedCodec.PercentRoundsDown | driver/legion-laptop.c:3310-3313 | for every PWM value the percent unit stores the percentage rounded down |
| SpeedCodec.NearestIsNearest | driver/legion-laptop.c:3314-3319 | for every PWM value the nearest form stores the nearest percentage |
| SpeedCodec.PercentShows | driver/legion-laptop.c:3354-3358 | both show a percentage as a PWM value rounded down |
| SpeedCodec.PwmIsItself | driver/legion-laptop.c:3320-3322 | the PWM unit stores and shows the value itself |
| FanCurve.Fancurve.SetSpeedPwm | driver/legion-laptop.c:3295-3337 | stores the codec's value in one fan's speed of one point and changes nothing else, or refuses and changes nothing |
| FanCurve.Fancurve.SetLevel | driver/legion-laptop.c:3377-3456 | stores one level field within its limits and changes nothing else, or refuses |
| FanCurve.Fancurve.SetSize | driver/legion-laptop.c:3458-3481 | initialises points for the requested size (a smaller one tops the maxima of its last point, a larger one copies the last point in use) and never assigns the size itself |
| ByteTable.WriteRowsWrites | driver/legion-laptop.c:4255-4289 | for any table of pairwise different cells, writing all rows leaves each cell its own value and every other byte alone |
| EcCurve.ReadFancurveLegion | driver/legion-laptop.c:4198-4242 | loads the curve LegionRead defines on the RAM and leaves max_rpm as it was |
| EcCurve.WriteFancurveLegion | driver/legion-laptop.c:4244-4301 | leaves the RAM LegionWritten defines; `EcBytes.WrittenByte` and `EcBytes.WriteResets` give its bytes |
| EcCurve.WriteThenRead | driver/legion-laptop.c:4198-4301 | on any well-placed register table, reading after writing gives every point below the size, zeros above it, and level 0 |
| EcCurve.StoreTouchesOnlyItsRegisters | driver/legion-laptop.c:4244-4301 | no EC byte outside the table, the size and the reset registers changes |
| EcCurve.AutopointStore | driver/legion-laptop.c:7605-7712 | the read-modify-write of one store, with every refusal: a point outside the curve, a bad value, an unparsable text |
| EcCurve.AutopointShow | driver/legion-laptop.c:7536-7603 | what a show returns for any point and attribute, changing no RAM byte |
| EcCurve.StoreThenShow | driver/legion-laptop.c:7536-7712 | after an accepted store the same attribute shows the value, a speed encoded with the maximum the store found in its uninitialised curve and decoded with the one the show found; every other attribute of every point below the size shows what it showed before |
| EcCurve.ShowsFollowPoints | driver/legion-laptop.c:7536-7712 | the same on curves: reading back what a store wrote shows the new field through the codec, every other field below the size as it would have been read, and zero above the size |
| EcCurve.FieldsAreIndependent | driver/legion-laptop.c:3377-3456 | setting one attribute leaves all others of the point |
| EcCurve.StoreAcceptedIff | driver/legion-laptop.c:7605-7712 | a store is accepted if and only if the point exists, the text parsed, the value passes its validator and, for the two speeds only, the point is below the size |
| EcCurve.SizeStoreNeverResizes | driver/legion-laptop.c:3458-3481 | no request changes the size later reads find; a smaller one only tops three temperatures of its last point |
| EcCurve.V0IsPlaced | driver/legion-laptop.c:295-326 | the v0 register table satisfies the placement the theorems need, so they hold for it |
| EcBytes.V0Bases | driver/legion-laptop.c:295-326 | the v0 registers, address by address |
| EcBytes.StoreWritesByte | driver/legion-laptop.c:7605-7712 | an accepted store to a point in use puts the value, a speed as the setter encodes it, in the one byte of its field and point, keeps every other byte of the points in use, and clears those of the others |
| EcBytes.StoreBeyondSizeIsLost | driver/legion-laptop.c:4255-4289 | a store to a point beyond the size is refused for a speed and otherwise succeeds and is lost: the points in use keep every byte, the others are cleared, the one just stored included |
| EcBytes.SizeStoreBytes | driver/legion-laptop.c:3458-3481 | an accepted size leaves the size byte as it was found, capped, and tops the CPU, GPU and IC maxima of its last point at 127 if it is smaller; no other byte of a point in use changes |
| EcBytes.ShowReadsByte | driver/legion-laptop.c:7536-7603 | a show reads the one byte of its field and point: temperatures and times as they are, speeds in use through the maximum, the size capped at ten |
| EcBytes.LevelIsCapped | driver/legion-laptop.c:4233-4241 | the level a curve is read with is its register capped at the size |
| EcBytes.WrittenByte | driver/legion-laptop.c:4253-4284 | after a write of a curve each byte of the table is its field of its point, or 0 for a point beyond the size |
| EcBytes.WriteResets | driver/legion-laptop.c:4251-4301 | every write of a curve leaves 0 in 0xC5FE, 0xC5FF, the level register, 0xC634, 0xC635 and 0xC636, on any placed table |
| EcBytes.StoreResets | driver/legion-laptop.c:7605-7712 | and so does every accepted store |
| EcBytes.Written2024Bytes | driver/legion-laptop.c:4564-4588 | the six bytes of each point on the 2024 layout, by address: each fan's entry repeats both temperatures |
| EcBytes.WrittenIdeapadBytes | driver/legion-laptop.c:4344-4408 | the ten bytes of each IdeaPad point, by address, every temperature twice, and the update counters reset |
| EcBytes.WrittenLoqBytes | driver/legion-laptop.c:4464-4527 | the eight staging bytes of each LOQ point, by address |
| EcBytes.LoqWriteExecutes | driver/legion-laptop.c:4464-4527 | bit 4 of the LOQ command register is raised and its other bits stay |
| EcOtherLayouts.WriteThenRead2024 | driver/legion-laptop.c:4529-4588 | on the 2024 layout speeds and two temperatures survive, all else reads zero, only the sixty cells change |
| EcOtherLayouts.WriteThenReadIdeapad | driver/legion-laptop.c:4305-4408 | on the IdeaPad layout eight points survive, and the level shown is the first fan speed because the two registers coincide |
| EcOtherLayouts.LoqWriteIsStaged | driver/legion-laptop.c:4464-4527 | a LOQ write changes only staging cells and the execute bit, so an immediate read still finds the old live speeds |
| EcOtherLayouts.TableLoqIsDisjoint | driver/legion-laptop.c:463-527 | no two cells of the LOQ tables coincide |
| EcOtherLayouts.TableIdeapadIsDisjoint | driver/legion-laptop.c:397-428 | no two cells of the IdeaPad table coincide |
| EcOtherLayouts.Table2024IsDisjoint | driver/legion-laptop.c:4529-4588 | no two cells of the 2024 table coincide |
| EcOtherLayouts.WriteFancurveLoq | driver/legion-laptop.c:4464-4527 | leaves the RAM the LOQ layout defines |
| EcOtherLayouts.WriteFancurveIdeapad | driver/legion-laptop.c:4344-4408 | leaves the RAM the IdeaPad layout defines |
| EcOtherLayouts.WriteFancurve2024 | driver/legion-laptop.c:4564-4588 | leaves the RAM the 2024 layout defines |
| CapData.CapdataClamp | driver/legion-laptop.c:2791-2819 | the clamp in the kernel's mixed signed and unsigned 32-bit arithmetic: the request itself without a capability or values, with step 0 an advertised value none is nearer than, and otherwise the nearest grid point one step inside int |
| CapData.SteppedIsNearestIff | driver/legion-laptop.c:2791-2819 | on every range of ints, however narrow: the answer is the nearest grid point clamped to the range if and only if the snapped value, taken without wrapping, is an int, or the range is one value, or the value carried around from below is not above the minimum; with two grid points or more, only the first |
| CapData.SteppedIsNearest | driver/legion-laptop.c:2791-2819 | on every range of ints, however narrow, every request one step inside int is answered with the nearest grid point clamped to the range; every such request below the minimum gives the minimum in spite of the unsigned wrap |
| CapData.MostNegativeRequestGivesMaximum | driver/legion-laptop.c:2791-2819 | at the very end of int it does not: the most negative request is answered with the maximum |
| CapData.SteppedSnapsToGrid | driver/legion-laptop.c:2791-2819 | the driver's own arithmetic on a whole grid: the answer is a grid point in the range, none is nearer to the request, larger requests never get smaller answers, and an answer is answered with itself |
| CapData.SteppedOnGridIff | driver/legion-laptop.c:2791-2819 | all answers lie on the grid if and only if the range is a whole number of steps |
| CapData.BestIsFirstNearest | driver/legion-laptop.c:2791-2819 | with step 0 and no difference overflowing, the answer is an advertised value, none is nearer, and it is the first of the nearest |
| CapData.BestIsFirstNearestIff | driver/legion-laptop.c:2791-2819 | for every request and every list, the answer is the first of the nearest values if and only if no other distance overtakes the least one by overflow, in closed form: it is 2^31, or the two add up to more than 2^32, or to exactly that and it stands first; beyond 2^31, if it is larger |
| CapData.OverflowingDifferenceWins | driver/legion-laptop.c:2791-2819 | when the difference to an advertised value overflows int, the farthest value can win |
| CapData.DiscreteAnswerIsFirstNearest | driver/legion-laptop.c:2803-2811 | what the whole clamp answers with step 0: an advertised value, none nearer to the request, every one as near standing after it |
| CapData.DiscreteAnswerIff | driver/legion-laptop.c:2803-2811 | for every request and every list, that is its answer if and only if no other value overtakes the first nearest by overflow |
| CapData.LimitMeans | driver/legion-laptop.c:6086-6119 | with ignore_capdata the three CPU limits are passed as asked within 1..255 and refused outside; every other request is answered by the clamp of the first matching entries |
| CapData.DescribesIff | driver/legion-laptop.c:6099-6112 | an entry describes a feature in a mode if and only if its id is the feature's upper half, the mode as a byte and a zero byte, and its lowest support bit is set |
| CapData.FirstFeatureDecides | driver/legion-laptop.c:6099-6119 | the list consulted is the first with the feature's upper half |
| CapData.ClampedValue | driver/legion-laptop.c:6086-6119 | the parse error, the range check and early return that patches/0001-ignore-capdata.patch adds for three features, and otherwise the clamp by the first matching table entries |
| CapData.FirstCapabilityDecides | driver/legion-laptop.c:6099-6112 | the first entry describing the feature in the current mode decides, and None means there is none |
| DiscreteGroups.Group | driver/legion-laptop.c:8735-8757 | the table ends up with the distinct ids of the consumed prefix in first-seen order, each with its first C values in order, for any entries and capacities, all indexing in bounds |
| DiscreteGroups.ValuesAreInOrder | driver/legion-laptop.c:8753-8755 | the values of an id are those of the entries that carry it, the k-th of the k-th such entry |
| DiscreteGroups.ConsumedFillsTable | driver/legion-laptop.c:8735-8757 | the prefix consumed never holds more ids than fit and is everything unless the table is exactly full |
| DiscreteGroups.IdsAreDistinct | driver/legion-laptop.c:8735-8757 | the grouped ids are distinct and are exactly the ids occurring |
| DiscreteGroups.IdsAreInFirstSeenOrder | driver/legion-laptop.c:8735-8757 | they are in the order of first occurrence |
| PowerLimits.LegionPrivate.LongtermStore | driver/legion-laptop.c:6231-6279 | the PL1 store for every outcome of its firmware calls: final limits, every intermediate write, success code |
| PowerLimits.LegionPrivate.ShorttermStore | driver/legion-laptop.c:6158-6206 | the same for PL2 |
| PowerLimits.CoupledStoreOrders | driver/legion-laptop.c:6158-6279 | a coupled store leaves PL1 <= PL2 whatever was before, and exactly when the intermediate write is in order too |
| PowerLimits.FailedPushDisordersIff | driver/legion-laptop.c:6158-6279 | with failing calls the order is lost if and only if the store lands but the push it needed did not |
| PowerLimits.CoupledRunStaysOrdered | driver/legion-laptop.c:6158-6279 | over every run of serialised successful stores PL1 <= PL2 after each single firmware write |
| PowerLimits.CoupledRunStaysWithin | driver/legion-laptop.c:6158-6279 | and both stay in their advertised ranges when the ends of the ranges are ordered |
| PowerLimits.PushStaysWithinIff | driver/legion-laptop.c:6175-6189 | pushing never leaves a range if and only if min1 <= min2 and max1 <= max2 |
| PowerLimits.AdvertisedRangeAnswers | driver/legion-laptop.c:6086-6119 | an advertised range answers every request from itself |
| PowerLimits.SetPowerEndsAt | gui/src/hw.rs:312-316 | PL1 then PL2 ends at (min(c1,c2), c2) with coupling and (c1,c2) without, whatever the prior state |
| PowerLimits.OverlapOrderedIff | driver/legion-laptop.c:6158-6279 | from limits in order, over every interleaving of the firmware calls of two coupled stores: they finish in order if and only if, for PL1 of v and PL2 of w, v <= w; for two of PL1, they ask the same or the smaller is at most the old PL2; for two of PL2, they ask the same or the larger is at least the old PL1 |
| PowerLimits.ConcurrentStoresCanDisorder | driver/legion-laptop.c:6175-6189 | an example: PL1 to 55 and PL2 to 45 at once, from (40, 60), end at (55, 45) |
| PowerLimits.SameLimitCanDisorder | driver/legion-laptop.c:6248-6262 | an example with one limit: PL1 to 60 and to 70 at once, from (40, 45), end at (70, 60) |
| PowerLimits.TaskAloneIsStore | driver/legion-laptop.c:6158-6279 | the schedule's steps, run alone, are the store |
| TopDown.WriteTopDown | gui/src/hw.rs:280-294 | ends with the new table and visits exactly the mixed tables, highest point first |
| TopDown.TopDownNeverInvertsIff | bin/83sc-fan:147-155 | no intermediate table is out of order if and only if every old temperature is at most the new one of the next point |
| TopDown.BottomUpNeverInvertsIff | bin/83sc-fan:147-155 | the dual condition for the other direction |
| TopDown.RaiseFromTopLowerFromBottom | bin/83sc-fan:147-155 | raising a table is safe from the top, lowering it from the bottom |
| TopDown.FactoryToPresetInverts | bin/83sc-fan:37-44 | from the factory table to the gradual preset the top-down walk does invert |
| TopDown.RejectingFirmwareTakesTableIff | systemd/83sc-thermal.sh:115-122 | with a firmware that rejects disordered tables the walk ends at the new table under exactly the same condition |
| RejectingReplay.CheckedReplayRestoresIff | systemd/83sc-thermal.sh:109-123 | replaying a printed curve of settled points on such a firmware ends at the saved curve if and only if every temperature of the table it loaded is at most the saved one of the next point; speeds always arrive |
| RejectingReplay.PresetOverFactoryIsLost | systemd/83sc-thermal.sh:109-123 | over the factory table the gradual preset does not come back |
| FanRequest.RequestIsHonoured | systemd/83sc-thermal.sh:160-162 | userland rounding and driver ceiling grant the requested hundred or the next one, never less, and the requested one if and only if 25500 k mod max is below max - max/2 |
| FanRequest.DriverStoresGranted | driver/legion-laptop.c:3323-3330 | that is what the driver stores, cast included |
| FanRequest.ReadbackIsStoredIff | gui/src/hw.rs:670-672 | what userland shows is what is stored if and only if the PWM value lost at most half a hundred |
| FanRequest.ReapplyingSettles | gui/src/main.rs:295-299 | reapplying what is shown never lowers it, stays in range, and is fixed after at most max/100 - speed cycles |
| FanRequest.PresetSpeedIsRaised | bin/83sc-fan:37-44 | on this machine the 1200 rpm of the gradual preset becomes 1300 |
| FanRequest.RequestSaturates | systemd/83sc-thermal.sh:160-162 | a request at or above the maximum gives 255, one at or below 0 gives 0 |
| FanRequest.RequestIsMonotone | systemd/83sc-thermal.sh:160-162 | asking for more never gives less |
| FanRequest.RequestIsNearest | systemd/83sc-thermal.sh:160-162 | in between the PWM value is the nearest to the request |
| BootText.ShownIsParsed | helper/helper.py:30-35 | a printed int is parsed back by the kernel in base 0 and base 10, the newline dropped and no zero taken for octal |
| BootText.SplitJoin | helper/helper.py:585-591 | splitting undoes joining for all parts without the separator |
| BootText.FileLines | helper/helper.py:590-591 | the lines of the written file are the lines printed |
| BootText.PrintedCurveParses | systemd/83sc-thermal.sh:115-118 | the printed temp:pwm list splits back into its points, for every list of pairs |
| BootText.CurveRoundTrip | systemd/83sc-thermal.sh:115-122 | and each number the kernel parses is the number printed |
| BootReplay.BootSave | helper/helper.py:521-592 | writes the header and the settings of the machine in order, the curve only when all ten points exist |
| BootReplay.CollectCurve | helper/helper.py:576-587 | the ten points in order, or nothing if one is missing |
| BootReplay.BootScript.PrepareCurve | systemd/83sc-thermal.sh:111-113 | custom mode unless it is custom already, and full speed cleared |
| BootReplay.BootScript.PutNode | systemd/83sc-thermal.sh:42-53 | one write to a node, and the exit code only of an essential one that failed |
| BootReplay.BootScript.ApplyCurvePwm | systemd/83sc-thermal.sh:109-123 | custom mode forced if needed, full speed cleared, points written highest first |
| BootReplay.BootScript.ApplyBootConf | systemd/83sc-thermal.sh:60-105 | line by line dispatch over any text, comments and unknown keys skipped |
| BootRestore.FileReplaysSettings | systemd/83sc-thermal.sh:60-105 | for every machine, reading the printed snapshot dispatches exactly its settings in order |
| BootRestore.SnapshotTellsLimits | helper/helper.py:521-592 | snapshots that read the same hold the same firmware limits |
| BootRestore.LimitSettingsReplay | systemd/83sc-thermal.sh:60-105 | what the lines before the curve leave, from any start |
| BootRestore.CurveLineReplays | systemd/83sc-thermal.sh:109-123 | what the curve line leaves, from any start |
| BootRestore.ReplayEndsAt | systemd/83sc-thermal.sh:60-123 | the machine after a replay, spelled out for every saved and every starting state |
| BootRestore.ReplayEndsInCustomMode | systemd/83sc-thermal.sh:109-114 | a replay with a curve ends in mode 255 with full speed off, whatever was saved |
| BootRestore.ReplayRestoresFromIff | systemd/83sc-thermal.sh:60-123 | for a machine whose driver starts with the coupling on, or off: replay restores mode, full speed, RAPL, firmware limits, coupling and curve from every such state if and only if the saved state had mode 255, full speed off, limits restorable under that coupling, and points that are in closed form acceptable and kept by the codec, or equal to the firmware's own where refused |
| BootRestore.LimitsComeBackIff | driver/legion-laptop.c:6158-6279 | the limits restorable under a coupling: each fixed by the clamp of custom mode, coupled also in order, of equal ones PL1 may be answered with more and held down by PL2 |
| BootRestore.ReplayRestoresIff | systemd/83sc-thermal.sh:60-123 | from any state at all, with either coupling: if and only if that holds under both |
| BootRestore.PointComesBackIff | driver/legion-laptop.c:3323-3366 | the closed form of the points: temperature at most 127 or the table's own, and 25500 s mod max < 25500 if 25500 s < 256 max, otherwise the table's own speed |
| BootRestore.CurveNeverDriftsIff | systemd/83sc-thermal.sh:107-123 | the curve stays what it was over every number of saves and replays, from any states, if and only if each of its points comes back |
| BootRestore.SettledIff | driver/legion-laptop.c:3323-3366 | a point comes back whatever the table held if and only if its temperature is at most 127 and its speed returns through the codec |
| BootRestore.InRangePointsSettle | driver/legion-laptop.c:3323-3366 | on a fan of at most 25500 rpm that is every point up to the maximum speed and 127 degrees |
| BootLines.ExitCodeIff | systemd/83sc-thermal.sh:60-105 | over any text the script fails if and only if some POWERMODE line, powercap limit or curve point is refused; which it is depends on its text and the number of points alone, not on the machine |
| BootLines.SnapshotFailsIff | systemd/83sc-thermal.sh:60-123 | a printed snapshot with all its points fails if and only if a temperature is above 127 or a speed shows above 255 |
| BootLines.SnapshotIsLiteral | helper/helper.py:528-591 | the file word for word: header, keys and values, in order |
| BootLines.CurveIsLiteral | helper/helper.py:578-586 | the text of each point: its temperature, a colon, and its speed as a PWM value |
| BootLines.ModeWriteIff | driver/legion-laptop.c:6818-6850 | a mode is looked at as a byte and remembered as a whole number: accepted if and only if the byte is a mode, the table reloaded for that byte |
| BootLines.FullspeedWriteIff | systemd/83sc-thermal.sh:113 | full speed can be switched on in custom mode only and off in any |
| BootLines.CurveWritesNeedCustom | systemd/83sc-thermal.sh:144-150 | outside custom mode a curve write is accepted or refused as in it and changes nothing |
| BootLines.OneNewlineIsDropped | driver/legion-laptop.c:6095 | of the numbers read, one newline is let pass and nothing else |
| BootLines.OneSignIsRead | driver/legion-laptop.c:6095 | one sign too, of which an unsigned parser knows only the plus |
| BootLines.BaseIsRead | driver/legion-laptop.c:7629 | 0x and a leading 0 change the base in base 0 only |
| CurveConf.SaveBoot | bin/83sc-fan:191-212 | the file printed for a curve |
| CurveConf.ApplyCurve | systemd/83sc-thermal.sh:135-168 | for any text: ten points or a failure code; custom mode, full speed off, points written highest first through the shell's rounding, up to the first second field that is not a number |
| CurveConf.PrintedConfParses | systemd/83sc-thermal.sh:141-157 | the points read back are the lines printed, comments and blank lines dropped |
| CurveConf.SavedConfApplies | systemd/83sc-thermal.sh:135-168 | one save and boot leaves custom mode, full speed off, and every point taken through rpm and back |
| CurveConf.RespunIsReapplied | systemd/83sc-thermal.sh:157-166 | that is exactly one apply and readback in rpm |
| CurveConf.ConfGenerationsAreCycles | systemd/83sc-thermal.sh:135-168 | over any number of saves and boots temperatures stay and each speed moves as that many cycles, hence never down |
| CurveConf.RespunIsSameIff | systemd/83sc-thermal.sh:157-166 | a point in range comes back as it was if and only if 25500 s mod max is below max - max/2 |
| CurveConf.ConfNeverDriftsIff | systemd/83sc-thermal.sh:135-168 | curve.conf keeps a curve over every number of generations, from any states, if and only if that holds of each of its points |
| CurveConf.ConfRaisesPresetSpeed | bin/83sc-fan:191-212 | on this machine curve.conf turns 1200 rpm into 1300 where boot.conf keeps it |
| BootLines.SpacingDoesNotMatter | systemd/83sc-thermal.sh:156-158 | however a line of curve.conf is spaced, its two words are its fields |
| BootLines.IsPointIff | systemd/83sc-thermal.sh:141 | comments and blank lines, indented or not, are dropped, and nothing else |
| BootLines.WrongCountIsRefused | systemd/83sc-thermal.sh:141-142 | a file without exactly ten points changes nothing and fails |
| BootLines.BadNumberEndsLoop | systemd/83sc-thermal.sh:156-166 | a point whose rpm is no number ends the loop: it and all points below are left alone |
| IdleDimmer.Backlight.SetBrightness | kbd-idle/src/main.rs:142-148 | queues its own echo, and takes it back when the call fails |
| IdleDimmer.Backlight.HandleIdle | kbd-idle/src/main.rs:150-164 | dims a lit keyboard and remembers its level; every failure and repeat case |
| IdleDimmer.Backlight.HandleResume | kbd-idle/src/main.rs:166-181 | restores the level and arms the re-assertion when KDE wrote while dimmed |
| IdleDimmer.Backlight.HandleChanged | kbd-idle/src/main.rs:182-212 | consumes an echo, notes a rival zero while dimmed, re-asserts once in time, follows internal changes, and takes the rest for the user's choice |
| IdleDimmer.Daemon | kbd-idle/src/main.rs:270-288 | every message in turn and the restore on exit; writes of the run at most three per Idle |
| IdleDimmer.WritesAreBounded | kbd-idle/src/main.rs:142-288 | along every event trace set calls, exit restore included, are at most three per Idle, and dimmed implies a positive level |
| IdleDimmer.ThreeWritesPerIdle | kbd-idle/src/main.rs:142-212 | the bound is reached |
| IdleDimmer.MatchingKeptIff | kbd-idle/src/main.rs:182-186 | one move keeps the queue equal to the in-flight echoes if and only if no foreign signal carries the value at its front |
| IdleDimmer.EchoesStayMatched | kbd-idle/src/main.rs:142-212 | along every run without such a delivery, failed calls included, the queue is exactly the in-flight echoes |
| IdleDimmer.CyclesRestore | kbd-idle/src/main.rs:150-181 | any number of idle and resume cycles, resume before the echo of 0 included, keeps level and hardware at the pre-idle value |
| IdleDimmer.KdeRaceEndsLitIff | kbd-idle/src/main.rs:142-212 | for every run of idle, resume, deliveries, KDE zeros, deadlines and failing calls at any time: after each move what is in flight ends with the queue drained and the keyboard at its level unless dimmed, if and only if every KDE zero came while dimmed or expected, every deadline passed while dimmed or lit, no call to dim failed, a call to restore failed only with a KDE zero in flight that is answered, and a call to re-assert only with the keyboard lit |
| IdleDimmer.MoveKeepsContestedIff | kbd-idle/src/main.rs:150-212 | one move keeps the invariant of the race if and only if it meets those guards |
| IdleDimmer.StoppingLeavesLit | kbd-idle/src/main.rs:283-288 | stopping the daemon anywhere in such a run leaves the keyboard lit |
| IdleDimmer.NoticedIff | kbd-idle/src/main.rs:182-205 | while dimmed KDE is noticed if and only if fewer signals are in flight than it wrote: its zeros and the echo of 0 are interchangeable, and two have been handled |
| IdleDimmer.KdeRestoreEndsLitIff | kbd-idle/src/main.rs:166-212 | KDE dims, the user comes back, KDE restores its 0: the keyboard ends lit if and only if KDE was noticed before the resume, which is when the daemon expects the restore |
| IdleDimmer.ResumeBeforeNoticeLeavesDark | kbd-idle/src/main.rs:166-212 | a resume before the notice ends dark with level 0, everything handled and no deadline passed |
| IdleDimmer.LevelKeptIffPrompt | kbd-idle/src/main.rs:182-212 | the remembered level is kept by a delivery if and only if the notice is prompt |
| IdleDimmer.LateNoticeLosesLevel | kbd-idle/src/main.rs:166-212 | a KDE zero handled only after resume is taken for the user's choice: the daemon remembers 0 with the keyboard lit |
| IdleDimmer.DeadlineWithNoticeInFlightLeavesDark | kbd-idle/src/main.rs:166-212 | a KDE zero whose notice arrives after the deadline leaves the keyboard dark |
| UserChanges.TakenOverIff | kbd-idle/src/main.rs:187-201 | in every dimmed world a signal that is no echo writes nothing; the daemon gives up dimming and remembers the value, and a later resume does nothing at all, if and only if the change is internal or not to 0 |
| UserChanges.UserSettingSurvivesResume | kbd-idle/src/main.rs:150-201 | from a lit keyboard: idle, a setting by key or from outside, everything handled, resume: hardware and level are the user's value |
| UserChanges.OutsideChangeIsRemembered | kbd-idle/src/main.rs:203-211 | not dimmed and not racing, a change from outside becomes the level and nothing else changes |
| UserChanges.IdleThenResumeRestores | kbd-idle/src/main.rs:150-181 | whatever the world, a lit keyboard goes dark on idle and back to what it showed on resume |
| UserChanges.FnKeyDisarms | kbd-idle/src/main.rs:187-193 | after an internal change the daemon writes nothing until the next idle, an expected zero included: the hardware keeps the last value anybody wrote |
| UserChanges.SettledIsSimple | kbd-idle/src/main.rs:142-212 | over every run of idling, resuming and settings, each handled before the next, daemon and hardware are a keyboard with a level and a flag, as long as nobody sets 0 from outside while dimmed |
| UserChanges.ZeroWhileHiddenIsKde | kbd-idle/src/main.rs:198-200 | that condition cannot be dropped: a 0 from outside while dimmed is taken for KDE's and undone |
| Profiles.App.OnBindProfile | gui/src/main.rs:883-914 | the bindings become those of the specification; saved when the save lands, untouched for an index outside the list |
| Profiles.App.OnBindPowerSource | gui/src/main.rs:586-633 | the profile leaves its other sources and follows the chosen one |
| Profiles.App.OnSaveProfile | gui/src/main.rs:760-809 | replaces the user's profile of that name or appends one |
| Profiles.App.OnUpdateProfile | gui/src/main.rs:811-855 | rewrites a user's profile in place, keeping name and plan; a built-in is refused |
| Profiles.App.OnDeleteProfile | gui/src/main.rs:857-881 | removes a user's profile and the bindings to its name, and nothing else |
| Profiles.App.constructor | gui/src/profiles.rs:144-158 | starts from built-ins followed by the file's user profiles |
| Profiles.BindIsMapUpdate | gui/src/main.rs:883-914 | as a map from modes to names, binding sets one mode, takes the profile away from any other, and leaves the rest |
| Profiles.CallbackKeeps | gui/src/main.rs:586-914 | every callback keeps: bindings one-to-one and never dangling, user names distinct, built-ins unchanged but for their plan, no name on two sources |
| Profiles.RunStaysGood | gui/src/main.rs:586-914 | so does every sequence of callbacks and restarts, whichever saves fail |
| Profiles.FirstStartIsGood | gui/src/profiles.rs:144-158 | a first start satisfies it |
| Profiles.LoadAfterSave | gui/src/profiles.rs:144-169 | what loading a saved configuration gives |
| Profiles.SavedConfigSurvivesIff | gui/src/profiles.rs:144-169 | saving and loading is the identity if and only if no built-in profile follows a plan |
| Profiles.NameMeansProfileIff | gui/src/main.rs:944-956 | a bound name means its own profile if and only if it is a built-in or no built-in shares its name |
| Profiles.DeleteLeavesDanglingIff | gui/src/main.rs:872-874 | deleting leaves a power source dangling if and only if it was bound to that name and no built-in shares it |
| ProfileEdits.SavedAs | gui/src/main.rs:760-797 | saving under a name replaces exactly the first user's profile of that name, mode and plan forgotten, or appends one |
| ProfileEdits.SavedAsIsTheOnlyOne | gui/src/main.rs:789-794 | afterwards the saved one is the only user's profile of the name |
| ProfileEdits.Updated | gui/src/main.rs:811-849 | updating rewrites a user's profile where it stands, keeps its name and plan and takes the machine's mode; anything else is refused |
| ProfileEdits.Deleted | gui/src/main.rs:857-874 | deleting takes out exactly one profile and exactly the bindings of its name, in order, and leaves the power sources |
| ProfileEdits.ModesAreLiteral | gui/src/profiles.rs:182 | the choices bind to modes 1, 2, 3, 224 and 255 |
| ProfileEdits.FileHoldsUsers | gui/src/profiles.rs:160-169 | the file holds the user's profiles in order and no built-in one |
| ProfileEdits.LoadedHolds | gui/src/profiles.rs:144-158 | loading gives the program's built-ins followed by exactly the file's profiles not marked built in |
| GuiHardware.Hw.Write | gui/src/hw.rs:64-88 | a write leaves what it leaves, which for a firmware limit whose own write fails may be a push, and raises the flag only if it reports success |
| GuiHardware.Hw.SetPower | gui/src/hw.rs:298-318 | three RAPL writes and then the two firmware limits, whatever fails, with every outcome of the firmware's calls |
| GuiHardware.Hw.WriteCurve | gui/src/hw.rs:248-296 | custom mode forced if needed, full speed cleared, points written highest first |
| GuiHardware.Hw.Apply | gui/src/main.rs:944-1031 | a profile applied by the mode, charger or plan branch, with their differences |
| GuiHardware.Hw.TakeChanged | gui/src/hw.rs:16-18 | returns the flag and lowers it |
| GuiHardware.ApplicationEndsInMode | gui/src/hw.rs:260-269 | any application ends in mode 255 when the forcing write lands, and otherwise where its own mode write left it |
| GuiHardware.PowerForgetsThePast | gui/src/hw.rs:298-318 | the firmware limits after set_power depend only on the two answered requests |
| GuiHardware.ProfileIsProgrammed | gui/src/main.rs:972-1028 | applying a sound profile leaves exactly the machine spelled out: nothing of the old curve, RAPL setting or full speed, limits clamped in the mode known before custom mode was forced |
| GuiHardware.ApplicationRaisesFlag | gui/src/hw.rs:64-76 | a profile with a point, on a machine with a table, leaves the flag up whatever fails |
| GuiHardware.ApplicationFollows | gui/src/hw.rs:64-88 | any application leaves the flag up unless all it did was push limits, PL1 down or PL2 up |
| GuiHardware.SilentWriteIff | gui/src/hw.rs:64-88 | a write changes the hardware and leaves the flag down if and only if it stores a firmware limit with coupling on, needs its push, reads, pushes, and then fails |
| PollLoop.Poll.constructor | gui/src/main.rs:917-927 | the baseline is what the machine is doing now |
| PollLoop.Poll.PollTick | gui/src/main.rs:930-1049 | one tick: mode, charger and plan branches in order, then the snapshot if the flag is up and persistence on |
| PollLoop.Poll.SaveIfChanged | gui/src/main.rs:1042-1049 | the flag is taken before persistence is looked at, and stays down if the save fails |
| PollLoop.DanglingActsUnbound | gui/src/main.rs:972-982 | a power source whose profile was deleted behaves as one bound to nothing |
| Following.PlanFindsIff | gui/src/main.rs:1014-1015 | what a plan applies is the first profile in the list that follows exactly that plan, and nothing if and only if none does |
| Following.PowerFindsIff | gui/src/main.rs:972-982 | battery applies the first profile named by the battery binding and AC the first named by the AC binding, and nothing if and only if there is none |
| Following.ModeFindsIff | gui/src/main.rs:944-956 | a mode applies the first profile named by the mode's first binding, and nothing if and only if there is none |
| Following.TickAppliesPicks | gui/src/main.rs:930-1031 | for every tick: the profiles its sources with news pick are applied in turn, the mode's first and the plan's last, recorded in that order, and nothing else |
| Following.NothingFollowsIff | gui/src/main.rs:930-1031 | a tick applies nothing if and only if no source with news is followed by a profile |
| Following.PlanChangeApplies | gui/src/main.rs:1011-1031 | with the plan the only news, the hardware is that of the first profile on that plan applied, and nothing is applied if and only if no profile follows it |
| Following.BindingFrame | gui/src/main.rs:597-615 | binding changes the plan of one profile, the first of the chosen one's name, to power-saver, balanced, performance or none, sets the one source chosen and clears the other of that name only |
| Following.BoundSourceAnswers | gui/src/main.rs:597-615 | what the loop then applies: battery or AC, whichever was chosen, answers with the first profile of that name; that name leaves the other, and what else answered still does |
| Following.BoundPlanAnswersIff | gui/src/main.rs:611-615 | a plan it was bound to answers with it if and only if no profile before it follows that plan |
| Following.OtherPlansForget | gui/src/main.rs:597-615 | every other plan answers as if the profile were not in the list |
| PollLoop.TickCalms | gui/src/main.rs:944-1031 | every tick brings the loop nearer to rest whatever fails, and within one step of it when mode writes land |
| PollLoop.PollStops | gui/src/main.rs:944-1031 | after the last outside change at most two ticks apply profiles (three if mode writes may fail); from then on no tick touches the hardware |
| PollLoop.PollReactionsAreBounded | gui/src/main.rs:944-1031 | over any run the ticks that apply a profile number at most two per outside change, or three when writes may fail |
| PollLoop.BootIsFreshIff | gui/src/main.rs:1042-1078 | over every run of the program's own writes, ticks and persistence switches whose saves succeed, firmware calls failing in any way: a save is owed or boot.conf is the printed snapshot of the hardware, if and only if no silent push is left to make up for |
| PollLoop.WriteBreaksFreshnessIff | gui/src/hw.rs:64-88 | one write breaks a fresh snapshot if and only if it is such a store |
| PollLoop.FailedStoreStalesBoot | gui/src/hw.rs:71-88 | it happens: with coupled limits of 40 and 60 W a failing store of 70 W for PL1 leaves 40 and 70 W, the flag down and boot.conf stale |
| PollLoop.ProgramKeepsBootFresh | gui/src/main.rs:1042-1078 | a run without a silent deed keeps boot.conf fresh, and the save at exit settles what is owed |
| PollLoop.TickIsNeverSilent | gui/src/main.rs:944-1031 | no tick is silent while every profile has a point |
| PollOutcome.ThirdTickIsReached | gui/src/main.rs:944-1031 | the bound of three is reached |
| PollOutcome.SecondTick | gui/src/main.rs:944-1031 | in a second tick only custom mode can be news, which it is unless the machine was in custom mode already or nothing was applied |
| PollOutcome.WinnerTakesAll | gui/src/main.rs:930-1049 | after two ticks the hardware is EndMachine, the pending profiles programmed in turn on the machine before (mode, charger, plan, then the one bound to custom mode unless it was custom already); last_applied names the winner and boot.conf is a snapshot |
| PollOutcome.WinnerLimits | gui/src/main.rs:930-1049 | the firmware limits it ends with, from the two answers in the mode the driver knew when the winner was applied, which is computed from the state before, and the coupling |
| PollOutcome.ProgrammedIsRestorableIff | systemd/83sc-thermal.sh:60-123 | what a profile leaves comes back from a snapshot if and only if full speed is off, its curve is one the codec keeps and the limits are restorable |
| PollOutcome.WinnerSurvivesRebootIff | gui/src/main.rs:930-1049 | from an outside change to the next boot, on any fan, with either coupling at boot: replaying boot.conf from any such state gives exactly the hardware two ticks left if and only if the winner leaves full speed off, a curve the codec keeps and limits restorable under that coupling, all computed from the state before |
| PollOutcome.AnsweredWinnerSurvivesIff | gui/src/main.rs:930-1049 | the same on the two answers: what they make of the limits is restorable under the coupling at boot |
| PollOutcome.ClampedInAnotherModeIsLost | gui/src/main.rs:976-989 | it fails: with PL1 up to 130 W in performance mode and 60 W in custom mode, a charger profile selecting performance mode with 100 W does not survive |
| PollOutcome.IgnoringCapdataSurvivesIff | patches/0001-ignore-capdata.patch:17-35 | with ignore_capdata, a winner asking for limits in order within 1..255 survives if and only if it leaves full speed off |
| BootSnapshot.Program.WriteNode | gui/src/hw.rs:64-76 | a landing write changes the nodes and raises the flag |
| BootSnapshot.Program.SaveIfChanged | gui/src/main.rs:1073-1078 | the save at exit, the same as at the end of a tick |
| BootSnapshot.Program.OnSetPersist | gui/src/main.rs:556-584 | switching persistence on saves at once and does not touch the flag |
| BootSnapshot.RunStaysFresh | gui/src/main.rs:1042-1049 | in every reachable state, while saves succeed, a save is owed or the snapshot equals the live value of everything the program answers for |
| BootSnapshot.ExitSavesEverything | gui/src/main.rs:1073-1078 | at exit nothing written is unsaved |
| BootSnapshot.SnapshotIsRightIffSaved | gui/src/main.rs:1042-1049 | with failing saves the snapshot is wrong only about what was written since the last save that succeeded, and about exactly that if writes bring news |
| BootSnapshot.FailedSaveIsNotRetried | gui/src/main.rs:1045-1049 | no later tick makes up for a failed save |
| BootSnapshot.NextWriteCatchesUp | gui/src/main.rs:1042-1049 | the next landing write, to whichever node, and the tick after it do make up for it |
| BootSnapshot.SwitchingLosesNoWrite | gui/src/main.rs:556-584 | switching persistence, however often and whichever saves fail, never takes the flag: if it ends on, the next tick saves what was written |
| BootSnapshot.TickWhileOffForgets | gui/src/main.rs:1042-1049 | a tick while it is off does: what was written then stays out of boot.conf if the save on switching on fails, through every later tick |

## Left out

- ACPI and WMI transport, GUID lookup and buffer decoding: a firmware setter stores the value given; the success of its calls is a parameter of the driver's stores and of the GUI's, and assumed in a replay.
- Tables of models, DMI matching, attribute visibility, and the maps between firmware and driver power modes.
- EcPorts.EcRam.WriteByte: does not model the ec_readonly switch, which skips every write.
- EcCurve.AutopointStore: does not model fan_control_write_allowed, the models that accept speeds only, or a failing read; LED, debugfs, minifancurve and lock switches are not modelled either.
- EcOtherLayouts.LoqWriteIsStaged: does not model when the EC copies its staging area to the live tables, so a LOQ write followed by a read is not claimed to agree; BootReplay and GuiHardware take the curve nodes as storing what is accepted.
- PowerLimits.CoupledRunStaysOrdered: for serialised stores whose firmware calls succeed, since the code holds no one lock across them; `FailedPushDisordersIff` and, for two stores at once, `OverlapOrderedIff` say exactly when the order holds otherwise.
- FanRequest.ReadbackIsStoredIff: does not model floating-point rounding and ties; the shell's integer form stands for all three programs.
- FanRequest.ReapplyingSettles: the same.
- BootReplay.BootSave: covers mode, full speed, RAPL, firmware limits, coupling and curve, each node readable; undervolt, GPU and temperature limits, charge modes and the other best-effort settings are independent lines handled the same way.
- BootReplay.BootScript.ApplyCurvePwm: does not write hysteresis, which is not saved and recomputed from the temperature, or minifancurve.
- BootReplay.BootScript.ApplyBootConf: skips the keys of the settings BootSave does not cover; the firmware's calls succeed.
- CurveConf.ApplyCurve: does not model the exit code after an arithmetic error, or a second field that the shell would evaluate as a variable or an expression.
- GuiHardware.Hw.WriteCurve: does not write hysteresis or minifancurve.
- GuiHardware.Hw.Apply: undervolt, performance cap and the extra settings of a profile are not modelled; they only raise the same flag.
- The effect of a power mode on firmware limits and RAPL values, and the kernel's rounding of the RAPL time window.
- Sleeps and real time: the 2 s window of the keyboard daemon expires at any moment; a tick of the poll loop is atomic.
- IdleDimmer.KdeRaceEndsLitIff: get_brightness succeeds, a failing one being no move at all, and nobody but KDE writes besides the daemon.
- UserChanges.SettledIsSimple: for calls that succeed and signals handled before the next act; `IdleDimmer.KdeRaceEndsLitIff` lets both vary.
- GuiHardware.Hw.SetPower: writes other than those of the mode and the firmware's limits fail only when the driver refuses their value.
- Error lists and status texts of the GUI, the edit draft, telemetry, extras, and last_applied beyond its being the last profile applied.
- Profiles as JSON text, and a file edited by hand into a shape no callback produces; the five built-in profiles enter as any list of distinct built-ins.
- Slint, D-Bus, Wayland, sudo, the helper's path list, undervolt's configuration file, packaging, benchmarks and sensor reads.
