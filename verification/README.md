# Verification of the Galaxy Tab S9 5G Linux port

This project models the parts of the port that hold real state machines, arithmetic
or binary formats, and proves what they are for: the charging drivers, the container
formats, the preserving installer, the persistent log ring, the autofocus and the
formatter of the charging screen. `dafny verify dfyconfig.toml` checks all of it.

## Charging

**Battery driver (`Sm5714*.dfy`).** Routines are *step programs* (`Sm5714Battery`): one
register transfer, field access or lock operation at a time, with a continuation for
every outcome. `Sm5714Machine` runs any number of them as threads, interleaved access by
access, each transfer free to fail. A rely/guarantee argument (`Sm5714Safety`) carries the
rules on the boost, Q4 and the locks to every reachable state (`Sm5714Runs`).
`Sm5714Driver` is the driver as a class: its methods are written as they run, and a ghost
program forces each access to be the next one its step program prescribes, while other
threads change the shared state between any two accesses. `Sm5714Boost` proves over the
same runs what a call has seen before it starts the boost. `Sm5714Thermal` runs callbacks
one at a time and relates the thermal state to Q4 and the charge current. `Sm5714Outcome` runs a single call to its end against
fixed readings and any set of lost transfers, and `Sm5714Calls` says what it leaves in the
registers and which code it returns, in milliamperes and bits.

**Pump (`Sm5440*.dfy`).** `Sm5440Spec` gives the effect of each callback on the device
record and registers, with every reading and every failure an input; `Sm5440` is the
driver as a class proved to have exactly that effect; `Sm5440Safety` proves what every
run keeps, lost hand-back writes included, and `Sm5440Limits` the board's numbers: what
readings the pump runs with, what it programs and what it asks for. Two results go beyond what the comments say.
The Requests stay in the window exactly while start readings are at most 4700 mV and tick
readings at least 3100 mV (or the loop sits at the ceiling), and the gauge can report
others. A hand-back whose mode write is lost leaves the pump running under an idle driver;
`StrandsExactly` says for every event when that happens.

**USB-PD driver (`CcHold.dfy`, `UsbPd.dfy`).** The CC hold of a Source-to-Sink power role
swap (sections 6.3.6 and 6.3.10 of USB Power Delivery). `set_vbus` reads the swap flag
before it takes the lock, so a PS_RDY handled in between orphans the hold; the exact set
of steps that orphan one is proved, and whole callbacks never do unless their own writes
are lost. `CcRoles` decodes the role the registers force and follows both swaps. The
attach watchdog speaks exactly for attachments that were not announced when it read them;
one whose interrupt comes after the reading is resynchronised although the cycle is
healthy.

## Formats

`Newc` is the cpio reader of the firmware check with the writer of its test; `Board2` the
nested container of board-2.bin and its rebuild; `BootImage` and `VendorBoot` the Android
image writers. Each is proved against an independent reader of the same bytes. The
docstring of `build-samsung-board2.py` says that every element length stays as it was;
the code keeps them exactly when the new data has the old size (`EveryLengthKeptExactly`,
`NewSizeChangesLengths`).

## Installer

`Installer` computes the ranges outside the allowlist, `InstallerRun` the checks around
the three writes, `SparseBackup` the backup without userdata. Disks are byte strings, the
hash any injective function, and the write steps arbitrary. The table parser does not
compare partitions with each other. Overlap does not weaken the protection of the other
bytes, but it can lose an image, and a partition that is nested in userdata or ends before
it starts makes the installer hash the hole of the sparse backup; both conditions are
stated exactly. A write step that strays into a partition already written loses that image
unnoticed; `ImagesInPlaceExactly` is the condition for arbitrary steps.

## Log ring, autofocus, formatter

`SecLog` proves the chunked kernel writer equal to the bytewise boot loader writer and
the ring equal to the tail of everything written across boots, up to 2^32 bytes; the bound
is exact for this ring size. `AutoFocus` proves termination, the comparison with every
sample and the distance to the peak; its comment speaks of nine coarse points, the loop
takes eight (`EightCoarsePoints`). `Sfmt` proves the bounded formatter.

The table below lists the main results first, then the operations as written in the
source, each tied to its specification, then supporting facts.

## Model

| member | source | states |
|---|---|---|
| `Sm5714Runs.BoostNeverMeetsQ4` | kernel/drivers/sm5714_battery.c:610-710 | in every interleaving of any number of calls, with any transfer failing: boost mode in CNTL2 implies Q4 open, D-/D+ on the manual USB path and BC1.2 off; with chg_lock free, otg_active says exactly whether the boost is on |
| `Sm5714Boost.BoostStartsCautiously` | kernel/drivers/sm5714_battery.c:610-664 | in every interleaving, with any transfer failing, the step that starts the boost belongs to a call that since it began has read direct_charging as 0 and STATUS1 with no source on VBUS |
| `Sm5714Runs.Q4ClosesAt500` | kernel/drivers/sm5714_battery.c:472-503 | in every interleaving, the step that closes Q4 finds 500 mA in the input limit register, in spite of the unlocked read-modify-write of the poll |
| `Sm5714Runs.NoDeadlock` | kernel/drivers/sm5714_battery.c:379-710 | in every reachable state each unfinished call can move or waits, through at most three locks, for one that can |
| `Sm5714Runs.EveryCallReturns` | kernel/drivers/sm5714_battery.c:379-710 | a call makes at most 92 accesses of its own, then has returned with every lock released |
| `Sm5714Safety.BodySafe` | kernel/drivers/sm5714_battery.c:379-1113 | each routine, whatever the others do between its accesses within what they owe it, keeps the boost rule, the 500 mA rule and the lock order to its end |
| `Sm5714Thermal.ThermalStateGovernsQ4` | kernel/drivers/sm5714_battery.c:402-416 | after any sequence of calls run one at a time with transfers succeeding and any readings: STOP implies Q4 open; REDUCED with Q4 closed implies a programmed charge current of at most 2100 mA |
| `Sm5714Thermal.BodyKeeps` | kernel/drivers/sm5714_battery.c:1071-1094 | one call of any routine keeps that rule although two callers update the thermal state and the configuration reads the temperature again |
| `Sm5714Thermal.SwitchIgnoresDirectCharge` | kernel/drivers/sm5714_battery.c:379-516 | during direct charging the sysfs switch makes Q4 follow the thermal state: outside STOP it closes Q4 over a running pump, for every state with the boost off and all readings |
| `Sm5714Calls.ChargesByPort` | kernel/drivers/sm5714_battery.c:418-510 | one completed programming without a PD contract: 1500 mA in and 1500 for the battery on a charging downstream port, 1800 and 2200 on a dedicated charger, 500 and 500 on any other source; at most 2100 for the battery in the warm band, Q4 open and nothing programmed at STOP; float voltage and Q4 set, everything else as it was |
| `Sm5714Calls.ChargesUnknown` | kernel/drivers/sm5714_battery.c:453-458 | the same with 500 and 500 mA where nothing can be classified |
| `Sm5714Calls.ChargesByContract` | kernel/drivers/sm5714_battery.c:418-510 | with a contract the largest 25 mA step not above its current and 3 A, above 5 V without the switch 1660 mA; 3150 mA for the battery with the switch, 2800 without |
| `Sm5714Calls.BoostRefused` | kernel/drivers/sm5714_battery.c:627-641 | during direct charging or against a source on VBUS the call returns -EBUSY with the whole state as it was, and -EIO for an unreadable status |
| `Sm5714Calls.BoostComesUp` | kernel/drivers/sm5714_battery.c:643-672 | with nothing attached: Q4 open, USB path by hand, 5.1 V and the selected limit, boost mode, flag, and nothing else |
| `Sm5714Calls.BoostSucceedsWhole` | kernel/drivers/sm5714_battery.c:643-672 | a call that returns 0 has brought up all of it, and every register on the way answered |
| `Sm5714Calls.BoostUndone` | kernel/drivers/sm5714_battery.c:643-672 | any lost transfer: an error code, flag and boost as they were, the automatic path back wherever the switch answers |
| `Sm5714Calls.BoostGoesDown` | kernel/drivers/sm5714_battery.c:678-708 | charging mode, flag down, automatic path, and with a source on VBUS the charger programmed as by configure_charging |
| `Sm5714Calls.BoostDownFails` | kernel/drivers/sm5714_battery.c:678-693 | a switch out of reach is reported with the boost already off |
| `Sm5714Calls.ContractStored` | kernel/drivers/sm5714_battery.c:523-549 | a contract is stored exactly if it is none or lies between 5 and 9 V up to 3 A, else -ERANGE; it is programmed at once exactly with a source on VBUS, the boost off and no direct charging |
| `Sm5714Calls.DirectStarts` | kernel/drivers/sm5714_battery.c:570-583 | direct charging opens Q4 for a battery from 10 to below 42 degrees; outside that, or without a reading, nothing is touched |
| `Sm5714Calls.DirectFails` | kernel/drivers/sm5714_battery.c:578-584 | where Q4 cannot be reached the flag is down again |
| `Sm5714Calls.DirectEnds` | kernel/drivers/sm5714_battery.c:585-589 | the way back programs the charger exactly with a source on VBUS |
| `Sm5714Calls.PollRecovers` | kernel/drivers/sm5714_battery.c:1085-1095 | with a source and an unchanged thermal state the poll reprograms the charger exactly if Q4 is open, the charger neither charges nor is full, no direct charging runs and STOP is not in force |
| `Sm5714Calls.PollReprograms` | kernel/drivers/sm5714_battery.c:1071-1080 | a changed thermal state reprograms it |
| `Sm5714Calls.UnpluggedOpensQ4` | kernel/drivers/sm5714_battery.c:1103-1108 | a pulled cable opens Q4 and touches nothing else |
| `Sm5714Codes.HysteresisClosedForm` | kernel/drivers/sm5714_battery.c:350-377 | over every reading history from NORMAL: STOP exactly if some reading was >= 500 with all later ones >= 460; not NORMAL exactly if some reading was >= 460 with all later ones > 420 |
| `Sm5440Safety.Lifecycle` | kernel/drivers/sm5440_direct.c:415-431 | over every run of work, suspend, alarms and spontaneous stops, with any reading, knob and failure, hand-backs included: active equals direct_charging; not active implies no cached limit and counters at zero; pps_ticks < 2, cv_ticks < 3, sat_ticks < 8; a nonzero prog_ibus_ma is what IBUSCNTL holds |
| `Sm5440Safety.OffWhenInactiveExactly` | kernel/drivers/sm5440_direct.c:415-431 | over every run: whenever the driver is inactive the pump and its watchdog are off, exactly if no event ends in a hand-back that loses the write of a bit that is on |
| `Sm5440Safety.StrandsExactly` | kernel/drivers/sm5440_direct.c:503-911 | event by event, in which state, for which readings and for which failed transfers that happens: a failed start by how far it got, a tick stopped by a fault, the hand-off, a lost limit write, a refused Request and its retry or a lost watchdog write, a keepalive that gives up, a suspend without a wake clock |
| `Sm5440Safety.LostRestoreLeavesPumpOn` | kernel/drivers/sm5440_direct.c:415-431 | a run from any idle state, one start and one suspend whose mode write is lost, that ends inactive over a running pump |
| `Sm5440Safety.SourceHearsEverySecondTick` | kernel/drivers/sm5440_direct.c:850-889 | in every run: two work items in a row that leave the pump running, whatever suspends, alarms and stops fall between them, service the watchdog both times and send at least one Request |
| `Sm5440Safety.LimitCoversAim` | kernel/drivers/sm5440_direct.c:788-804 | in every run, after each work item that ticks and stays active the limit decoded from the chip is at least the aim it was programmed for and at most 4800 mA |
| `Sm5440Safety.WindowKeptExactly` | kernel/drivers/sm5440_direct.c:654-911 | over every run, whatever fails: every Request (initial, refresh, retry, keepalive) and every target held for a keepalive has 2V + 1100 <= mV <= min(2V + 2000, 10500) for the reading V behind it, at least 15 W and at most 5000 mA, exactly if each start that reaches the source read at most 4700 mV and each tick that sets a target read at least 3100 mV, or at least 500 mV with the loop at the ceiling |
| `Sm5440Safety.RequestsStayInWindow` | kernel/drivers/sm5440_direct.c:662-683 | any one Request of a run with such readings is in the window |
| `Sm5440Safety.HighReadingLeavesWindow` | kernel/drivers/sm5440_direct.c:305-311 | with a high reading a run from any idle state leaves the window: eligible at 3.7 V, started at 4701 mV, it asks less than twice the battery plus the initial headroom |
| `Sm5440Safety.LowReadingLeavesWindow` | kernel/drivers/sm5440_direct.c:813-846 | with a low reading too: at 3099 mV floor and ceiling cross and the Request lies above the ceiling |
| `Sm5440Safety.EighthPeggedTickEases` | kernel/drivers/sm5440_direct.c:836-842 | the eighth tick in a row pegged at the ceiling with the current short eases the Request to what the bus holds |
| `Sm5440Safety.StartsExactly` | kernel/drivers/sm5440_direct.c:503-642 | an inactive driver comes up exactly for an online PPS source with the switch on, capacity 5 to 89, battery 10 to below 42 degrees and 3.5 to below 4.35 V at the gate and 3.4 V at the start, Q4 opened, chip set up, Request taken, one of forty readings within 700 mV with none failed before it, charge bit, watchdog and power-good |
| `Sm5440Limits.StartRecord` | kernel/drivers/sm5440_direct.c:438-618 | a start that comes up: every register of the set-up, the 30 s watchdog, the limit of the step, and one Request for the recorded target |
| `Sm5440Limits.RunningReadings` | kernel/drivers/sm5440_direct.c:703-769 | in every run, after each work item that ticked and leaves the pump running: 0 <= capacity < 90, 0 <= battery < 440, 0 <= die < 1100, 0 <= VBUS <= 10800, 0 <= VBAT < 4430, no failed reading, CHG_ON and VBUSPOK |
| `Sm5440Limits.TickRecord` | kernel/drivers/sm5440_direct.c:768-889 | a tick that goes on: frequency, step, limit, counters and target, and exactly which Requests it put |
| `Sm5440Limits.FrequencyHeld` | kernel/drivers/sm5440_direct.c:372-380 | in every run the frequency the driver remembers is the one in CNTL7 |
| `Newc.RoundTrip` | scripts/verify-wifi-firmware.py:31-56 | reading a written archive, any names: a key is there exactly if some file has it, with the last such payload; the key of './n' is n, of any other name the name itself |
| `Newc.AnyMemberReads` | scripts/verify-wifi-firmware.py:35-53 | any member at any offset, with either magic, digits in either case and any mode: its key, mode word and payload |
| `Newc.Utf8Exactly` | scripts/verify-wifi-firmware.py:44 | a name is accepted exactly if it encodes some scalar values |
| `Newc.ReadsExactlyTheFiles` | scripts/verify-wifi-firmware.py:31-56 | for files under distinct keys, none the trailer's: exactly one entry for each file under its key, regular, with its payload |
| `Newc.TruncationRejected` | scripts/verify-wifi-firmware.py:35-55 | every proper prefix of a written archive is refused, wherever the cut falls |
| `Newc.Concatenated` | scripts/verify-wifi-firmware.py:31-53 | an archive, zeros in a multiple of four and a second archive read as the first map overridden by the second |
| `Installer.ComplementIsProtected` | scripts/install-internal-fedora.py:87-93 | for any partition list, overlapping, nested or backwards: every byte no allowed partition holds is in a protected range |
| `Installer.ProtectedIsComplement` | scripts/install-internal-fedora.py:87-93 | for partitions that do not overlap the protected ranges are exactly the complement: on the disk, ascending, clear of every partition |
| `Installer.HoleAvoided` | scripts/install-internal-fedora.py:87-93 | for any table, backwards entries included: no protected range reads inside a given partition exactly if, from it on, each entry ends past it, or is met by the next, or the next starts no later than it |
| `InstallerRun.EveryOtherByteIsTheBackup` | scripts/install-internal-fedora.py:120-156 | success leaves every device byte outside the three partitions equal to the backup, for any table and whatever the write steps did |
| `InstallerRun.TableIsTheRecord` | scripts/install-internal-fedora.py:79-86 | every partition of a prepared disk is where the record has it, and an allowed name stands on its own node |
| `InstallerRun.SuccessFinds` | scripts/install-internal-fedora.py:94-119 | a successful run has images in whole blocks that fit, two exactly, and partitions and disks as recorded |
| `InstallerRun.MatchesExactly` | scripts/install-internal-fedora.py:120-125 | a protected range passes exactly if it is block-aligned and the device holds the backup's bytes |
| `InstallerRun.ImagesInPlaceExactly` | scripts/install-internal-fedora.py:130-156 | whatever the write steps did: success leaves all three images at their partition starts exactly if they carry the same bytes wherever they overlap and no byte that no later image covers changed after its read-back |
| `InstallerRun.SurvivesStepExactly` | scripts/install-internal-fedora.py:130-153 | one write step, wherever it writes: an earlier image survives it exactly if it agrees with the one just read back and the rest of it was spared |
| `InstallerRun.StrayWriteLosesImage` | scripts/install-internal-fedora.py:130-156 | nothing looks at an image again after its read-back: with all partitions apart, a later step that writes outside its own loses one in a successful run |
| `InstallerRun.EveryImageIsInPlace` | scripts/install-internal-fedora.py:130-153 | for write steps that keep to their own partition that condition is agreement on the overlaps alone |
| `InstallerRun.SharedPlaceLosesImage` | scripts/install-internal-fedora.py:30-59 | the table parser compares no partitions: with two in one place a successful run loses an image |
| `SparseBackup.ImageIsDeviceOutsideHole` | scripts/finish-backup-without-userdata.py:58-65 | the verified image equals the device outside the excluded partition and is zero inside it |
| `SparseBackup.HoleIsNeverEvidence` | scripts/finish-backup-without-userdata.py:29-34 | for any table whose protected ranges are on the disk, as a successful preparation has found: every range the installer hashes lies in one the backup verified exactly if no entry from userdata on leaves a gap that reaches into it |
| `SparseBackup.NestedPartitionReadsHole` | scripts/finish-backup-without-userdata.py:29-34 | a partition nested in userdata breaks it: zeros of the hole are hashed |
| `SparseBackup.BackwardsPartitionReadsHole` | scripts/finish-backup-without-userdata.py:29-34 | so does an entry that ends before it starts: the cursor falls back and the whole hole is hashed |
| `SparseBackup.EveryOtherByteSurvives` | scripts/install-internal-fedora.py:120-156 | from the device before the backup to the device after a successful installation, every byte outside the three partitions is unchanged |
| `SecLog.ChunkedIsBytewise` | kernel/drivers/samsung-x716-sec-log.c:66-73 | two chunks leave the ring the bytewise writer leaves, for every index and every count whose second chunk fits, up to 2^32 or with a ring size that divides 2^32 |
| `SecLog.WritersAgreeExactly` | uniloader-overlay/board-gts9-5g.c:56-60 | the two writers agree on every content exactly under that condition |
| `SecLog.RingHoldsTheTail` | kernel/drivers/samsung-x716-sec-log.c:58-78 | after any mix of both writers and re-probes the ring holds the last bytes of the whole stream, byte k at k mod its size; the index is the stream length mod 2^32, each probe counts one boot, prev_idx stays |
| `SecLog.UnknownRegionStartsOver` | kernel/drivers/samsung-x716-sec-log.c:125-141 | a region without the magic starts an empty stream, whichever side finds it |
| `SecLog.NextByteKeepsTail` | uniloader-overlay/board-gts9-5g.c:56-61 | a further byte keeps the tail exactly while the 32-bit index names the stream's ring position |
| `AutoFocus.Refine` | tools/gts9-autofocus.c:485-509 | terminates for every curve; no position probed in any round is better than the result; at every step size from 128 to 4 some centre was probed all around and nothing there was better, the result itself at 4 |
| `AutoFocus.Focus` | tools/gts9-autofocus.c:451-514 | the result is at least every position the sweep and the refinement sampled; it is reliable exactly by the spread test, and never after a failed coarse probe; for a strictly unimodal curve the lens ends within 1 of the peak, and on it exactly if the peak is even |
| `Board2.RoundTrip` | scripts/build-samsung-board2.py:60-75 | a canonical container reads back as its nested entries |
| `Board2.RebuiltDecodes` | scripts/build-samsung-board2.py:89-103 | reparsing the output gives the input's nested entries with only the target's DATA replaced, for any input |
| `Board2.OnlyTheTargetChanges` | scripts/build-samsung-board2.py:91-103 | entry by entry for a canonical container: others as they were, the target with every DATA replaced and nothing else |
| `Board2.RebuiltExactly` | scripts/build-samsung-board2.py:82-114 | what the rebuild accepts: magic, ELF data, entries that fit, exactly one named board |
| `Board2.EveryLengthKeptExactly` | scripts/build-samsung-board2.py:22-29 | the rebuild of a canonical container keeps every outer and nested length word, as the docstring promises, exactly if each DATA of the target already has the size of the new data |
| `Board2.NewSizeChangesLengths` | scripts/build-samsung-board2.py:22-29 | a container whose lengths change |
| `Board2.SameDataIsIdentity` | scripts/build-samsung-board2.py:89-103 | rebuilding a canonical container with the data it carries returns it byte for byte |
| `Board2.RebuildIsIdempotent` | scripts/build-samsung-board2.py:89-111 | rebuilding twice is rebuilding once, for any input |
| `Board2.ConfirmedExactly` | scripts/build-samsung-board2.py:117-131 | the confirmation passes exactly if the named entry has a DATA to replace |
| `BootImage.DtboAtStoredOffset` | gts9wifi-fedora/tools/mkbootimg.py:102-111 | the stored offset is a page boundary and selects exactly the DTBO where the writer put it, for all sizes and page sizes |
| `BootImage.LoadsBack` | gts9wifi-fedora/tools/mkbootimg.py:198-277 | every section and the command line are recovered from the header's own numbers, versions 0 to 2 |
| `BootImage.HeaderLayout` | gts9wifi-fedora/tools/mkbootimg.py:198-277 | every header field at its byte: magic, sizes, load addresses, page, version, name, digest, DTBO and DTB words |
| `VendorBoot.EntrySelects` | gts9wifi-fedora/tools/mkbootimg.py:343-352 | an entry's offset and size select exactly its ramdisk in the section |
| `VendorBoot.TableEntrySelects` | gts9wifi-fedora/tools/mkbootimg.py:354-362 | the table entry in the image selects exactly its ramdisk and carries its type, name and board id |
| `VendorBoot.LoadsBack` | gts9wifi-fedora/tools/mkbootimg.py:149-195 | every section of a version 3 or 4 image is recovered from its own header, even where the header spans two pages |
| `VendorBoot.HeaderLayout` | gts9wifi-fedora/tools/mkbootimg.py:149-195 | every header field at its byte, versions 3 and 4 |
| `CcHold.OwnershipLost` | kernel/drivers/sm5714_usbpd.c:363-521 | with any transfer failing, exactly which steps leave a hold without a pending Source-to-Sink swap: a release whose writes are all lost, and a freeze decided before the flag was dropped |
| `CcHold.SwapEndsReleased` | kernel/drivers/sm5714_usbpd.c:744-764 | after any run without the steps of `OwnershipLost`, set_vbus interleaved step by step, PS_RDY on SOP, CC open and DRP toggling leave no hold and no pending swap, if their own writes go through |
| `CcHold.FreezeAfterReadyIsOrphaned` | kernel/drivers/sm5714_usbpd.c:556-561 | the flag is read outside the lock: PS_RDY between the read and the freeze leaves CC frozen with no swap pending, and later PS_RDYs do not release it |
| `CcHold.ResyncsExactly` | kernel/drivers/sm5714_usbpd.c:178-193 | over every run, the watchdog resynchronises exactly when it reads an attachment that the interrupt path has not reported since the last detach and its own last reading did not show |
| `CcHold.SilentExactly` | kernel/drivers/sm5714_usbpd.c:166-170 | a run never resynchronises exactly if each attachment the watchdog newly reads was announced before the reading |
| `CcHold.TickBeforeInterruptSpeaks` | kernel/drivers/sm5714_usbpd.c:798-803 | the comment promises silence in a healthy cycle; a tick between the attachment and its interrupt resynchronises all the same |
| `CcHold.OneResyncPerAttachment` | kernel/drivers/sm5714_usbpd.c:184-193 | between two resynchronisations the watchdog has seen the port empty |
| `CcRoles.RoleIsLastForced` | kernel/drivers/sm5714_usbpd.c:363-521 | over every run the CC registers decode to the role (sink 0x45/0x82, source 0x49/0x81, DRP 0x40/0x80, open 0x88) of the last call that changed them, if its writes went through |
| `CcRoles.RoleStep` | kernel/drivers/sm5714_usbpd.c:363-521 | a call that nothing keeps from forcing leaves exactly the role asked for; a natural attachment, a pending swap, a lost first write and any other event leave the mode bytes alone |
| `CcRoles.SwapFlagsTell` | kernel/drivers/sm5714_usbpd.c:744-764 | over every run each swap flag says that the partner asked for that swap while attached on that side and that nothing has ended it since |
| `CcRoles.SourceToSinkSwap` | kernel/drivers/sm5714_usbpd.c:387-408 | frozen while VBUS goes off, held while the pull changes, released by PS_RDY: in the end only bit 0 of CC_CNTL7 has changed |
| `CcRoles.SinkToSourceSwap` | kernel/drivers/sm5714_usbpd.c:444-461 | the inverse swap, over once VBUS is on |
| `CcHold.FlagsTell` | kernel/drivers/sm5714_usbpd.c:798-803 | over every run irq_saw_attach says exactly whether the interrupt path reported an attachment and no detachment since, watch_saw_attach whether the last reading showed one |
| `Sfmt.Format` | rootfs/initramfs/gts9-charger.c:49-86 | the buffer holds the longest prefix of the full expansion that fits, terminated, and nothing behind the terminator changes |
| `Sfmt.ReadsPrefix` | rootfs/initramfs/gts9-charger.c:49-86 | read as a C string the buffer is exactly that prefix |
| `Sfmt.DecimalParses` | rootfs/initramfs/gts9-charger.c:66-77 | every 32-bit value printed with %d reads back as itself |
| `Sm5714Driver.BatteryDriver.UpdateBits` | kernel/drivers/sm5714_battery.c:181-205 | the read-modify-write takes the accesses of its step program, for every outcome |
| `Sm5714Driver.BatteryDriver.MuicOn` | kernel/drivers/sm5714_battery.c:244-287 | switching D-/D+ to USB with BC1.2 off, and its undo, access by access |
| `Sm5714Driver.BatteryDriver.MuicOff` | kernel/drivers/sm5714_battery.c:289-301 | the way back, access by access |
| `Sm5714Driver.BatteryDriver.GetUsbType` | kernel/drivers/sm5714_battery.c:304-333 | the source type, access by access |
| `Sm5714Driver.BatteryDriver.GetTemp` | kernel/drivers/sm5714_battery.c:819-855 | thermistor first, fuel gauge for a failed or implausible reading, access by access |
| `Sm5714Driver.BatteryDriver.GetStatus` | kernel/drivers/sm5714_battery.c:874-899 | the charge status, access by access |
| `Sm5714Driver.BatteryDriver.ConfigureCharging` | kernel/drivers/sm5714_battery.c:379-516 | the imperative routine takes exactly the accesses of its step program, in order, and returns its code, for every reading, failure and change by other threads |
| `Sm5714Driver.BatteryDriver.SetPdContract` | kernel/drivers/sm5714_battery.c:523-549 | takes exactly the accesses of its step program and returns its code: range check, stored contract, charger programmed only while online and not direct charging |
| `Sm5714Driver.BatteryDriver.SetDirectCharge` | kernel/drivers/sm5714_battery.c:557-597 | takes exactly the accesses of its step program and returns its code: temperature gate and Q4 opened on the way in, charger restored on the way out |
| `Sm5714Driver.BatteryDriver.SetOtg` | kernel/drivers/sm5714_battery.c:610-710 | takes exactly the accesses of its step program and returns its code: data path, Q4, boost, undo on failure, and the charger restored only after the global lock is dropped |
| `Sm5714Driver.BatteryDriver.IsOtgActive` | kernel/drivers/sm5714_battery.c:713-725 | takes exactly the accesses of its step program and returns the flag read under the lock |
| `Sm5714Driver.BatteryDriver.FastChargeEnabled` | kernel/drivers/sm5714_battery.c:1210-1220 | takes exactly the accesses of its step program; the switch is read after the lock is dropped |
| `Sm5714Driver.BatteryDriver.FastChargeStore` | kernel/drivers/sm5714_battery.c:1179-1198 | takes exactly the accesses of its step program: a changed switch reprograms the charger |
| `Sm5714Driver.BatteryDriver.PollWork` | kernel/drivers/sm5714_battery.c:1054-1113 | takes exactly the accesses of its step program: readings, thermal branch, Q4 recovery, plug change |
| `Sm5440.DirectCharger.RestoreSwitching` | kernel/drivers/sm5440_direct.c:415-431 | the whole new record and registers of a hand-back, for any lost write |
| `Sm5440.DirectCharger.ProgramLimit` | kernel/drivers/sm5440_direct.c:348-360 | writes the limit only on a change and caches what was written |
| `Sm5440.DirectCharger.HwInit` | kernel/drivers/sm5440_direct.c:438-501 | the registers after the writes that went through, and success exactly if all did |
| `Sm5440.DirectCharger.AwaitBus` | kernel/drivers/sm5440_direct.c:564-579 | true exactly if one of the first forty readings reaches the bound with no failed reading before it |
| `Sm5440.DirectCharger.StartCharge` | kernel/drivers/sm5440_direct.c:503-618 | the whole new state, the Request put and whether the watchdog was armed, as the start specification says |
| `Sm5440.DirectCharger.Steer` | kernel/drivers/sm5440_direct.c:813-848 | the whole new state of one pass of the voltage loop |
| `Sm5440.DirectCharger.Refresh` | kernel/drivers/sm5440_direct.c:850-889 | every other tick one Request, one retry, then the watchdog |
| `Sm5440.DirectCharger.RegulationTick` | kernel/drivers/sm5440_direct.c:703-889 | the whole new state, Requests and watchdog service of one tick |
| `Sm5440.DirectCharger.SuspendKeepalive` | kernel/drivers/sm5440_direct.c:654-688 | the keepalive tail after a wake |
| `Sm5440.DirectCharger.DoWork` | kernel/drivers/sm5440_direct.c:644-911 | the delayed work: keepalive, then start or tick |
| `Sm5440.DirectCharger.DoSuspend` | kernel/drivers/sm5440_direct.c:1023-1055 | hand back without a wake clock, else service the watchdog |
| `Newc.ArchiveFiles` | scripts/verify-wifi-firmware.py:22-56 | the loop computes the dictionary of the recursive reader, or its error, on every input of strict hex fields, and terminates |
| `Newc.WriteNewc` | scripts/test-verify-wifi-firmware.py:18-28 | the loop writes one image for each file, then the trailer, padded by the length of the whole buffer |
| `InstallerRun.HashRange` | scripts/install-internal-fedora.py:18-28 | the hash of exactly the range, or the short-read error exactly if the range is not in the file |
| `InstallerRun.ProtectDisk` | scripts/install-internal-fedora.py:87-93 | the cursor loop gives one digest for each protected range, and fails exactly if one is not readable |
| `InstallerRun.Prepare` | scripts/install-internal-fedora.py:76-93 | prepares exactly if every partition matches the record, allowed names stand on their nodes and every range is readable |
| `InstallerRun.VerifyProtected` | scripts/install-internal-fedora.py:120-125 | true exactly if every range is aligned and hashes on the device to the recorded digest |
| `InstallerRun.Install` | scripts/install-internal-fedora.py:61-158 | succeeds exactly if every check passes; begins no write before the backup and the device agree, and none without --execute |
| `SparseBackup.CaptureDisk` | scripts/finish-backup-without-userdata.py:29-67 | captures exactly if every range is long enough, aligned and hashes like the device; the image is zeros with those ranges copied in |
| `SparseBackup.CopyIn` | scripts/finish-backup-without-userdata.py:49-53 | copies exactly the asked bytes, or fails exactly if the stream is short |
| `SecLog.SecLogBuffer.Write` | kernel/drivers/samsung-x716-sec-log.c:58-78 | the kernel writer in place: the whole new header and ring |
| `SecLog.SecLogBuffer.Checkpoint` | uniloader-overlay/board-gts9-5g.c:39-62 | the boot loader writer in place: the whole new header and ring, starting over without the magic |
| `SecLog.SecLogBuffer.Probe` | kernel/drivers/samsung-x716-sec-log.c:125-141 | the header after a probe |
| `AutoFocus.Sweep` | tools/gts9-autofocus.c:451-463 | best and worst of the coarse positions, from their initial values |
| `AutoFocus.Round` | tools/gts9-autofocus.c:488-500 | the best of the points at step and half step on the lens, or the start |
| `Board2.IterIes` | scripts/build-samsung-board2.py:68-75 | the elements of the run and where each stands, stopping at the first that does not fit |
| `Board2.BuildBoard2` | scripts/build-samsung-board2.py:78-131 | what the script writes and its verdict, with each error |
| `BootImage.OutFile.PadFile` | gts9wifi-fedora/tools/mkbootimg.py:92-94 | zeros to the next multiple of the page |
| `BootImage.WriteBootImage` | gts9wifi-fedora/tools/mkbootimg.py:198-277 | writes the image exactly if every number fits its field and the DTB rule holds |
| `BootImage.WriteParts` | gts9wifi-fedora/tools/mkbootimg.py:622-630 | the sections in order, each padded, by header version |
| `VendorBoot.TableBuilder.AddEntry` | gts9wifi-fedora/tools/mkbootimg.py:321-346 | refuses banned names, names taken before and wrong board ids exactly; a name stays taken when its board id is refused; offsets stay gapless |
| `VendorBoot.WriteVendorBoot` | gts9wifi-fedora/tools/mkbootimg.py:149-195 | writes the image exactly if every number fits its field |
| `UsbPd.UsbPdDriver.ApplyCc` | kernel/drivers/sm5714_usbpd.c:363-477 | set_cc on the record: the whole new state for every CC value and failure |
| `UsbPd.UsbPdDriver.StartDrpToggling` | kernel/drivers/sm5714_usbpd.c:479-521 | start_toggling on the record |
| `UsbPd.UsbPdDriver.SetVbus` | kernel/drivers/sm5714_usbpd.c:545-591 | set_vbus on the record and its result |
| `UsbPd.UsbPdDriver.ReceiveMessage` | kernel/drivers/sm5714_usbpd.c:744-764 | the swap flags and the hold after a message |
| `UsbPd.UsbPdDriver.HandleInterrupt` | kernel/drivers/sm5714_usbpd.c:766-812 | the interrupt handler runs exactly the events of the model: the message, then the attach bits, nothing on a failed read |
| `UsbPd.UsbPdDriver.WatchPort` | kernel/drivers/sm5714_usbpd.c:178-193 | the watchdog tick and whether it resynchronises |
| `Sfmt.PutNumber` | rootfs/initramfs/gts9-charger.c:66-77 | sign and digits as far as they fit |
| `Sm5714Machine.SafeUnderRely` | kernel/drivers/sm5714_battery.c:379-710 | what a routine still has to do stays safe under every step of the others that respects the locks it holds |
| `Sm5714Machine.ActKeepsCoherent` | kernel/drivers/sm5714_battery.c:379-710 | one access of any routine in flight keeps the state coherent: mutual exclusion, the boost rule, the flag rule, and every call safe |
| `Bytes.LowestFirst` | gts9wifi-fedora/tools/mkbootimg.py:198-277 | words are stored lowest byte first |
| `Sm5714Codes.HotterIsStricter` | kernel/drivers/sm5714_battery.c:350-377 | a pointwise hotter history never ends in a less restrictive state |
| `Sm5714Codes.BatRegIsLargestStep` | kernel/drivers/sm5714_battery.c:207-222 | on [3700, 4630) mV the code is the largest step not above the request |
| `Sm5714Codes.InputCurrentNeverAbove` | kernel/drivers/sm5714_battery.c:335-338 | the input code decodes to the largest 25 mA step not above the request |
| `Sm5714Codes.FastCurrentNeverAbove` | kernel/drivers/sm5714_battery.c:340-348 | the charge-current code decodes to the largest 15.625 mA step not above the request |
| `Sm5714Codes.CodesSaturate` | kernel/drivers/sm5714_battery.c:207-222 | the codes outside those ranges |
| `Sm5714Calls.NearestTenth` | kernel/drivers/sm5714_battery.c:832-833 | the thermistor to the nearest tenth, halves away from zero |
| `Sm5714Calls.GaugeWord` | kernel/drivers/sm5714_battery.c:848-850 | the gauge word: sign and magnitude |
| `Sm5714Calls.TemperatureRead` | kernel/drivers/sm5714_battery.c:829-855 | the thermistor between -20 and 90 degrees, else the gauge, else an error |
| `Sm5714Calls.UpdateWritesOnChange` | kernel/drivers/sm5714_battery.c:187-204 | a field that already has its value needs no write |
| `Sm5714Calls.TypeReported` | kernel/drivers/sm5714_battery.c:304-333 | the source type code by contract and DEVICE_TYPE1 |
| `Sm5714Calls.StatusReported` | kernel/drivers/sm5714_battery.c:874-899 | the charge status code by STATUS1, STATUS2 and the two flags |
| `Sm5714Calls.CapacityReported` | kernel/drivers/sm5714_battery.c:758-767 | the whole percent of the gauge, at most 100 |
| `Sm5714Calls.OnlineReported` | kernel/drivers/sm5714_battery.c:860-872 | VBUS present, and 0 while the boost drives it |
| `Sm5714Calls.LostReadReported` | kernel/drivers/sm5714_battery.c:304-333 | a lost read of the status, the gauge or the source type is -EIO |
| `Sm5714Calls.ConfigureFails` | kernel/drivers/sm5714_battery.c:475-487 | a lost first write leaves Q4 and the charge current alone and is reported |
| `Sm5714Calls.ConfigureRefuses` | kernel/drivers/sm5714_battery.c:388-400 | -EBUSY under the boost, -EIO for an unreadable source, nothing touched |
| `Sm5714Calls.BoostUnchanged` | kernel/drivers/sm5714_battery.c:620-628 | asking for what is already so |
| `Sm5714Calls.SwitchStored` | kernel/drivers/sm5714_battery.c:1179-1198 | the switch programs the charger exactly when it changes |
| `Sm5714Calls.PortLimitReads` | kernel/drivers/sm5714_battery.c:335-338 | the register then decodes to exactly that limit |
| `Sm5714Outcome.ConfigureEnds` | kernel/drivers/sm5714_battery.c:379-516 | configure_charging run to its end, for any reading and any lost transfer |
| `Sm5714Outcome.SetOtgEnds` | kernel/drivers/sm5714_battery.c:610-710 | set_otg likewise |
| `Sm5714Outcome.SetDirectEnds` | kernel/drivers/sm5714_battery.c:557-597 | set_direct_charge likewise |
| `Sm5714Outcome.SetPdEnds` | kernel/drivers/sm5714_battery.c:523-549 | set_pd_contract likewise |
| `Sm5714Outcome.SwitchStoreEnds` | kernel/drivers/sm5714_battery.c:1179-1198 | the sysfs switch likewise |
| `Sm5714Outcome.PollEnds` | kernel/drivers/sm5714_battery.c:1054-1113 | the poll likewise |
| `Sm5714Outcome.PropertyEnds` | kernel/drivers/sm5714_battery.c:874-899 | status, capacity, temperature, online and type read what the registers say and change nothing |
| `Sm5714Outcome.FlagsEnd` | kernel/drivers/sm5714_battery.c:713-725 | the two flag queries |
| `Sm5440Safety.TickStopsExactly` | kernel/drivers/sm5440_direct.c:703-889 | a tick goes on exactly with readings in order (capacity below 90, battery from 0 to below 44 degrees, die below 110, VBUS up to 10.8 V, VBAT and battery below 4.43 V, pump and bus up, current at least 1 A or not the third tick below), a written or unchanged limit, a Request taken at once or on the retry, and the watchdog written |
| `Sm5440Safety.RestoreEnds` | kernel/drivers/sm5440_direct.c:415-431 | a hand-back leaves the pump (watchdog) on exactly if it was on and the write of its bit was lost |
| `Sm5440Safety.RequestPower` | kernel/drivers/sm5440_direct.c:290-301 | at any voltage from 3 V the current asked gives at least 15 W and is at most 5000 mA, whatever the knob and the advertised maximum |
| `Sm5440Safety.StartWindow` | kernel/drivers/sm5440_direct.c:305-311 | from 3.4 V the starting voltage is in the window exactly up to a reading of 4700 mV |
| `Sm5440Safety.TickWindow` | kernel/drivers/sm5440_direct.c:813-846 | the regulated voltage is in the window exactly from a reading of 3100 mV, or for an aim already at the ceiling |
| `Sm5440Safety.SteersTowardAim` | kernel/drivers/sm5440_direct.c:816-846 | one pass: 40 mV down on excess current, 40 above the bus on a sag over 300 mV, 40 up on a shortage until the ceiling is held for eight passes, else put, always within floor and ceiling |
| `Sm5440Safety.RetargetRecords` | kernel/drivers/sm5440_direct.c:813-848 | what else a pass records |
| `Sm5440Limits.OnlyReadingsStop` | kernel/drivers/sm5440_direct.c:717-766 | with readings in order and transfers through no tick stops |
| `Sm5440Limits.StepTable` | kernel/drivers/sm5440_direct.c:76-78 | 4330 mA below 4.13 V, 3710 below 4.25 V, 2970 above |
| `Sm5440Limits.PinnedAim` | kernel/drivers/sm5440_direct.c:324-331 | a pinned aim within 800 and 4800 mA, read as a signed word |
| `Sm5440Limits.LimitMargin` | kernel/drivers/sm5440_direct.c:333-338 | 400 mA above the aim, at most 4800 |
| `Sm5440Limits.LeastVoltage` | kernel/drivers/sm5440_direct.c:305-311 | twice the battery plus 1100 mV rounded up to 20, from 8.2 to 10.5 V |
| `Sm5440Limits.FloorIsLeast` | kernel/drivers/sm5440_direct.c:292 | the least multiple of 50 mA that gives 15 W |
| `Sm5440Limits.RequestIs` | kernel/drivers/sm5440_direct.c:290-300 | the knob within 1 and 5 A, no more than the source advertises in steps of 50, never less than 15 W need |
| `Sm5440Limits.FrequencyTable` | kernel/drivers/sm5440_direct.c:362-370 | 450 kHz from 95 degrees, 650 from 80 or a battery of 40, else 850 |
| `Sm5440Limits.RestoreRegisters` | kernel/drivers/sm5440_direct.c:415-431 | a hand-back stops the converter and changes only its three fields |
| `Sm5440Limits.SuspendKeepsRunning` | kernel/drivers/sm5440_direct.c:1040-1054 | with a wake clock the pump runs on, its watchdog served |
| `Sm5440Limits.KeepaliveRenews` | kernel/drivers/sm5440_direct.c:663-683 | a keepalive asks once for the present target unless battery or die is too hot |
| `Sm5440Safety.StartNeedsReadyBus` | kernel/drivers/sm5440_direct.c:579-587 | charge bit and watchdog are on after it |
| `Sm5440Safety.HotterSwitchesSlower` | kernel/drivers/sm5440_direct.c:363-370 | higher die or battery temperature never raises the switching frequency |
| `Sm5440Safety.FullerPackAimsLower` | kernel/drivers/sm5440_direct.c:314-332 | a fuller battery never raises the input-current aim |
| `Newc.OnlyMembersRead` | scripts/verify-wifi-firmware.py:35-39 | a member is taken only behind one of the two magics and 104 hexadecimal digits, whichever field they are in |
| `Newc.MemberOfImage` | scripts/verify-wifi-firmware.py:35-53 | a written member is taken whole, and refused when its payload is cut |
| `Newc.HexRead` | scripts/verify-wifi-firmware.py:38 | a number written in at least the given digits reads back as itself |
| `Newc.CaseIgnored` | scripts/verify-wifi-firmware.py:38 | digits count alike in either case |
| `Newc.FieldRefusedExactly` | scripts/verify-wifi-firmware.py:38 | a field is refused exactly for a character that is no hexadecimal digit |
| `Newc.WriterWords` | scripts/test-verify-wifi-firmware.py:18-28 | the thirteen words of a written header |
| `InstallerRun.ReadBackExactly` | scripts/install-internal-fedora.py:149-150 | an image is read back exactly if it is in place |
| `InstallerRun.ApartAgrees` | scripts/install-internal-fedora.py:87 | partitions that are apart meet that condition |
| `SparseBackup.ApartIsMet` | scripts/finish-backup-without-userdata.py:29-34 | partitions that do not overlap meet that condition |
| `SecLog.DeviceRingDoesNotDivide` | uniloader-overlay/board-gts9-5g.c:43 | the ring of this device does not divide 2^32, so the bound is needed |
| `AutoFocus.EightCoarsePoints` | tools/gts9-autofocus.c:451-463 | the loop takes eight points, 0 to 896, where its comment counts nine |
| `AutoFocus.SpreadTest` | tools/gts9-autofocus.c:470-478 | reliable exactly with a zero worst or 5 % between best and worst |
| `AutoFocus.NegativeSampleIsUnreliable` | tools/gts9-autofocus.c:470-478 | one failed coarse probe, or any negative sample, makes the sweep of that curve unreliable |
| `Board2.TargetIs` | scripts/build-samsung-board2.py:91-104 | a named board is one of type 0 with a sub-element 0 that holds the name up to its trailing zeros |
| `BootImage.ArgumentsAccepted` | gts9wifi-fedora/tools/mkbootimg.py:490-540 | pages of 2 to 16 KiB and lines of up to 1534 bytes |
| `BootImage.CmdlineRejoins` | gts9wifi-fedora/tools/mkbootimg.py:577-581 | the two halves fit their fields and read back as the line |
| `CcHold.AtomicIsSteady` | kernel/drivers/sm5714_usbpd.c:545-591 | runs of whole callbacks never meet that case |
| `CcRoles.NaturalAttachmentStays` | kernel/drivers/sm5714_usbpd.c:383-386 | Rd on a natural source changes nothing, Rp on a natural sink at most the advertised current |
| `Sfmt.ExpandText` | rootfs/initramfs/gts9-charger.c:54-59 | text without a percent sign stands as it is |
| `Sfmt.ExpandSpecifier` | rootfs/initramfs/gts9-charger.c:60-83 | what each specifier expands to |

## Left out

- Probe, remove and resume paths, power-supply property tables, notifications, logging and delays: only the state they establish is kept, with boost, pump and CC hold off.
- Register resets by the chips themselves: the pump's software reset and a charger power cycle leave other registers as they were; the pump may stop converting at any moment.
- TCPM, the V4L2 core, PHYs, regulators and the alarm core: an environment that may call at any step; the intermediate Request between TCPM's two property writes is not modelled.
- Bus sag, cable limits and convergence of real current: readings are arbitrary inputs.
- Sm5714Battery: the registered primary device is an arbitrary outcome, the thermal state is read once where `sm5714_charge_thermal_state` compares it several times, and the thermistor channel is always present.
- Sm5714Outcome: each sensor reads the same throughout one call; STATUS1 is the one register that some calls read more than once.
- Sm5714Thermal.ThermalStateGovernsQ4: callbacks one at a time with transfers succeeding, because with failing transfers or interleaving the thermal state can move without the charger being programmed.
- Q4 open while the pump runs: not a property of the code, as `SwitchIgnoresDirectCharge` shows; the thermal branch and the tail of `set_otg` call `configure_charging` just as regardless.
- Sm5440Safety.LimitCoversAim: the aim as the knob read when the limit was programmed; the loop reads the knob again later in the same tick.
- Sm5440Spec: a hand-back always clears `direct_charging`; the battery driver returns early without clearing it (sm5714_battery.c:557-568) when its primary device is no longer registered.
- Sm5440Spec.Tick: each module parameter is read once where the source reads it twice in a row.
- CcHold: CC registers are kept by field, so a write sets the hold and the rest of the byte separately; TCPM's retained-dock reset at probe is not modelled.
- Newc: decompression and the comparison with the expected firmware set; names are the UTF-8 bytes the archive stores.
- Newc.FieldRefusedExactly: Python's `int(x, 16)` also takes signs, surrounding blanks, a `0x` prefix and underscores; the model refuses a header written with them, since a negative size would send the reader backwards.
- Newc.OnlyMembersRead: refuses those spellings too.
- Board2: names are compared as bytes, which is the comparison of the decoded strings because the wanted name is ASCII; hashes and console output are not modelled.
- BootImage: header versions 3 and 4 of boot.img, signing, argument parsing and the image digest, which is an input.
- VendorBoot: a ramdisk file that cannot be opened; contents are inputs.
- Parsing of the partition table bytes and their checksums (section 5.3 of the UEFI Specification): the parsed entries are inputs.
- Device read-only flags, mount checks, adb, gzip and dd: the storage after each write step is arbitrary; image files do not change while the installer runs.
- AutoFocus: measuring, auto exposure and streaming; the curve is fixed and real-valued, and a failed measurement is the value -1 of the curve.
- InstallerRun.EveryImageIsInPlace: write steps that keep to their own partition; `ImagesInPlaceExactly` has the exact condition for any write step.
- SecLog: the console layer and the spin lock; each write is one step, and the caller owes the kernel writer that its second chunk fits.
- Sfmt: arguments match the format, as for any C caller; drawing, input and power handling of the charging screen.
- Panel, touch, pen, redriver, camera sensor and lens drivers, and the older driver copies under gts9wifi-fedora/kernel/files: fixed write sequences, or this core with less state.
