# ALi platform library: verified models

Dafny models of the three parts of this repository that hold real state, concurrency or algorithms, and proofs
of what those parts are for.

**The demux library, `lib/libalisldmx`.**

- `handshake.dfy`, `flag_bits.dfy`, `flag_wait.dfy`: start, pause and stop against the thread that feeds a
  playback device. The two threads share only status bits; every test, set, clear, wait and call into the driver is one
  step of a machine, and the theorems are about every interleaving. `handshake_calls.dfy` is about what the calls do and
  that they end, `handshake_feed.dfy` about what is fed and that everything is.
- `device.dfy`, `slots.dfy`, `slot_answers.dfy`, `split_calls.dfy`: the slot tables of channels and section filters as
  values, the ownership invariant over all call histories, what each call answers and changes, and calls that drop their
  lock on the way.
- `lists.dfy`, `slot_rings.dfy`, `device_slots.dfy`: the intrusive circular lists as heap nodes against sequences,
  many such lists threaded through one table of slots, and the device as arrays and rings updated in place, refining
  the values.
- `dispatch*.dfy`: the section dispatcher, which drops its lock around user callbacks. `dispatch.dfy` is the step
  machine; `dispatch_safety.dfy` and `dispatch_steps.dfy` hold its invariant; `dispatch_theorems.dfy`,
  `dispatch_bound.dfy` and `dispatch_quiet.dfy` what follows from it, and `dispatch_witness.dfy` runs in which its
  weak spots show. Fields such as `life`, `late`, `delivered`, `shots`, `escaped` and `stray` are history: the steps
  write them but never branch on them.
- `crc32*.dfy`, `section_match.dfy`: the table-driven CRC against the bitwise one of Annex A of ISO/IEC 13818-1,
  and the masked match against its meaning bit by bit.
- `pids.dfy`, `pid_lists.dfy`, `compaction.dfy`, `service.dfy`: PID lists, in-place removal of marker packets, and
  the filling of service buffers.

**The command interpreter, `lib/libalislcli`.**

- `cli_abbrev.dfy`, `cli_tokens.dfy`: shortest unambiguous abbreviations and the tokenizer.
- `cli_tree.dfy`, `cli_links.dfy`, `cli_menu.dfy`, `cli_find.dfy`, `cli_lines.dfy`: the command tree as linked nodes
  with a cursor into it; registration, deletion, leaving a submenu, lookup and running a line. A node's address is an
  id, the null pointer is 0, and freed ids are not reused.

**The crypto devices, `lib/libalisldsc`**: `algo_device.dfy`, two levels of counts over one descriptor per type.

`sequences.dfy` holds facts about sequences that several of these share. `dafny verify dfyconfig.toml` checks the
whole project.

## Properties that fail, and when they hold

- **One delivery per enable.** A one-shot filter is switched off after its update exactly if its channel is running
  and the filter still one-shot when the callback returns (`OneShotSwitchedOffIff`). Two runs from a device just
  opened deliver to it twice: the callback stops the channel, which is started again (`StoppedChannelToldTwice`), or
  the filter is made continuous meanwhile and one-shot again afterwards (`ContinuousMeanwhileToldTwice`). Without
  either, there is at most one delivery (`OneShotDeliveries`).
- **A free call frees its own filter.** A call that waits for a callback looks at its slot again, whatever the slot
  holds by then. It acts on the filter it was made for exactly if the slot was not freed meanwhile (`RetryIsExact`);
  otherwise it follows a null pointer or frees somebody else's filter (`RetryOnFreedSlotFaults`,
  `RetryFreesAnotherFilter`).
- **Freeing a channel frees its filters.** The call takes the lock twice. The tables stay consistent exactly if the
  second half finds no filter on the channel (`SplitFreeKeepsOwnershipIff`), which callers ensure by allocating none
  on it meanwhile (`SplitFreeKeepsOwnership`); a filter that is allocated is orphaned (`SplitFreeBreaks`,
  `SecondHalfFindsFilter`).
- **Starting or stopping acts on the channel found.** The slot is found under the lock, tested without it, and acted
  on later. A call that goes on acts on the channel it found exactly if nobody freed that channel since the find
  (`ControlIsExact`, `SplitControlIsCall`). If it was freed, the outcome depends on the slot at the act: a free slot
  is put to use without being on a list, and one allocated again is started or stopped for somebody else
  (`SplitControlKeepsOwnershipIff`). A start breaks the tables only if the free falls between its test and its act,
  because a zeroed slot has no PID (`StartOfFreedSlotIsHarmless`, `SplitControlBreaks`); a stop does so wherever the
  free falls (`SplitStopBreaks`). Runs from a device just opened: `StartOnFreedSlotFaults`, `StopOnFreedSlotFaults`,
  `StartEnablesAnotherChannel`.
- **The dispatcher writes to filters only.** After a callback the walk clears the stamp of the filter it goes on
  with. At the end of the list it does so all the same, through the list's head, which is no filter. That happens
  exactly if, with the channel running, the callback's filter was stopped and is the last of the list, or was freed
  and the list is empty (`StrayWriteIff`). Runs from a device just opened: `FreedInCallbackStrays`,
  `StoppedInCallbackStrays`.
- **A new service channel asks its client for a buffer.** It does so unless the slot still holds one, which is the
  case exactly if a request callback freed the channel and stored its buffer afterwards (`Dispatch`,
  `StaleBufferStarvesNextUser`). If the slot has its next user by then, that user's bytes go into the buffer of the
  client before (`StaleBufferTakesNextUsersBytes`).
- **Removal of marker packets.** The length handed to the move becomes negative exactly if the last packet is a
  marker (`CompactionIsFilter`, `LoneMarkerBreaks`).
- **Adding PIDs.** The list is overrun exactly if it is full on entry and one of the PIDs is new (`AddPids`,
  `FullListIsOverrun`).
- **Abbreviations.** Lengths are built with case and tested without it. The test means "unambiguous abbreviation"
  exactly if ignoring case does not lengthen the abbreviation a name needs, or it has no proper one
  (`AbbreviationsAgreeIff`, `MixedCaseIsAmbiguous`); lower-case names always satisfy this.
- **One callback per lookup.** Several callbacks run exactly if the path has several commands and the last one's
  callback answers `CLI_ERROR_ARG` (`FindRunsSeveralIff`).
- **Reading a line back.** Words are read back as written if white space separates each plain word from a next one that
  is not a bar (`WrittenReadsBack`). Without it, a plain word is lost to a quoted one behind it (`GluedWordIsLost`), and
  a line that starts with a bar gets an empty word in front (`LeadingBarAddsAWord`).
- **One descriptor per type.** A second descriptor is opened for a live type exactly if the first one is 0 (`Open`,
  `ZeroIsOpenedTwice`).

The comment of the status table in `internal.h` and the code of start, pause and stop agree on all transitions
modelled (`CallsFollowTheTable`); where a call does not apply, the code returns 0 and changes nothing.

## Model

| member | source | states |
|---|---|---|
| Handshake.HandshakeSafety | lib/libalisldmx/src/alisldmx.c:1157-1219 | in every reachable state the feeder is in its feed region only while START is set, no flush happens while it is there, P3 is set only for a feeder at its P3 wait or clear, and neither P1 and P2 nor P2 and P3 are set together |
| Handshake.NoDeadlock | lib/libalisldmx/src/alisldmx.c:3571-3586 | no reachable state with a pending call is stuck: the caller can go on, or it waits for P2 and every feeder step is possible and brings P2 nearer |
| Handshake.WaitIsBounded | lib/libalisldmx/src/alisldmx.c:3571-3586 | a pause or stop waits for at most twelve feeder steps, with at most one write among them, and after that many P2 is set |
| Handshake.FeederStandsStill | lib/libalisldmx/src/alisldmx.c:1158-1163 | between the feeder's P2 and the caller's P3 the feeder cannot move |
| Handshake.NothingFedUnlessStarted | lib/libalisldmx/src/alisldmx.c:1165-1219 | over any run without a start call, from a state without START, no client is asked for data, whether or not it has any, and nothing is written to the driver |
| HandshakeCalls.CallsFollowTheTable | lib/libalisldmx/src/alisldmx.c:3497-3645 | however a start, pause or stop call interleaves with the feeder, it returns in the mode the transition table names, with exactly that mode's bit set, having done exactly what belongs to the call in that mode, in order: a stop of a running device handshakes, flushes after P3 and only then changes mode |
| HandshakeCalls.FlushesOnceIff | lib/libalisldmx/src/alisldmx.c:3512-3528 | a call flushes the driver, once, exactly if it is a start from fresh or stopped, or a stop from started or paused |
| HandshakeCalls.CallIsBounded | lib/libalisldmx/src/alisldmx.c:3497-3645 | a call takes at most eleven steps of its own, whatever the feeder does |
| HandshakeCalls.CallReturns | lib/libalisldmx/src/alisldmx.c:3571-3586 | from every state inside a call there are steps of the two threads that end it |
| Handshake.StreamConserved | lib/libalisldmx/src/alisldmx.c:1172-1218 | in every reachable state, across pauses and stops, the supplied bytes are the accepted ones followed by the rest of the current buffer |
| HandshakeFeed.RoundFeeds | lib/libalisldmx/src/alisldmx.c:1157-1219 | a round of the feeder of a started device, for any answers: a client is asked exactly if there is room and nothing left to write, and the driver gets exactly as much as it takes of the rest of the buffer or of what the client hands over, in order |
| HandshakeFeed.EverythingIsFedInTime | lib/libalisldmx/src/alisldmx.c:1195-1218 | if the driver has room and takes something at every write, all that was supplied is accepted within seven feeder steps for each byte, whatever clients supply meanwhile |
| HandshakeFeed.FeederGoesOn | lib/libalisldmx/src/alisldmx.c:1157-1165 | the feeder of a started device is never stuck |
| Handshake.RunKeepsInv | lib/libalisldmx/src/alisldmx.c:1157-1219 | every run of both threads keeps the joint invariant of modes, handshake bits, feeder position and stream |
| FlagBits.SetStatus | include/flag_op.h:45-53 | setting bits of the flag word joins them into the status, each bit for itself |
| FlagBits.ClearStatus | include/flag_op.h:55-62 | clearing bits of the flag word takes exactly them out of the status |
| FlagBits.WordBits | lib/libalisldmx/src/internal.h:39-48 | which bit of the word is START, PAUSE, STOP and each idle bit |
| FlagBits.IdleBits | lib/libalisldmx/src/internal.h:42-48 | joining or removing the bits of an idle constant changes that idle bit of the status and nothing else |
| FlagBits.EnterBits | lib/libalisldmx/src/alisldmx.c:3534-3534 | the bit a call sets in the word is the mode it enters |
| FlagBits.LeaveBits | lib/libalisldmx/src/alisldmx.c:3533-3533 | the bits a call clears in the word are the modes it leaves |
| FlagBits.Flag.Set | include/flag_op.h:45-53 | exactly the pattern's bits join the status |
| FlagBits.Flag.Clear | include/flag_op.h:55-62 | exactly the pattern's bits leave the status |
| FlagBits.Flag.TestsAny | include/flag_op.h:35-43 | whether status and pattern have a status bit in common |
| FlagBits.ControlOnWord | lib/libalisldmx/src/alisldmx.c:3497-3645 | a step of the control thread made of these operations on the word is the machine's step on the status |
| FlagBits.FeederOnWord | lib/libalisldmx/src/alisldmx.c:1158-1165 | a step of the feeder made of these operations on the word is the machine's step on the status |
| FlagWait.WaitBitTest | src/flag.c:19-66 | the wait ends with success exactly at the first round whose word passes the test, fails at the first failing wait before it, and hands every timed wait the deadline of the time left |
| FlagWait.Deadline | src/flag.c:38-44 | the deadline is the clock plus the limit, with nanoseconds below a second |
| FlagWait.TimeLeftIsNear | src/flag.c:55-62 | after k wake-ups the time left is within k milliseconds of the true remainder |
| FlagWait.FiniteStaysFinite | src/flag.c:28-62 | a limited wait never becomes the unlimited one, for any clock readings |
| FlagWait.ForeverStays | src/flag.c:28-62 | the largest limit never runs down |
| FlagWait.AnyIsCommon | include/bits_op.h:9-25 | testing for any bit is looking for a common one |
| FlagWait.AllIsNoneMissing | include/bits_op.h:9-25 | testing for all bits is finding none missing, and for equality both ways |
| FlagWait.ElapsedNear | src/flag.c:56-57 | the truncated millisecond count of one round is within a millisecond of the time that passed |
| Slots.HistoryKeepsOwnership | lib/libalisldmx/src/alisldmx.c:1241-1953 | over every history of calls, each channel list holds exactly the taken slots of its array once each, named by type and index, every live filter is on exactly its channel's list, and the filter count is that list's length |
| Slots.CallKeepsOwnership | lib/libalisldmx/src/alisldmx.c:1241-1953 | every single call keeps that invariant |
| Slots.IdDecodes | lib/libalisldmx/include/alisldmx.h:163-165 | a channel id decodes to the type and slot index it was made from, and is not 0 |
| Slots.AllocateChannelFailsIffFull | lib/libalisldmx/src/alisldmx.c:1841-1854 | allocating a channel fails exactly if all slots of its type are taken |
| Slots.AllocateFilterFailsIffFull | lib/libalisldmx/src/alisldmx.c:1265-1308 | allocating a filter on a live section channel fails exactly if all filter slots are live, and otherwise takes a free one |
| SlotAnswers.AllocatedChannelIs | lib/libalisldmx/src/alisldmx.c:1814-1876 | the id answered decodes to the type asked for and to the first slot of it that was free, which is stopped now, empty, last on its list and found by that id; a call that fails changes nothing, and no other slot changes |
| SlotAnswers.AllocatedFilterIs | lib/libalisldmx/src/alisldmx.c:1241-1312 | the number answered is the first filter slot that was free, which is stopped now, belongs to the channel named, is last on its list and is found by that number; every error has its condition, and nothing else changes |
| SlotAnswers.ControlledChannelIs | lib/libalisldmx/src/alisldmx.c:1977-2021 | the answer says whether the id has a type and names a channel, whose status alone changes |
| SlotAnswers.FreedChannelIs | lib/libalisldmx/src/alisldmx.c:1892-1957 | for every type: the answer, the slot wiped and off its list, the id naming nothing afterwards, all other channels as they were |
| SlotAnswers.FreedFiltersAre | lib/libalisldmx/src/alisldmx.c:1412-1465 | the answer, the list emptied, exactly the listed filters wiped |
| SlotAnswers.FreedFilterIs | lib/libalisldmx/src/alisldmx.c:1328-1396 | the answer says whether the number named a live filter, which it does not afterwards |
| SlotAnswers.LookIs | lib/libalisldmx/src/alisldmx.c:1357-1390 | the dispatcher's own thread frees a live filter at once, another waits exactly if it is in its callback |
| SlotAnswers.SetFilterIs | lib/libalisldmx/src/alisldmx.c:1504-1580 | a setter leaves exactly the pattern and continuity, the CRC setting, the callbacks or the status it was given in exactly the live filter named, or fails and changes nothing |
| SlotAnswers.Limits | lib/libalisldmx/include/alisldmx.h:157-165 | a device just opened has 32, 96, 16 and 10 channel slots by type and 176 filters, and gives out the ids 0x10000 to 0x40000 first |
| Slots.FreeChannelFreesItsFilters | lib/libalisldmx/src/alisldmx.c:1912-1953 | freeing a channel wipes its slot and exactly the filters that point to it, and no other slot |
| Slots.FreeFilterUnlinks | lib/libalisldmx/src/alisldmx.c:1340-1392 | freeing a filter wipes its slot and takes it off its own channel's list only, keeping the order of the others |
| SplitCalls.SplitFreeKeepsOwnershipIff | lib/libalisldmx/src/alisldmx.c:1917-1953 | with other calls between its two halves, freeing a channel keeps the tables consistent exactly if its second half finds no filter on the channel |
| SplitCalls.SplitFreeKeepsOwnership | lib/libalisldmx/src/alisldmx.c:1917-1953 | it does so whatever other calls get in between, as long as none allocates a filter on that channel |
| SplitCalls.SplitFreeBreaks | lib/libalisldmx/src/alisldmx.c:1917-1953 | one filter allocated on it in between, whenever a slot is left, orphans that filter |
| SplitCalls.SplitFreeBreaksAfterOpening | lib/libalisldmx/src/alisldmx.c:1917-1953 | this happens on a device just opened, with one channel |
| SplitCalls.SplitControlKeepsOwnershipIff | lib/libalisldmx/src/alisldmx.c:1997-2014 | with other calls before and after the test of a start or stop, the tables stay consistent exactly if the test ends the call or there is a channel in the slot at the act, and then the call is the one made at its end |
| SplitCalls.SplitControlIsCall | lib/libalisldmx/src/alisldmx.c:1997-2014 | the slot still holds the channel found exactly if none of these calls frees it, and then the call does what it does when made at its end |
| SplitCalls.UndisturbedControlIs | lib/libalisldmx/src/alisldmx.c:202-350 | with nothing in between, a start enables a channel that has a PID and leaves one without as it is, and a stop disables it |
| SplitCalls.StartOfFreedSlotIsHarmless | lib/libalisldmx/src/alisldmx.c:210-221 | a start whose slot is free at its test does nothing |
| SplitCalls.SplitControlBreaks | lib/libalisldmx/src/alisldmx.c:218-329 | freeing the channel between test and act leaves a slot in use that is on no list |
| SplitCalls.SplitStopBreaks | lib/libalisldmx/src/alisldmx.c:148-193 | a stop does so also if the channel is freed before its test |
| SplitCalls.HolderKeptIff | lib/libalisldmx/src/alisldmx.c:1943-1949 | over any history of calls a slot in use keeps its channel exactly if no call frees that channel |
| SplitCalls.SplitStartHitsAnother | lib/libalisldmx/src/alisldmx.c:1997-2014 | on a device with one channel, freeing it and allocating another after the test makes the start enable the other one |
| SlotRings.Rings.Init | lib/libalisldmx/src/alisldmx.c:1861-1861 | the head in a slot becomes an empty ring, and all other rings stay |
| SlotRings.Rings.Wipe | lib/libalisldmx/src/alisldmx.c:1949-1949 | the head is zeroed, and if its list was empty all rings stay rings |
| SlotRings.Rings.Link | lib/libalisldmx/src/alisldmx.c:1303-1303 | a slot on no list comes last on one, and every other ring stays as it is |
| SlotRings.Rings.Unlink | lib/libalisldmx/src/alisldmx.c:1384-1384 | a slot leaves its list from any position, and every other ring stays as it is |
| SlotRings.Rings.First | lib/libalisldmx/src/misc.h:567-571 | the slot behind the head is the first of the list |
| DeviceSlots.Demux.AllocateChannel | lib/libalisldmx/src/alisldmx.c:1814-1876 | on arrays and rings, exactly the value-level allocation; ownership is kept, and around the head of every channel lie the nodes of exactly its filters, in order |
| DeviceSlots.Demux.AllocateFilter | lib/libalisldmx/src/alisldmx.c:1241-1312 | on arrays and rings, exactly the value-level filter allocation, keeping the same |
| DeviceSlots.Demux.FreeFilter | lib/libalisldmx/src/alisldmx.c:1328-1396 | on arrays and rings, exactly the value-level free by the dispatcher's own thread, which never waits, keeping the same |
| DeviceSlots.Demux.LookToFree | lib/libalisldmx/src/alisldmx.c:1357-1390 | on arrays and rings, exactly one look of a free call of any thread: it marks the filter and waits for its callback, frees it, or follows the null pointer of a slot not in use |
| DeviceSlots.Demux.FreeFilterAll | lib/libalisldmx/src/alisldmx.c:1412-1465 | on arrays and rings, exactly the value-level free of all filters of a channel, keeping the same |
| DeviceSlots.Demux.WipeFilters | lib/libalisldmx/src/alisldmx.c:1445-1459 | the loop, taking one filter after the other off the ring's front, empties the channel's list, lowers its count by the list's length and wipes exactly the listed slots |
| DeviceSlots.Demux.DropChannel | lib/libalisldmx/src/alisldmx.c:1922-1953 | on arrays and rings, exactly the value-level second half of freeing a channel; all rings stay rings if the channel has no filter |
| DeviceSlots.Demux.FreeChannel | lib/libalisldmx/src/alisldmx.c:1892-1957 | on arrays and rings, exactly the value-level free of a channel, keeping ownership and rings |
| DeviceSlots.Demux.ChannelWithId | lib/libalisldmx/src/alisldmx.c:1740-1753 | the walk finds the first listed slot with the id |
| DeviceSlots.Demux.FilterWithId | lib/libalisldmx/src/alisldmx.c:1340-1356 | the scan finds the first live slot with the id |
| DispatchSteps.RunKeepsInv | lib/libalisldmx/src/alisldmx.c:429-668 | every interleaving of the dispatcher, its callbacks and other threads keeps the dispatcher's invariant, with freeing a channel in its two halves, freeing a filter as a series of looks, and starting or stopping a channel as find, test and act |
| DispatchTheorems.SessionChecksAreExact | lib/libalisldmx/src/alisldmx.c:525-582 | after a callback the filter's session check passes exactly if that slot was not freed since the callback began, likewise the channel's, and then the filter is live and listed |
| DispatchTheorems.UpdatesFollowTheirRequest | lib/libalisldmx/src/alisldmx.c:583-607 | every update that hands over a buffer goes to the incarnation whose request callback ended just before and had supplied a full-size buffer |
| DispatchTheorems.NewFilterIsBlank | lib/libalisldmx/src/alisldmx.c:1297-1303 | over all runs a filter just allocated is stopped, one-shot, without callbacks, CRC check or conditions, whatever its slot was used for before |
| DispatchTheorems.SectionSizes | lib/libalisldmx/src/alisldmx.c:441-464 | an idle dispatcher takes up exactly the sections of one to 4096 bytes, of running channels |
| DispatchTheorems.FreeWaitsForTheCallback | lib/libalisldmx/src/alisldmx.c:1357-1392 | another thread's look at a live filter marks it and waits exactly if its callback runs, and otherwise frees it, touching no other filter |
| DispatchTheorems.RetryIsExact | lib/libalisldmx/src/alisldmx.c:1359-1390 | over all runs, a look after the pause acts on the filter the call was made for exactly if that slot was not freed since the call began; on a slot that is free it faults, and on one allocated again it marks or frees the new filter |
| DispatchWitness.RetryOnFreedSlotFaults | lib/libalisldmx/src/alisldmx.c:1359-1377 | from a device just opened, a free call waits, the callback frees the filter, and the next look follows a null pointer |
| DispatchWitness.RetryFreesAnotherFilter | lib/libalisldmx/src/alisldmx.c:1359-1390 | the same with the slot allocated again: the next look frees the new filter |
| DispatchTheorems.ControlIsExact | lib/libalisldmx/src/alisldmx.c:1997-2014 | over all runs, the act of a start or stop changes the channel its call found exactly if that slot was not freed since; on a slot that is free it puts it to use, and on one allocated again it changes the new channel |
| DispatchTheorems.StartOnFreedSlotIsHarmless | lib/libalisldmx/src/alisldmx.c:210-221 | at its test, a start of a slot that is free changes nothing and ends |
| DispatchTheorems.FaultsIff | lib/libalisldmx/src/alisldmx.c:429-668 | over all runs, a step goes wrong exactly if it is a repeated look at a free slot, a second half that finds a filter on its channel, or an act on a free slot |
| DispatchTheorems.StrayWriteIff | lib/libalisldmx/src/alisldmx.c:553-582 | over all runs, a stamp is written through the head of a list exactly at the step after a callback whose filter was stopped and is the list's last, or was freed with the list empty, the channel running |
| DispatchWitness.FreedInCallbackStrays | lib/libalisldmx/src/alisldmx.c:641-649 | from a device just opened, a callback that frees the only filter leads to that write |
| DispatchWitness.StoppedInCallbackStrays | lib/libalisldmx/src/alisldmx.c:631-639 | so does one that stops its filter, the last |
| DispatchWitness.StartOnFreedSlotFaults | lib/libalisldmx/src/alisldmx.c:218-329 | from a device just opened, a channel freed after the test is started in a free slot |
| DispatchWitness.StopOnFreedSlotFaults | lib/libalisldmx/src/alisldmx.c:148-193 | a channel freed right after the find is stopped in a free slot |
| DispatchWitness.StartEnablesAnotherChannel | lib/libalisldmx/src/alisldmx.c:1997-2014 | with another channel in the slot by then, the start enables that one |
| DispatchWitness.SecondHalfFindsFilter | lib/libalisldmx/src/alisldmx.c:1917-1953 | from a device just opened, a filter allocated between the halves of freeing its channel is found by the second |
| DispatchTheorems.LateCallbacks | lib/libalisldmx/src/alisldmx.c:485-495 | once a free waits for a filter, at most one more of its callbacks, request or update, begins |
| DispatchTheorems.LateCallbackIsPairedUpdate | lib/libalisldmx/src/alisldmx.c:597-607 | that one is the update paired with a request already running |
| DispatchTheorems.DeliveriesPerDispatch | lib/libalisldmx/src/alisldmx.c:473-495 | within a dispatch a filter gets one delivery, plus one for each time it was found stopped after an update |
| DispatchTheorems.OneShotDeliveries | lib/libalisldmx/src/alisldmx.c:655-664 | a filter that since it was enabled was never continuous, and had no update end with its channel stopped, got at most one delivery since then |
| DispatchTheorems.OneShotSwitchedOffIff | lib/libalisldmx/src/alisldmx.c:608-664 | after its update an enabled filter is switched off exactly if it is one-shot and its channel is running at that moment |
| DispatchWitness.EscapedOneShotDeliveredAgain | lib/libalisldmx/src/alisldmx.c:608-664 | from every state in the update of a matching one-shot filter that heads its list there is a run that stops and starts the channel and delivers to the filter a second time on one enable |
| DispatchWitness.StoppedChannelToldTwice | lib/libalisldmx/src/alisldmx.c:608-664 | such a state, and so that second delivery, is reached from a device just opened, with any section |
| DispatchWitness.ContinuousMeanwhileToldTwice | lib/libalisldmx/src/alisldmx.c:655-664 | from a device just opened, with the channel running all along, a filter made continuous during its update and one-shot again afterwards is delivered to twice on one enable |
| DispatchBound.DispatchIsBounded | lib/libalisldmx/src/alisldmx.c:473-668 | however calls that allocate no filter interleave, the dispatcher takes no more steps than its starting rank |
| DispatchBound.RankAtBegin | lib/libalisldmx/src/alisldmx.c:466-475 | that rank is a function of the number of listed filters |
| DispatchQuiet.DispatchRefinesFilter | lib/libalisldmx/src/alisldmx.c:466-668 | whatever calls callbacks and threads make that leave this channel and its filters alone, one dispatch calls back, in list order and once each, exactly the enabled, non-closing filters that match bit by bit and, if asked, whose own CRC is 0; it tells of the section exactly those of them that did not ask for a buffer in vain, and switches off exactly the one-shot ones among these |
| DispatchQuiet.SharedVerdict | lib/libalisldmx/src/alisldmx.c:507-523 | the once-computed CRC flag agrees with checking the section for each filter |
| SectionMatch.SectionHit | lib/libalisldmx/src/alisldmx.c:353-406 | the masked comparison holds exactly if every positive bit agrees and, when there are negative bits, one of them differs |
| Crc32.CalcCrc32 | lib/libalisldmx/src/alisldmx.c:130-141 | the table-driven loop computes the bitwise MSB-first CRC with polynomial 0x04C11DB7 for every byte string |
| Crc32.TableElement | lib/libalisldmx/src/internal.h:348-365 | the bitwise generator feeds its bytes bit by bit from any register value |
| Crc32.TableInit | lib/libalisldmx/src/internal.h:367-375 | what the generator produces for an index is the table's entry |
| Crc32Table.EntryIsGenerated | lib/libalisldmx/src/internal.h:385-419 | every one of the 256 table constants is the generator's value |
| Crc32.TableStep | lib/libalisldmx/src/alisldmx.c:136-138 | one table step is eight bit steps |
| Crc32.ResidueIsZeroIff | lib/libalisldmx/src/alisldmx.c:507-523 | a section checks to 0 exactly if its last four bytes are the CRC of the rest, big-endian |
| Crc32.PresetIsAllOnes | lib/libalisldmx/src/alisldmx.c:133-133 | the one word that checks to 0 on its own is all ones |
| Crc32.PresetComplements | lib/libalisldmx/src/alisldmx.c:130-141 | presetting the register is complementing the first 32 bits of the section |
| Crc32.CheckValue | lib/libalisldmx/src/alisldmx.c:130-141 | the CRC of the characters 1 to 9 is 0x0376E6E7, the published check value |
| Crc32.BurstDetected | lib/libalisldmx/src/alisldmx.c:130-141 | two strings of one length that differ only within four consecutive bytes have different CRCs |
| Crc32.FeedInjective | lib/libalisldmx/src/alisldmx.c:130-141 | feeding the same bytes into different registers gives different registers |
| Lists.RingInverse | lib/libalisldmx/src/misc.h:75-77 | around a ring next and prev undo each other at every node |
| Lists.Init | lib/libalisldmx/src/misc.h:94-100 | an initialised head is the empty list |
| Lists.Empty | lib/libalisldmx/src/misc.h:258-264 | whether the list has no entries |
| Lists.Singular | lib/libalisldmx/src/misc.h:303-306 | whether the list has exactly one entry |
| Lists.LinkBetween | lib/libalisldmx/src/misc.h:109-117 | the new node is linked both ways between its neighbours, also if they are one node |
| Lists.Add | lib/libalisldmx/src/misc.h:132-135 | the new entry comes first, and nothing outside the three nodes named changes |
| Lists.AddTail | lib/libalisldmx/src/misc.h:146-149 | the new entry comes last |
| Lists.Unlink | lib/libalisldmx/src/misc.h:158-174 | the entry is bypassed and keeps its own pointers |
| Lists.Delete | lib/libalisldmx/src/misc.h:176-181 | the list lacks exactly the entry, whose pointers are null |
| Lists.MoveTail | lib/libalisldmx/src/misc.h:236-241 | the entry is last in the target, also if that is its own list, and gone from the source |
| Lists.CutPosition | lib/libalisldmx/src/misc.h:308-345 | the entries up to the given one are in the new list, the rest in the old one; an empty list leaves the new head alone |
| Lists.Splice | lib/libalisldmx/src/misc.h:348-372 | the spliced entries come first, then the old ones |
| Lists.CutAndSplice | lib/libalisldmx/src/misc.h:308-372 | cutting a non-empty list at any entry and splicing the piece back restores it |
| Lists.ForEachSafe | lib/libalisldmx/src/misc.h:567-571 | every original entry is visited once, in order, even if the current one is deleted, and exactly the deleted ones are gone |
| Pids.SetInFirstOccurrenceOrder | lib/libalisldmx/src/alisldmx.c:2102-2130 | the PIDs of a list that is set stand in the order in which the caller first names them |
| Pids.AppendedFacts | lib/libalisldmx/src/alisldmx.c:2414-2436 | adding keeps the old list as a beginning, has no duplicates, and holds exactly the old PIDs and those named |
| Pids.PidBits | lib/libalisldmx/src/alisldmx.c:2109-2113 | a PID is the low 13 bits of its word, and all ones are none |
| Pids.DeleteUndoesAdd | lib/libalisldmx/src/alisldmx.c:2408-2478 | deleting undoes an untruncated addition of new PIDs |
| Pids.AddTwice | lib/libalisldmx/src/alisldmx.c:2414-2436 | adding in two calls is adding once |
| PidLists.Channel.SetPids | lib/libalisldmx/src/alisldmx.c:2246-2265 | a record channel gets the distinct masked PIDs named, up to the array's length, any other the first valid one as written or keeps its own; the driver's copy follows whenever there is a PID |
| PidLists.Channel.Extend | lib/libalisldmx/src/alisldmx.c:2102-2136 | the loop yields the list with the new PIDs, truncated to the array, and overruns the array exactly if it starts full and finds a new one |
| PidLists.Channel.UseFirst | lib/libalisldmx/src/alisldmx.c:2138-2173 | the first valid PID as written, or no change |
| PidLists.FirstPidAt | lib/libalisldmx/src/alisldmx.c:2151-2167 | the PID used is that of the first position that holds one |
| PidLists.Channel.AddPids | lib/libalisldmx/src/alisldmx.c:2408-2442 | the list gains exactly the new PIDs named, stays free of duplicates, and the driver's copy equals it, unless the list was full and a PID is new |
| PidLists.FullListIsOverrun | lib/libalisldmx/src/alisldmx.c:2426-2428 | a second PID added to a full list of one entry overruns it |
| PidLists.Channel.DeletePids | lib/libalisldmx/src/alisldmx.c:2444-2478 | the list loses exactly the PIDs named, in order, and the driver's copy equals it |
| Compaction.CompactionIsFilter | lib/libalisldmx/src/alisldmx.c:2362-2376 | the loop ends well exactly if the last packet is no marker, and then keeps exactly the other packets, in order |
| Compaction.MarkerIs | lib/libalisldmx/src/alisldmx.c:2363-2365 | a marker packet is one that starts with 0x32 four times |
| Compaction.Compact | lib/libalisldmx/src/alisldmx.c:2361-2376 | on the bytes of whole packets: it ends well exactly if the last packet is no marker, the buffer then begins with the non-marker packets, and their length is reported |
| Compaction.LoneMarkerBreaks | lib/libalisldmx/src/alisldmx.c:2371-2371 | a single marker packet makes the move length negative |
| Service.Channel.Dispatch | lib/libalisldmx/src/alisldmx.c:925-1013 | exactly what the driver offers and the buffer has room for joins the stream of the channel in the slot at the read, a buffer is given up and reported to that channel's client exactly if that fills it, status and callbacks are what callbacks that stop, free or replace the channel leave, no other channel's history changes, and a slot left free keeps a buffer exactly if the request callback stored one afterwards |
| Service.Channel.Reallocate | lib/libalisldmx/src/alisldmx.c:1855-1872 | a slot allocated again starts a new stream and keeps a buffer left in it |
| Service.StaleBufferStarvesNextUser | lib/libalisldmx/src/alisldmx.c:944-978 | a request callback that frees its channel and then stores an empty buffer leaves the slot's next user without room and never asked |
| Service.StaleBufferTakesNextUsersBytes | lib/libalisldmx/src/alisldmx.c:944-1009 | a channel replaced while its request callback runs has its bytes put into the buffer of the client before, and its own client told of them |
| Service.Channel.ReportsAreConsecutive | lib/libalisldmx/src/alisldmx.c:979-1009 | the buffers a channel filled are consecutive stretches of the bytes it read, for the present user of a slot and all before |
| CliAbbrev.AbbreviationsAgree | lib/libalislcli/src/libalislcli.c:797-807 | for lower-case siblings a non-empty word finds a command exactly if it is its name, or abbreviates it and no other |
| CliAbbrev.AbbreviationsAgreeIff | lib/libalislcli/src/libalislcli.c:559-587 | for any names, the test means that for every word exactly if ignoring case needs no longer abbreviation, or the name has no proper one |
| CliAbbrev.MixedCaseIsAmbiguous | lib/libalislcli/src/libalislcli.c:575-576 | two names that start with one letter in two cases are both found by it |
| CliAbbrev.AtMostOneFound | lib/libalislcli/src/libalislcli.c:803-807 | at most one of several distinct lower-case siblings is found, also by lengths from before removals |
| CliAbbrev.RemovalKeepsLongLengths | lib/libalislcli/src/libalislcli.c:958-983 | removing a sibling leaves the remaining lengths long enough for that |
| CliAbbrev.AcceptsMeans | lib/libalislcli/src/libalislcli.c:803-807 | the two comparisons accept exactly the beginnings of the name, ignoring case, that are long enough or whole |
| CliAbbrev.BuildShortest | lib/libalislcli/src/libalislcli.c:559-587 | every length of a list is one more than the longest prefix shared with another name |
| CliTokens.ParseLine | lib/libalislcli/src/libalislcli.c:637-691 | the scan terminates on every line and stores the first words of the line's token sequence, at most one less than asked for |
| CliTokens.WrittenReadsBack | lib/libalislcli/src/libalislcli.c:637-691 | plain words, words in either kind of quotes and bars, with any white space around them and some between a plain word and a next one that is not a bar, are read back as those words |
| CliTokens.GluedWordIsLost | lib/libalislcli/src/libalislcli.c:675-677 | a plain word directly before a quote is dropped |
| CliTokens.BlankLine | lib/libalislcli/src/libalislcli.c:644-650 | a line of white space has no words |
| CliTokens.CharacterCodes | lib/libalislcli/src/libalislcli.c:653-675 | which characters are white space and quotes |
| CliTokens.LeadingBarAddsAWord | lib/libalislcli/src/libalislcli.c:644-666 | a line that starts with a bar is read with an empty word in front |
| CliTokens.ParseWritten | lib/libalislcli/src/libalislcli.c:637-691 | such a line of fewer words than the limit is parsed back to exactly its words |
| CliTree.PrunedOk | lib/libalislcli/src/libalislcli.c:943-990 | taking whole subtrees out of a tree leaves a tree |
| CliTree.DoomedSplits | lib/libalislcli/src/libalislcli.c:947-951 | what is below a command is the command and what is below its children |
| CliMenu.Cli.Register | lib/libalislcli/src/libalislcli.c:501-603 | the command is the last of its siblings, all else keeps its place and name, every length in the whole menu is fresh, and the cursor moves only in an empty menu |
| CliMenu.Cli.BuildShortest | lib/libalislcli/src/libalislcli.c:559-587 | the recursion makes the lengths of a list and of all lists below it fresh and changes nothing else |
| CliMenu.Cli.Delete | lib/libalislcli/src/libalislcli.c:943-990 | exactly the command's subtree goes, all other siblings keep their order, and the cursor heads a live list or the menu is empty |
| CliMenu.Cli.Bypass | lib/libalislcli/src/libalislcli.c:953-984 | the one pointer to the command points behind it, and the cursor moves off it to the list above, or to the top |
| CliMenu.Cli.Exit | lib/libalislcli/src/libalislcli.c:461-481 | the cursor moves to the list that holds the submenu's command, or the top is left |
| CliMenu.Cli.Enter | lib/libalislcli/src/libalislcli.c:848-852 | the cursor heads the children of the command |
| CliFind.Find | lib/libalislcli/src/libalislcli.c:768-879 | the recursive lookup runs exactly the callbacks of the specified search, the built-in exit among them, returns its result, and leaves the cursor where it says |
| CliFind.FindRunsUpThePath | lib/libalislcli/src/libalislcli.c:809-861 | the callbacks run are those of the path from its end upwards, to the first that does not answer CLI_ERROR_ARG; the cursor is in the submenu of the last that has one, or one menu up after the built-in exit |
| CliFind.FindRunsOne | lib/libalislcli/src/libalislcli.c:809-861 | if none answers that, at most one runs: that at the end of the path, with the arguments from its own word |
| CliFind.FindRunsSeveralIff | lib/libalislcli/src/libalislcli.c:832-846 | several run exactly if the path is longer than one and its last callback answers CLI_ERROR_ARG |
| CliFind.FreshListMeans | lib/libalislcli/src/libalislcli.c:589-603 | after any registration a non-empty word finds a command of a list of lower-case names exactly if it is its name, or abbreviates it and no other of the list |
| CliLines.MatchIsFirstMeant | lib/libalislcli/src/libalislcli.c:797-807 | with fresh lengths a lookup in a list finds the first command of the given mode whose name the word is or abbreviates unambiguously, or none if there is none |
| CliLines.PathIsMeant | lib/libalislcli/src/libalislcli.c:797-846 | the path of a line is the one its words mean, menu by menu, in those terms |
| CliLines.SearchReaches | lib/libalislcli/src/libalislcli.c:797-801 | a lookup runs commands of its own mode only, in the menu it looks into or below |
| CliLines.LineRunsByMode | lib/libalislcli/src/libalislcli.c:912-933 | a line runs own commands of the current menu and below, and then global ones exactly if that did not end well, the second lookup deciding the result |
| CliLines.HelpRunsNothing | lib/libalislcli/src/libalislcli.c:783-795 | a word that ends in a question mark, reached by the words before it, ends the lookup well with nothing run |
| CliFind.PathIsLongest | lib/libalislcli/src/libalislcli.c:797-837 | whatever the words resolve to is a beginning of the path, for distinct lower-case siblings |
| CliFind.PathResolves | lib/libalislcli/src/libalislcli.c:797-837 | the path itself resolves word by word |
| CliFind.RunCommand | lib/libalislcli/src/libalislcli.c:896-941 | the first 127 words of a line are looked up in the current menu and, unless that went well, at the top, with the cursor carried through both |
| CliFind.LineRunsAtMostTwo | lib/libalislcli/src/libalislcli.c:915-933 | a line runs at most two callbacks, the second only if the first was not well |
| CliFind.ExitUndoesEnter | lib/libalislcli/src/libalislcli.c:461-481 | a line that enters a submenu, and one that names only the built-in exit, leave the cursor in the menu that holds the submenu's command |
| AlgoDevice.AlgoDevices.Open | lib/libalisldsc/src/alisl_algo_api.c:70-154 | another descriptor is opened exactly if the sub-device is unused and its type has no live one or one whose descriptor is 0; counts and descriptors change only on success, and sharing is kept otherwise |
| AlgoDevice.AlgoDevices.Close | lib/libalisldsc/src/alisl_algo_api.c:157-193 | the count goes down by one, and the descriptor is closed exactly with the last live sub-device of the type |
| AlgoDevice.TypesAre | lib/libalisldsc/src/alisl_algo_api.c:55-68 | DES and triple DES share a device, SHA has none, the others have one each |
| AlgoDevice.ZeroIsOpenedTwice | lib/libalisldsc/src/alisl_algo_api.c:113-121 | where descriptor 0 is handed out, two sub-devices of one type open it twice |
| AlgoDevice.LastClosed | lib/libalisldsc/src/alisl_algo_api.c:174-189 | closing a sub-device for the last time leaves the others sharing an open descriptor, or none open |
| AlgoDevice.FirstOpened | lib/libalisldsc/src/alisl_algo_api.c:112-151 | a first opening shares the descriptor of a live sub-device or brings the type's only one |

## Left out

- `record_dispatch`, `poll_reactor`, epoll, thread cancellation in close, and the event library: driver framing,
  kernel behaviour and detached-thread timing.
- The interactive line editor, completion, history and help output of the interpreter.
- `cli_find_command_ext` and the unregistration by name built on it: only the deletion of a found command is modelled.
- `libalisldb`, `libalisldis`, `libalislavsync`, `libalislcc`, `libalislce`, `libalislcic`, `libalislgpio` and the
  other wrappers: ioctl pass-through; the PVR, SHA and VMX parts of `libalisldsc`; logging; all example programs.
- The driver's headers are not part of this model: the length of a PID list and the number of virtual crypto devices
  are parameters.
- Memory allocation failure in the interpreter, and null pointers passed for handles, names and commands.
- Handshake.StreamConserved: client buffers are not null, because a null buffer with fast copy switched on has no
  bytes to follow; other users of the feed mutex, such as direct writes, are not part of the machine.
- Handshake.NoDeadlock: the device has a feed descriptor and one thread calls start, pause and stop; closing is not
  modelled.
- FlagWait.TimeLeftIsNear: each round's clock does not run back or leap by 2^32 milliseconds; `FiniteStaysFinite`
  needs neither.
- DispatchSteps.RunKeepsInv: all other calls are one step each; whether a channel has a PID when it is started is a
  parameter of the test; and what a device does after a fault is not modelled. What the stamp written through a list's
  head hits is not modelled either, because it is none of the fields in the tables.
- DispatchBound.DispatchIsBounded: the same stamp is taken not to hit anything the walk depends on.
- DeviceSlots.Demux.ChannelWithId: the lists of channels by type are sequences; only the filter lists are rings.
- DeviceSlots.Demux.FreeFilter: the call of the dispatcher's own thread; that of any other thread is a series of
  `LookToFree`, and what may happen between two of them is part of the dispatcher's machine.
- Compaction.Compact: reads of whole packets only; a failed read or a partial packet is not modelled.
- PidLists.Channel.AddPids: what an overrun array holds is not specified.
- CliFind.Find: callbacks neither register nor delete commands; an empty word is taken not to end in a question
  mark, where the code looks at the byte before it.
- CliMenu.Cli.Exit: called with the menu not empty, because the code follows the cursor.
- CliMenu.Cli.Register: the parent is a live command or none.
- AlgoDevice.AlgoDevices.Close: the handle is live; a handle closed too often is not modelled.
