# mod_siprec, proved

`mod_siprec` records calls over SIPREC: it copies a call's audio as RTP to a recording server (SRS), announced by a SIP
leg of its own. This project models the parts of the module in which a mistake costs a call its recording, sends audio
that should have stayed in the box, or frees memory that is still in use, and proves what they guarantee.

`dafny verify dfyconfig.toml` checks everything. Nothing was executed: all statements are about the model.

## What is modelled

**The recording lifetime protocol** (`RecordingTable`, `RecordingProtocol`, `Ledger`, `Protocol*`). Any number of
threads run starts, stops, pauses, resumes, call hangups, SRS-side hangups and module unloads. One step is one hold of
`recordings_mutex`, or one piece of the unlocked work between two holds; originates, re-INVITEs, session lookups, bug
adds and the hash's iteration order are free choices. A run is any finite sequence of such steps, so a lemma over
`acts: seq<Action>` is a statement about every interleaving. A step that would dereference a recording whose pool was
freed is a `Faults` step; that none is ever reached is a theorem, not a premise. `Ledger` is the bare ownership
discipline (pins and owners), `ProtocolMonitor` a watchdog automaton that reads a run's log and knows nothing of the
protocol's state; every run is proved to keep the first and to be accepted by the second. `ProtocolDrainEnds` and
`ProtocolDrainProgress` say what a drain leaves behind and that it ends; `ProtocolHandler*` follow the call's hangup
handler beside its hashed recordings, `ProtocolUnload` what of both an unload leaves. `ProtocolOperations` and
`ProtocolEffects` follow one operation from its begin to its return inside any run (a pause, a resume, a stop, a leg-end, a
start, a tick) and say what it has done by then, `ProtocolLegs` how a leg is used up; `ProtocolUndisturbed` what it does,
from any reachable state, when nobody is in between.

**The same functions as objects** (`RecordingSession`): `recording_t` and the globals as classes whose methods change
their fields in place, each proved equal to the holds of `RecordingTable` plus the unlocked work, with nobody in between.

**The media fork** (`RtpPacket`, `MediaFork`, `MediaTimeline`, `MediaFrames`, `MediaSamples`): packing, `send_stream`, the
READ_PING callback, pause and resume as an object with modular counters, and what an SRS sees over any run of ticks,
silences, send failures, pauses and resumes, down to the sample each payload byte encodes. `ForkInProtocol` joins the two: the log of any run of the protocol, read for one recording, is a run of that
recording's fork.

**The SDP answer** (`SdpScan`, `SdpAnswer`, `SdpText`, `SdpLeaks`, `SdpRender`, `StreamSelection`): the cursor loop refines a description by blocks,
`sscanf` is modelled over the remaining text as the C library runs it, `SdpText` says what replacing lines of the text
can change and `SdpLeaks` where that fails, `SdpRender` writes answers out and has them read back, and the result is followed through to the fork's streams and their descriptors.

**The metadata** (`XmlText`, `XmlTree`, `Metadata`, `MetadataFields`, `StringBuffer`, `MetadataBuild`, `MetadataId`,
`MetadataHex`): the builder over the growable buffer under an allocator that may refuse any call, an independent reader of the
emitted grammar and where it finds each field, and the IDs with an independent hex printer and base64 table.

**Failover** (`Failover`): linked lists from the configuration file to the INVITE.

## Where the code and its documentation part

- `recording_session.c:335-342` and `recording_session.h:61-66` say that the hash is empty when
  `siprec_teardown_all_recordings` returns. A start may insert after the drain's last scan: `ProtocolDrain.UnloadCanLeaveOne`
  is such a run. What holds is `ProtocolDrainEnds.DrainEmptiesUnlessInserted`, and, of a condition on the moment of that
  last scan, `ProtocolDrainEnds.DrainEmptiesWithoutStarts`.
- `recording_session.c:216-235` says that a call whose recordings were all stopped holds nothing of this module, so that no
  handler points into an unloaded one. A start binds the handler after its insert, in a step of its own (`:635-641`), and a
  stop can claim the recording in between; the start goes on, answers, attaches, and its doomed last release
  (`:795-803`) does not look at the handler again. `ProtocolHandlerExamples.StrandedHandler` is a run after which every
  thread is idle, no recording exists and the call still holds the handler. `HandlerlessRecording` is the mirror case: an
  unload unbinds (`:312-314`) after another start of the call has bound. `BoundInVainIff` and `HashedInVainIff` say
  exactly when either happens, `HandlersFollowRecordings` that neither does while no start of the call runs beside another
  start or stop of it, and `ProtocolUnload.UnloadLeavesNoHandler` what that means for an unload.
- The scan of an `m=` line is not bounded by the line's end (`siprec_sdp.c:76`), so "exactly its own block" (`:26-32`) holds
  of texts whose audio lines have all their fields. `SdpText.LineIsLocalIff` says for which lines that is, and
  `SdpLeaks.IdleLinesReachIff` and `NextBlockReachesIff` which lines, anywhere in an answer, let later ones into their entry.
- `name-uuid` keys (`recording_session.c:64-67`) tell two calls apart unless one's uuid ends in a hyphen and the other's:
  `RecordingKey.KeysCollideIff`. Statements about runs that need it assume it of the calls' uuids; that all uuids have one
  length is sufficient (`OneLengthTellsApart`).

## How to read the pause and leg-end claims

A media tick is two-phase: it begins, sends packets and ends. Setting the pause flag or `leg_gone` does not interrupt a
tick that is already under way, in the model as in FreeSWITCH; the claims are that no tick *begins* afterwards, and that
a packet that still leaves belongs to a tick that began before. A pause gates only a fork that is attached (`siprec_media.c:607-613`).
The leg's hangup handler may run with any key and leg uuid at any time, which covers what the real handler can be given.

## Model

| member | source | states |
|---|---|---|
| `ProtocolTheorems.NoUseAfterFree` | recording_session.c:92-215 | in every interleaving no step dereferences a recording whose pool was freed |
| `ProtocolTheorems.PinsAreCounted` | recording_session.c:92-164 | in every run `use_count` is the number of threads holding a pin; hashed implies not doomed; unhashed and pinned implies doomed; unhashed and unpinned means exactly one thread may free it |
| `ProtocolTheorems.QuiescentRunsStrandNothing` | recording_session.c:405-421 | when all threads are idle every recording ever inserted is either hashed with no pins or was detached, BYEd and freed exactly once |
| `ProtocolTheorems.TeardownOrder` | recording_session.c:210-215 | detach, BYE and free come in this order and at most once each; no packet or tick after the detach; nothing re-enters the hash; the module's own BYE marks nothing |
| `ProtocolTheorems.TeardownSkipsNothing` | recording_session.c:197-215 | a fork is detached only after its recording left the hash, a leg BYEd only after its fork was detached, an inserted recording freed only after its leg was BYEd |
| `ProtocolTheorems.EveryLifeIsAccepted` | recording_session.c:92-215 | every run's log is accepted by every recording's watchdog, which is what the log lemmas need |
| `ProtocolTheorems.MarkedForkStops` | siprec_media.c:247-254 | after a leg-end marked a recording none of its ticks begins |
| `ProtocolTheorems.LateHangupSparesReplacement` | recording_session.c:176-195 | a leg's hangup marks only the recording whose INVITE that leg answered, never a later one under the same key |
| `ProtocolTheorems.LegsAreUnique` | siprec_invite.c:309-324 | over every run an answered leg belongs to one recording for good |
| `ProtocolSafety.ThreadTouchesLive` | recording_session.c:77-91 | under the ownership invariant every recording that any thread's next step dereferences is alive |
| `ProtocolSafety.EffectKeeps` | recording_session.c:92-164 | every step of every thread and of the media keeps the ownership invariant |
| `ProtocolRuns.RunsAreGood` | recording_session.c:92-421 | ownership, accepted logs and one-start-per-recording hold in every reachable state |
| `Ledger.Pins` | recording_session.c:128-141 | pinning a hashed recording keeps the count, the hash, sole ownership and that nothing is stranded |
| `Ledger.Unpins` | recording_session.c:149-164 | so does dropping a pin that is not a doomed recording's last |
| `Ledger.UnpinsLast` | recording_session.c:155-162 | dropping a doomed recording's last pin makes that thread the only owner |
| `Ledger.Claims` | recording_session.c:96-113 | deleting an unpinned recording from the hash makes the claimer its only owner |
| `Ledger.Dooms` | recording_session.c:103-111 | deleting a pinned one leaves it doomed and waiting for its last pin |
| `Ledger.Inserts` | recording_session.c:605-626 | inserting a pinned recording over a stale one hands the stale one to the start |
| `Ledger.Discards` | recording_session.c:412-417 | unhashing only one's own entry and dooming it strands nothing, even when the key was reused |
| `ProtocolOutcomes.StartOutcomesAreTruthful` | recording_session.c:599-806 | SUCCESS: at the final release hashed, undoomed, pinned, answered and attached; FALSE: out of the hash and freed, doomed to its last pin or in its owner's hands; INUSE: never inserted and freed, and at some moment of the run this start stood at its check and its key held another recording, pinned or with a live leg |
| `ProtocolOutcomes.InsertOrRefuse` | recording_session.c:605-626 | in every reachable state the check turns a start away exactly when its key holds a recording pinned or with a live leg; otherwise it takes the key, pinned, and the old entry is its to tear down |
| `ProtocolOutcomes.DeadRecordingIsReplaced` | recording_session.c:606-633 | a hashed recording that some leg-end of the run marked and that nobody pins is replaced by the next start that checks its key, which then tears it down |
| `ProtocolOutcomes.RankGrows` | recording_session.c:77-91 | no step takes a recording back to an earlier phase of its life |
| `ProtocolGate.NothingLeavesWhilePaused` | mod_siprec.c:348-437 | a tick that begins after a pause found the fork attached comes after a resume that began after that pause: its own `src_enabled` check, with no other check of that thread up to its ungate, its answered re-INVITE, its ungate |
| `ProtocolGate.UngateIsEarned` | mod_siprec.c:364-434 | every ungate follows the passed check of the very resume that ungates and its answered re-INVITE, both since the last gate |
| `ProtocolGate.PausedPacketIsOld` | siprec_media.c:615-620 | in any interleaving a packet after a gate, with no ungate since, belongs to a tick that was under way at the gate |
| `ProtocolGate.MarkedPacketIsOld` | siprec_media.c:243-254 | a packet after a leg-end belongs to a tick that was under way then |
| `ProtocolGate.GateHolds` | siprec_media.c:615-643 | in any interleaving there is an ungate between a gate and a later tick |
| `ProtocolGate.PacketHasTick` | siprec_media.c:225-321 | every packet belongs to a tick that began before it and had not ended |
| `ProtocolOperations.PauseGatesFirst` | mod_siprec.c:379-416 | in any run, from the begin of a pause: if its first step finds the fork attached under its key, its very next step, before it reads the leg, gates that fork, unless the bug was closed in between |
| `ProtocolOperations.PausedByReturn` | mod_siprec.c:379-437 | in any run a pause that found the fork attached has gated it by the time it returns, or the bug was closed meanwhile |
| `ProtocolOperations.ResumedByReturn` | mod_siprec.c:364-434 | in any run a resume that found the fork attached and whose re-INVITE was answered has ungated it by the time it returns, or the bug was closed meanwhile |
| `ProtocolEffects.LegEndMarks` | recording_session.c:176-195 | in any run, from the begin of a leg's hangup: its step marks the recording hashed under the key if and only if that recording's current leg is this one, logs just that and changes nothing else |
| `ProtocolEffects.LiveTickBegins` | siprec_media.c:225-321 | in any run a tick that finds the bug on the call, not paused, and the recording unmarked begins, and its packets leave |
| `ProtocolEffects.MarkedTickCloses` | siprec_media.c:243-254 | in any run a tick that finds the mark sends nothing and takes the bug off the call |
| `ProtocolEffects.StopTearsDown` | recording_session.c:352-382 | in any run, from the begin of a stop: what its key held then is out of the hash and, by its return, detached, BYEd and freed if nobody pinned it, doomed otherwise; with nothing there it changes nothing |
| `ProtocolEffects.StartFailsForCause` | recording_session.c:643-806 | in any run a start reports FALSE only if one of its own steps was answered no or somebody took its recording out of the hash |
| `ProtocolEffects.StartSucceedsForCause` | recording_session.c:643-806 | and SUCCESS only if each time it asked (for what it needs, its INVITE, its bug) the answer was yes |
| `ProtocolEffects.StartReports` | recording_session.c:599-806 | in any run a start that has returned has reported an outcome |
| `ProtocolLegs.UsedLegIsGone` | siprec_invite.c:515-590 | once a re-INVITE could not find a leg, or the BYE found it, no hangup marks its recording any more and, while that exists, it names no leg, whatever the run does |
| `ProtocolUndisturbed.UndisturbedStartSucceeds` | recording_session.c:599-806 | from any reachable state with the key free, a start all of whose steps are answered yes reports SUCCESS after seven steps: hashed, unpinned, answered, attached and running, and the call holds the handler |
| `ProtocolUndisturbed.UndisturbedPauseGates` | mod_siprec.c:379-437 | from any reachable state with the recording hashed, answered and attached, an undisturbed pause returns with the fork paused and the recording as it was |
| `ProtocolUndisturbed.UndisturbedResumeUngates` | mod_siprec.c:364-434 | ... and a resume returns with it ungated |
| `ProtocolDrain.DrainReturnsComplete` | recording_session.c:276-323 | with concurrent inserts: the drain's last scan was a moment of the run, every recording of the call that was hashed at that moment is out of the hash on return, and one that is hashed was inserted since |
| `ProtocolDrainEnds.DrainEmptiesUnlessInserted` | recording_session.c:276-342 | if the log since a drain's last scan holds no insert of a recording of its call, none is hashed on return; one inserted since is hashed then unless it has left the hash |
| `ProtocolDrainEnds.DrainEmptiesWithoutStarts` | recording_session.c:335-342 | if at the last scan no start of the call stands between allocation and insert and none begins afterwards, none of its recordings is hashed on return; for an unload the hash is empty |
| `ProtocolDrainProgress.DrainEnds` | recording_session.c:276-323 | while nobody inserts into its call a drain returns before its thread has taken more steps than its position and the matching keys hashed at that moment bound (8 per key and 8 when it scans), whatever other threads do |
| `ProtocolDrainProgress.DrainIsNeverStuck` | recording_session.c:276-323 | in every run a drain's thread can step, or waits for a media tick that can end and then lets it |
| `ProtocolDrain.UnloadCanLeaveOne` | recording_session.c:335-342 | a run in which unload returns and a recording is still hashed |
| `ProtocolHandlerSerial.HandlersFollowRecordings` | recording_session.c:222-259 | in every interleaving of any calls in which this call's starts run beside no other start, stop or unload of it: whenever none of its apps is at work, it holds the handler iff a recording of it is hashed |
| `ProtocolHandlers.OtherCallsKept` | recording_session.c:236-323 | a step that works for no recording of a call (another call's start, stop, discard or drain) changes neither its hashed recordings nor whether it holds the handler |
| `ProtocolHandlerTheorems.BoundInVainIff` | recording_session.c:635-641 | unless a release of the call is under way or it hung up: it holds the handler with nothing hashed iff some start bound it when nothing of the call was hashed any more, and nothing of the call was inserted or unbound since |
| `ProtocolHandlerTheorems.HashedInVainIff` | recording_session.c:304-316 | outside the step between insert and bind: a recording is hashed and its call holds no handler iff some stop or unload unbound it while the recording was hashed, no start of the call bound it since, and the recording has not been unhashed |
| `ProtocolHandlerTheorems.LateBindIsDoomed` | recording_session.c:795-803 | a bind that finds nothing of its call hashed binds for a recording that was claimed after its insert, and no later run lets that start report SUCCESS |
| `ProtocolHandlerExamples.StrandedHandler` | recording_session.c:216-259 | a run after which all threads are idle, no recording exists and the call still holds the handler |
| `ProtocolHandlerExamples.HandlerlessRecording` | recording_session.c:304-316 | a run after which a recording is hashed and its call has no handler |
| `ProtocolUnload.UnloadLeavesNoHandler` | recording_session.c:216-259 | when an unload returns, no start having stood before its insert at its last scan and none begun since: nothing is hashed; a call that has not hung up and that no release works for holds a handler iff a start bound it late with nothing inserted or unbound since, and none does whose starts ran beside no other start, stop or unload of it |
| `RecordingKey.KeyInjective` | recording_session.c:64-67 | for two calls neither of whose uuids ends in a hyphen and the other's, a key determines handle and call, and conversely |
| `RecordingKey.KeysCollideIff` | recording_session.c:64-67 | two calls have a key in common iff they are one or one's uuid ends in a hyphen and the other's |
| `RecordingSession.Globals.Claim` | recording_session.c:92-116 | the new table and the result of `claim_recording`: found or not, handed over or doomed |
| `RecordingSession.Globals.Acquire` | recording_session.c:128-141 | the new table and the result of `acquire_recording` |
| `RecordingSession.Globals.Release` | recording_session.c:149-164 | the pin is dropped and a doomed recording's last release tears it down |
| `RecordingSession.Globals.LegEnded` | recording_session.c:176-195 | marks exactly the hashed recording whose current leg it is, and says whether it did |
| `RecordingSession.Globals.Teardown` | recording_session.c:210-215 | one recording is gone and no other changed |
| `RecordingSession.Globals.ReleaseCallHandler` | recording_session.c:236-259 | the handler goes exactly when no recording of the call is hashed |
| `RecordingSession.Globals.ScanBatch` | recording_session.c:289-303 | distinct matching keys in any order, all of them when fewer than 16 |
| `RecordingSession.Globals.Drain` | recording_session.c:276-323 | it ends; it stops exactly the recordings that matched, returns their number, and leaves all others as they were |
| `RecordingSession.TakeNext` | recording_session.c:305-318 | taking keys one by one in any order takes the set: pinned ones doomed, the others gone |
| `RecordingSession.MatchingLeft` | recording_session.c:268-271 | what still matches is what matched and was not taken, which is the drain's measure |
| `RecordingSession.Globals.StopForServer` | recording_session.c:352-382 | stops one handle or all of a call's recordings, reports whether there was one, leaves every other call's recordings and handler alone and keeps handlers right; the hashed calls' uuids are ones that keys tell from this call's |
| `RecordingSession.AfterOne` | recording_session.c:366-381 | stopping a handle on one call never touches another call that keys tell from it |
| `RecordingSession.Globals.TeardownAll` | recording_session.c:335-342 | with no concurrent start, unload leaves nothing hashed and no handler bound |
| `RecordingSession.Globals.InsertOrRefuse` | recording_session.c:605-633 | the table after a start's check and insert, in each of its three outcomes |
| `RecordingSession.Globals.Discard` | recording_session.c:405-421 | the table and the handlers after a failed start gives up its recording |
| `RecordingSession.Globals.Start` | recording_session.c:599-806 | INUSE iff the key is busy, and then nothing changed; SUCCESS leaves this start's recording unpinned, answered and wired; FALSE leaves the key free; a call has the handler iff a recording of it is hashed |
| `RecordingSession.HandlersAfterStart` | recording_session.c:635-641 | binding at insert keeps the handlers right |
| `RecordingSession.HandlersAfterDiscard` | recording_session.c:405-421 | so does releasing after a failed start |
| `RtpPacket.Pack` | siprec_media.c:83-117 | a payload of at most 1500 bytes is framed so that a reader of section 5.1 of RFC 3550 gets every field and the payload back; a longer one is refused |
| `RtpPacket.HeaderParses` | siprec_media.c:95-114 | the header bytes parse to the fields they were made from |
| `MediaFork.MediaCtx.ReadPing` | siprec_media.c:211-344 | the state after one tick for any reads, skips, send failures, silence or a gone leg |
| `MediaFork.MediaCtx.SendStream` | siprec_media.c:133-180 | one packet of every `stride`-th sample, cut to 1500, encoded by payload type, and the advanced counters |
| `MediaFork.MediaCtx.SetPausedAt` | siprec_media.c:603-645 | the state after a pause or resume: first pause time kept, gap truncated to whole samples, nothing once the bug is gone |
| `MediaFork.MediaCtx.constructor` | siprec_media.c:466-528 | a fresh fork: one or two streams, markers pending, counters zero |
| `MediaTimeline.PacketTimeline` | siprec_media.c:133-180 | over any run a packet carries its stream's next sequence number, the initial timestamp plus all payload, silence and pause samples before it, and M=1 iff it is the first or follows silence or a resume |
| `MediaTimeline.ConsecutivePackets` | siprec_media.c:155-179 | attempted packets have consecutive sequence numbers, and an unmarked one starts where the last one's samples end |
| `MediaTimeline.StreamsKeepStep` | siprec_media.c:256-343 | in separate mode, over any run, the two streams' timestamp and sequence distances never change and their markers agree between ticks |
| `MediaTimeline.PacketsKeepStep` | siprec_media.c:313-316 | each packet of stream 0 is followed by one of stream 1 with equal marker, equal length and constant distances |
| `MediaTimeline.PayloadsAreTheAudio` | siprec_media.c:133-150 | the payloads sent are, in order, one per usable read of a tick delivered while not paused: that channel of the read, encoded and cut to its first 1500 samples, and no others |
| `MediaFrames.StreamsRejoin` | siprec_media.c:133-150 | over any run of a separate fork both streams sent one packet per usable read delivered while not paused, and the m-th two payloads, interleaved sample by sample, are the m-th read, encoded, up to its first 1500 stereo samples |
| `MediaFrames.PacketPairsRejoin` | siprec_media.c:313-316 | on the wire each left packet is followed by the right one, and the two interleave to the read they were cut from |
| `MediaTimeline.PausesOnTheClock` | siprec_media.c:621-643 | pause gaps are, modulo 2^32, the whole samples since each first pause, and undercount paused time by less than one 125 us sample per resume |
| `MediaTimeline.SilentUntilResumed` | siprec_media.c:603-645 | a paused fork sends nothing and its clock stands until a resume; one whose bug is gone never sends again |
| `MediaTimeline.GoneAtNextTick` | siprec_media.c:247-254 | the tick that finds the leg gone is the last |
| `MediaSamples.PacketEncodesRead` | siprec_media.c:133-180 | over any run the n-th packet of a stream carries the n-th forked read: its k-th byte is, for payload type 8, the A-law and otherwise the mu-law code of the k-th sample of the stream's channel, at 8 kHz, mixed when the fork is, up to 1500 |
| `MediaSamples.SilenceOnTheClock` | siprec_media.c:322-343 | a tick without a usable read moves every clock by the 8 kHz samples of the leg's packet time, or 160, marks the next packet and uses no sequence number |
| `MediaSamples.ResumeOnTheClock` | siprec_media.c:621-643 | a resume moves every clock by the 8 kHz samples since the pause, backwards if the clock went backwards, marks the next packet and lets the fork send again |
| `MediaSamples.CountersCount` | siprec_media.c:155-176 | over any run the two counters of a stream count its packets that the network took and refused |
| `ForkInProtocol.ForkFollowsRun` | siprec_media.c:599-645 | in every interleaving an attached recording's fork has its bug exactly while the protocol's call has it, and then their pause flags agree |
| `ForkInProtocol.TicksAreDelivered` | siprec_media.c:225-254 | in every interleaving each tick the protocol begins is one the fork carries out |
| `ForkInProtocol.RunSendsItsTicks` | siprec_media.c:256-321 | in every interleaving the payloads of a recording's fork are, in order, the audio of the ticks begun for it in the log and nothing else |
| `ForkInProtocol.RunPausesOnTheClock` | siprec_media.c:621-643 | in every interleaving the fork's clock gaps are, one per ungate of its recording and in the log's order, the whole samples modulo 2^32 between the log position at which that pause began and the ungate, on any clock that does not run backwards |
| `ForkInProtocol.PauseStartIs` | siprec_media.c:615-620 | where a pause began, by positions: a gate that no ungate followed, every earlier gate having been ended before it |
| `ForkInProtocol.MarkedForkIsDone` | siprec_media.c:247-254 | in every interleaving the tick that finds its recording marked sends nothing and ends the fork, and whatever the run does afterwards adds no packet |
| `SdpScan.LocalIffComplete` | siprec_sdp.c:76 | the scan of a line depends on that line alone, whatever follows, if and only if the line is complete |
| `SdpScan.CompleteIsLocal` | siprec_sdp.c:67-76 | a complete line's scan reads that line only |
| `SdpScan.IncompleteLeaks` | siprec_sdp.c:76 | for every incomplete line, a following line that its scan picks up |
| `SdpAnswer.ParseRemoteStreams` | siprec_sdp.c:16-106 | on every text: the entries of the answer's accepted blocks in order, as many as the array holds, and the rest of the array untouched |
| `SdpAnswer.LoopFindsEntries` | siprec_sdp.c:39-103 | the cursor loop's fold over the lines equals the description by blocks |
| `SdpAnswer.EntriesMatchBlocks` | siprec_sdp.c:59-98 | an entry is its m= block's port, payload type and last own c= (else the session's); every accepted block has one; m= indexes strictly increase |
| `SdpText.LineIsLocalIff` | siprec_sdp.c:39-76 | what a line is to the parser depends on that line alone, whatever text follows it, iff it is no audio line or has all the fields its scan looks for |
| `SdpText.BlockTextsAreSeparate` | siprec_sdp.c:26-103 | of two texts that differ in one block's lines after its m= line and whose audio lines are all self-contained: the entries differ at most in that block's address |
| `SdpText.OtherBlocksKeepEntries` | siprec_sdp.c:26-103 | of two such texts that differ in one whole block: every other m= line has the same entry or none in both |
| `SdpLeaks.IdleLinesReachIff` | siprec_sdp.c:67-98 | after any preceding text, lines that are neither c= nor m= can change the entry of the m=audio line before them iff that line has a field place, is incomplete, and has either no field or an acceptable port |
| `SdpLeaks.NextBlockReachesIff` | siprec_sdp.c:67-98 | after any preceding text, the text of the next block can change an m=audio line's entry iff that line has an acceptable port and nothing after it |
| `SdpRender.ConnectionReads` | siprec_sdp.c:42-57 | a line of either c= prefix and any text gives the text's first 63 characters as address, whatever follows; without text it gives none |
| `SdpRender.NumberReads` | siprec_sdp.c:76 | after any white space and an optional sign a decimal of any length is read as its value: negated by a minus, saturating at 64 bits, cut to 32 |
| `SdpRender.NothingReads` | siprec_sdp.c:76 | where no digit comes after them nothing is read |
| `SdpRender.RenderRoundTrip` | siprec_sdp.c:16-106 | any answer of c=, m=audio (with or without a port count), other m= and other lines, with CRLF, LF or CR, reads back to the addresses, ports, payload types and m= indexes it was written from |
| `SdpAnswer.PortCountUnsetsPayloadType` | siprec_sdp.c:76-95 | the port/count form leaves the payload type unset |
| `StreamSelection.Negotiate` | siprec_invite.c:326-394 | the answer's first two streams, else the leg's endpoint, unusable payload types replaced by the leg's codec |
| `StreamSelection.Attach` | siprec_media.c:377-565 | the plan when every step worked, and exactly when it does; then the process has one fresh descriptor more per stream, and on any failure exactly those it had before |
| `StreamSelection.CloseFirst` | siprec_media.c:463-465 | the loop of a failure half way closes each stream opened before, once, and no other descriptor |
| `StreamSelection.CloseStreams` | siprec_media.c:590-595 | a detach, or a bug that could not be added, closes every stream's descriptor once and no other |
| `StreamSelection.SeparateMeansBothLines` | siprec_media.c:427-448 | separate mode iff requested on a mono leg and m= lines 0 and 1 were both accepted; then stream i has m= line i's endpoint and payload type |
| `StreamSelection.OtherwiseFirstAccepted` | siprec_media.c:421-426 | any other answer with accepted audio gives one mixed stream to the first accepted block |
| `StreamSelection.TargetIs` | siprec_invite.c:326-394 | an answered stream goes to its own address and port with the first of the answer's, the recording leg's and the call's payload type that is 0 or 8 |
| `StreamSelection.LegIsTarget` | siprec_invite.c:344-394 | an answer without an entry gives the leg's own endpoint, if it has an address and a port of 1 to 65535 |
| `StringBuffer.Buffer.Append` | siprec_sb.c:62-76 | the text grows by exactly the bytes given, or the sticky error latches, exactly when memory is refused or the ceiling met |
| `StringBuffer.Buffer.AppendFormatted` | siprec_sb.c:78-115 | the same for formatted text, which makes even an empty buffer exist |
| `StringBuffer.Buffer.Reserve` | siprec_sb.c:30-51 | capacity stays 0 or 256 doubled at most 18 times, the sizes granted sum to less than twice the capacity, contents kept |
| `StringBuffer.Buffer.Take` | siprec_sb.c:117-131 | NULL after an error or without an append, otherwise exactly everything appended, terminated |
| `XmlText.EscapeRoundTrip` | siprec_metadata.c:28-41 | every string is recovered from its escaped form |
| `XmlText.EscapeIsInert` | siprec_metadata.c:28-41 | escaped text opens no tag and closes no attribute |
| `XmlText.PredefinedEntities` | siprec_metadata.c:28-41 | the five characters are written as the entities of section 4.6 of XML 1.0 |
| `XmlTree.ElementRoundTrip` | siprec_metadata.c:161-392 | reading the text of any well-formed element gives the element and leaves what follows |
| `Metadata.DocumentReads` | siprec_metadata.c:161-392 | for any valid options the document reads back as their tree: tags nest and close |
| `Metadata.DocumentRoundTrip` | siprec_metadata.c:161-392 | a reader recovers every field of any valid options, NULL and empty identified |
| `Metadata.DocumentDetermines` | siprec_metadata.c:370-381 | options with one document say the same, down to stream indexes when participant IDs are distinct |
| `Metadata.SchemaOrder` | siprec_metadata.c:178-389 | the root's children come in the order of the schema's sequence |
| `Metadata.ReferencesAreDeclared` | siprec_metadata.c:338-387 | every association names a declared participant and stream, every stream and session association the declared session |
| `MetadataFields.SessionIsTold` | siprec_metadata.c:178-263 | a reader finds one datamode and one session element, with the ID, reason, group reference and start time in their places |
| `MetadataFields.GroupIsTold` | siprec_metadata.c:200-217 | a group element exactly when there is a group ID, with it and the time of association |
| `MetadataFields.ParticipantIsTold` | siprec_metadata.c:281-360 | each participant has its own element with AOR and name and its own association with the session |
| `MetadataFields.StreamIsTold` | siprec_metadata.c:320-387 | each stream has its own element with session and label, and its association names its participant and its direction |
| `MetadataBuild.Build` | siprec_metadata.c:161-392 | NULL for invalid options; otherwise NULL or exactly the document, and the document whenever memory is granted and it fits |
| `MetadataBuild.DocumentIsFramed` | siprec_metadata.c:170-389 | every document opens with the XML declaration and the recording element of the RFC 7865 namespace and ends by closing it |
| `MetadataBuild.Validate` | siprec_metadata.c:133-155 | decides validity of the options |
| `MetadataBuild.EscapeInto` | siprec_metadata.c:28-41 | appends the escaped text, nothing for NULL |
| `MetadataId.UuidToId` | siprec_metadata.c:54-103 | succeeds exactly on the hyphenated, bare and CA forms, with the 24 characters of their bytes; otherwise an empty string |
| `MetadataId.ReadBytes` | siprec_metadata.c:74-87 | the digit loop accepts exactly hex at digit places and hyphens at hyphen places |
| `MetadataId.Base64RoundTrip` | siprec_metadata.c:89-101 | decoding undoes encoding (section 4 of RFC 4648) |
| `MetadataHex.PrintedIsIdentity` | siprec_metadata.c:54-103 | 16 bytes printed in hex, in either case and each of the three forms, are accepted, and their ID decodes to exactly those bytes |
| `MetadataHex.IdentityIsPrinted` | siprec_metadata.c:54-103 | conversely, the bytes an accepted text's ID decodes to print as its digits in lower case |
| `MetadataHex.AcceptedForms` | siprec_metadata.c:59-87 | accepted are 32 hex digits bare, hyphenated 8-4-4-4-12 or after "CA", and nothing else |
| `MetadataHex.LetterIsTable` | siprec_metadata.c:55-56 | the letters are those of the base64 alphabet (table 1 of RFC 4648) |
| `MetadataHex.GroupIsNumber` | siprec_metadata.c:89-101 | three bytes and their four letters are one number, most significant part first |
| `MetadataId.IdsIdentify` | siprec_metadata.c:54-103 | two accepted strings get one ID iff their hex digits agree ignoring case and form; the ID decodes to the 16 bytes |
| `MetadataId.SessionId` | siprec_metadata.c:105-110 | the channel's identity whenever it can be encoded, else the fallback's |
| `Failover.Config.Load` | mod_siprec.c:144-157 | an entry goes to the end of its name's chain and no other chain changes |
| `Failover.LoadAll` | mod_siprec.c:162-184 | after loading, each name's chain is its good entries in the file's order |
| `Failover.Config.Free` | mod_siprec.c:503-527 | every configured entry is freed, none twice and none read once freed, in any hash order |
| `Failover.CopyChain` | recording_session.c:455-472 | a fresh chain with the same values in the same order |
| `Failover.SendFailover` | siprec_invite.c:464-513 | on any chain whose first 16 entries stand, even a cyclic one, an ordered search of those: everything before the success was tried and failed or had no URI, nothing later was tried, and no entry is read freed |
| `Failover.CopyUnloadDispatch` | recording_session.c:570-593 | a start's dispatch searches the candidates as configured although the configuration was freed in between, and reads its own copy only, no entry of which is freed |
| `Failover.ReachChain` | siprec_invite.c:482-484 | on a chain without cycles the walk visits its first 16 entries |
| `Failover.SearchFinds` | siprec_invite.c:464-513 | an ordered search succeeds exactly if some candidate with a complete URI or a host answers |
| `Failover.UrisFromFirst` | siprec_invite.c:430-513 | what is dialled, candidate by candidate: the complete URI, else what the host makes, else nothing |

## Left out

- The checks of a start before its recording_t exists (source disabled, no media, no server resolved): they touch no shared state.
- What happens after unload destroys the mutexes: the model of an unload ends when its drain returns.
- `recording_uuid` is written by the invite and read under the mutex by the leg handler without a common lock; the model makes both one step.
- FreeSWITCH itself (originate, session lookup, bug add and remove, state-handler lists, channel variables), sockets, resampling and mixing are free choices or parameters with the contracts the code's comments state.
- The G.711 tables are two arbitrary functions from samples to bytes; no conformance is claimed.
- Address classification (`inet_pton`) and the rendering of host, port and transport into a URI are parameters.
- `siprec_metadata_aor`, the configuration checks, `siprec_sdp_separate_append`, logging and argument parsing: they would only add easy members.
- The formatting inside `sb_appendf`, its encoding failures and the `size_t` overflow tests, which no text shorter than 2^63 reaches: the model appends the text that the format yields.
- XML restrictions on characters and the line-end and attribute-value normalisation a conforming parser performs: the reader takes characters as they are.
- Counters of packets and errors are unbounded.
- Destroying the resampler at detach: the protocol has the detach as one step, the fork's model ends with its bug.
- ProtocolGate.NothingLeavesWhilePaused: assumes calls that keys tell apart and one call's pauses and resumes one after the other, as one call's applications run.
- ProtocolHandlerTheorems.BoundInVainIff: assumes that keys tell the calls apart and that the call has not hung up, since the hangup handler leaves itself bound.
- ForkInProtocol.TicksAreDelivered: a tick counts whole at its begin; how many packets the log has between its begin and its end is left open.
- RecordingSession.Globals.Start: the class runs one call at a time; interleavings are the protocol's.
- SdpAnswer.ParseRemoteStreams: a NULL text is not modelled; an array without room returns 0.
