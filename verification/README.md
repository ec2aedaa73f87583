# chan-sccp: proofs about calls, timers, templates and registration

chan-sccp is an Asterisk channel driver for Cisco phones that speak SCCP. This project models the parts of
it that run over many steps and share state, and proves what those steps keep. The sources are cited by path
and line.

Where the driver updates records in place, the model has a class whose methods do so; each method is proved
equal to a function on values, and the theorems about whole runs are about those functions. Theorems quantify
over all sequences of steps. In ChannelLock every lock operation is a step of its own; in Timers a schedule call
is two steps, and a denial, a stop and the part of a callback that touches the timers are one each; in CallInfo
a send can be two. The modules named after effects, answers and decisions say what single steps do, in the fields
of the state and without the functions that define the steps.

| modules | what they are about |
|---|---|
| ChannelLock, ChannelAnswer | taking the lock of a channel and that of its PBX channel, and the gate through which a phone answers |
| MediaStreams, MediaRuns, MediaEffects, MediaChannel | the four media streams of a call, their requests and acknowledgements |
| TransferHold, TransferSlots, HeldCalls, HeldSteps, HeldRuns, TransferEffects, TransferDevice | hold, resume and attended transfer: two slots that own references, a count of held calls |
| Timers, TimerEffects, ChannelTimers | three timers behind a deny counter |
| ButtonTemplate, FeaturePress | assigning configured buttons to the slots of a phone, and what a press of one does |
| SoftKeyRows, SoftKeyOffers | packing rows of soft keys and decoding a press |
| Registration, RegistrationRuns, RegistrationAnswers, RegistrationServer | tokens and registration over several sessions |
| CallInfo, CallInfoEffects, CallInfoObject | the store of names and numbers of a call |
| RefLog, RefLogRuns, RefLogCounts | the classifier of reference logs |
| EnblocDialing, EnblocDecision | guessing from the rhythm of the digits that a machine dials |
| CallStatistics | running integer averages |
| CallIds, CallSearch | numbering calls and finding them again |

## What is taken for granted

- A stream state is a set of the bits progress, active and error (src/sccp_enum.in:179-184); setting replaces
  the set, appending adds to it. A successful `createServer` leaves an instance. Messages can be allocated.
- Whoever writes the owner of a channel holds the channel lock.
- Asterisk's scheduler: the deletion macro drops a reference for every id above -1 and resets the id, the
  replacement macro drops one only if the old timer was still queued, and deletion waits for a callback that
  runs and keeps it from running again. A callback whose result is not zero stays scheduled under its id. The
  scheduler is Asterisk's, not part of this repository.
- Decisions of Asterisk, of the configuration, of the clock and of memory are parameters of the steps, and
  theorems hold for all of their values.
- Assertions are compiled out and video is compiled in; where the layers for Asterisk versions differ, that of
  version 1.14 is cited. The build options that change button and soft key rows are parameters.
- In the reference log the number columns are already read: a line carries a number or the fact that it has
  none, which ends the classifier.
- Mean and variance of dialling times are exact; the standard deviation is compared by its square.

## What the code does otherwise than its comments say

- The mark -3 in an id field is said to prevent further scheduling (src/sccp_pbx.c:1065). It does for the
  forward and hangup timers; a digit timeout with that mark is armed again (`Timers.ExpiredDigitTimerIsArmedAgain`).
- A digit timeout that fires while a hangup is scheduled leaves its old id behind, and the next stop drops a
  reference for it (`Timers.StaleFieldOverReleases` says exactly when).
- Two callbacks return zero to end their schedule, as their comments say. That of the forward timer does not if
  the call has no owner or line, is being answered or is hanging up: it stays scheduled, gives up a reference
  each time (`Timers.RefusedForwardDropsEachTime`), and no denial reaches it once its id is marked
  (`Timers.AnsweredCallKeepsItsForwardTimer`).
- After the deny counter is raised nothing should be armed. The test and the arming are two steps, so a thread
  between them still arms (`Timers.CheckedBeforeDenialArms`); `Timers.DenialStops` says exactly how often.
- The completion of audio reception returns the state with its progress bit (src/sccp_channel.c:938), so a late
  failure acknowledgement still closes the stream (`MediaRuns.LateAudioFailureCloses`); the other three
  streams ignore it.
- A comment asks whether the two transfer slots can be half filled, and keeps a safeguard for one half of the
  cases (src/sccp_channel.c:2569-2580). Neither half can occur (`TransferSlots.SlotsOwnTheirCalls`).
- The count of held calls goes wrong in three ways, each shown by a run in HeldRuns; HeldCalls and HeldSteps say
  for each operation exactly when it keeps the count.
- src/sccp_actions.c:590 says that the asking session has no device yet. It may have the very one it asks for,
  and then the refusal costs that device its registration (`RegistrationRuns.BusyDeviceIsSpared`).
- The handler for tokens in the SPCP dialect answers a reload and a hasty request in the other dialect, and a bad
  address with a rejected registration (`RegistrationRuns.SpcpTokenRequestAnsweredOnce`).
- Without native park a parking lot button keeps its placeholder, and the next button takes the slot too
  (`ButtonTemplate.ParkingLotSharesItsSlot`).
- The feature keys for the conference list and for the removal of the last participant are placed and sent, but
  nothing handles their press; the keys for hold, transfer, conference and pickup are pressed with the instance
  of a speed dial, and do nothing unless a line has the same one (`FeaturePress.FeaturePressArrives`).
- Copying keys between call information objects replaces all other content (`CallInfo.CopyWipesOthers`).
- Taking back a digit leaves the dialling sums and sets the timer to a default that the emulation does not know
  of. So the variance can turn negative for a steady dialler (`EnblocDialing.BackspaceMakesVarianceNegative`),
  and the sum can wrap (`EnblocDialing.SlowDigitAfterBackspaceWraps`).
- At the wrap of the call counter the id one is issued twice (`CallIds.FirstWrap`).

## Model

| member | source | states |
|---|---|---|
| ChannelLock.LockFullContract | src/sccp_channel.c:1807-1862 | for any number of threads interleaved at every lock operation, with the owner replaced in between: a thread that got a PBX channel holds both locks, that channel is still the owner and the thread owns exactly one reference to it; one that got none holds the channel lock and no reference; nobody waits for a PBX lock while holding the channel |
| ChannelLock.LockedIsReferenced | src/sccp_channel.c:1807-1862 | a PBX channel whose lock is held has at least one reference, at every point of every run |
| ChannelLock.ReferencesReturned | src/sccp_channel.c:1821-1856 | when all threads are done, the references left are the owner's own and no lock is held |
| ChannelLock.NoDeadlock | src/sccp_channel.c:1835-1847 | while any thread is not done some thread can step |
| ChannelLock.StepsBounded | src/sccp_channel.c:1818-1858 | retries never exceed owner changes, and a thread takes at most 15 steps plus 8 for each owner change |
| ChannelLock.OneAnswer | src/sccp_channel.c:1987-2043 | however many phones answer one ringing channel in whatever interleaving, at most one passes the gate, the channel is attached to that phone only, and the completion callback is set once |
| ChannelAnswer.GateClaims | src/sccp_channel.c:2005-2017 | a phone that comes to the gate claims the call if and only if its PBX channel rings, is not hanging up, and nobody answers yet; otherwise it changes nothing but its own place |
| ChannelAnswer.ClaimedIsAnswered | src/sccp_channel.c:2017-2043 | the phone that claimed the call is attached, the PBX channel stops ringing and the callback is set, before its reference goes |
| ChannelAnswer.SomebodyAnswers | src/sccp_channel.c:1987-2043 | in every interleaving nobody answers if and only if no phone that came to the gate found the call ringing and not hanging up |
| ChannelAnswer.OwnerIsKept | src/sccp_channel.c:1835-1850 | with both locks taken a thread keeps them if and only if the PBX channel is still the owner |
| ChannelAnswer.OnlyOwnerlessFails | src/sccp_channel.c:1818-1858 | in every interleaving a thread that was told to retry comes away empty only if there is no owner; any other only if the owner is gone or was replaced, and it never retries |
| MediaRuns.OpensAreSeparated | src/sccp_channel.c:834-1502 | over every run of requests, acknowledgements, closes, updates and hole punches, two open messages for one stream have a close for it in between, and the recorded state agrees with what the phone was last told |
| MediaRuns.VideoSentIsReceived | src/sccp_channel.c:1329-1385 | in every reachable state, video transmission in progress or active implies that video reception is not inactive |
| MediaRuns.LateAckIgnored | src/sccp_actions.c:3757-3981 | after an OK for audio transmission, video reception or video transmission, a later acknowledgement of any status changes and sends nothing until that stream is opened again, whatever else happened |
| MediaRuns.AudioReceptionStaysPending | src/sccp_channel.c:887-939 | an acknowledged audio reception stays pending exactly if the call was still alive, because its completion returns the raw state |
| MediaRuns.LateAudioFailureCloses | src/sccp_actions.c:3689-3749 | so there is a run in which a late failure acknowledgement closes the audio reception of a running call |
| MediaRuns.CloseAllSilences | src/sccp_channel.c:1474-1502 | with a device, closing everything leaves all four streams inactive and sends one close for each that was not, in this order |
| MediaEffects.RequestAudioSends | src/sccp_channel.c:834-885 | reception is asked for, once, if and only if the call lives and has a device, reception is off, and there is or can be an RTP instance; nothing else changes |
| MediaEffects.StartAudioSends | src/sccp_channel.c:1013-1069 | one start of transmission is sent, and its state is pending, if and only if the call lives, owner, device and instance are there, transmission is off and reception is not; without an instance reception is closed instead |
| MediaEffects.ConnectedSends | src/sccp_indicate.c:272-288 | showing a live call as connected asks for reception that is off, starts transmission exactly over a confirmed one, and otherwise leaves the callback that does |
| MediaEffects.PeerChangedSends | src/sccp_channel.c:1141-1155 | a stop is sent for what is on, and a start after it exactly if one may be sent |
| MediaEffects.StartPunchSends | src/sccp_channel.c:793-809 | the early start is sent exactly while nothing is transmitted, nobody answered, and it is wanted |
| MediaEffects.PunchAnsweredSends | src/sccp_channel.c:811-825 | the early transmission is stopped exactly if it was begun and confirmed and the PBX channel is not up |
| MediaEffects.RequestVideoSends | src/sccp_channel.c:1161-1221 | video reception is asked for if and only if the call lives, device, mode, support, instance and codec allow it and it is off; with no instance to be had video is switched off |
| MediaEffects.StartVideoSends | src/sccp_channel.c:1329-1385 | one start of video transmission is sent if and only if the call lives, device, mode, support and instance allow it and it is off |
| MediaEffects.VideoOffSends | src/sccp_channel.c:3159-3203 | switching video off closes what an instance has open, transmission first |
| MediaEffects.AutoVideoSends | src/sccp_channel.c:3159-3203 | automatic video asks for reception that is off, and starts transmission exactly over a confirmed one |
| MediaEffects.VideoResumedSends | src/sccp_channel.c:2228-2236 | resuming brings back the video that the call had |
| MediaEffects.VideoKeySends | src/sccp_softkeys.c:148-163 | the key starts transmission over a confirmed reception, asks for reception exactly without an instance, and leaves the mode to the user |
| MediaEffects.ReceptionConfirmed | src/sccp_channel.c:887-939 | the acknowledgement of audio reception starts transmission, once, if and only if the call lives, has a device, transmits nothing, and a callback waits or early media is wanted; and it asks for video exactly to complete an answer |
| MediaEffects.VideoReceptionConfirmed | src/sccp_actions.c:3835-3898 | the acknowledgement of video reception starts transmission if and only if the call lives and is connected, video is automatic and supported, and none is transmitted |
| MediaEffects.AllClosedLeaves | src/sccp_channel.c:1474-1502 | closing everything leaves all streams off, keeps the instances, and gives the mode of the line back to video that was received |
| MediaEffects.AudioRefused | src/sccp_actions.c:3700-3726 | a refused audio stream takes all others with it, keeps the error, and ends the call unless the phone is on hook |
| MediaEffects.VideoRefused | src/sccp_actions.c:3850-3875 | a refused video stream takes the other direction with it and leaves audio alone |
| MediaEffects.ConnectedIsHeard | src/sccp_indicate.c:272-288 | over every run in which phone and PBX channel stay: once a call was shown as connected, an acknowledged reception of a live call means that transmission was started and not refused before, or was stopped since |
| MediaEffects.FirstConfirmationStarts | src/sccp_channel.c:887-939 | and of a call that had neither, the phone is sent exactly: open reception, and with its acknowledgement, start transmission |
| MediaChannel.Channel.OpenReceiveChannel | src/sccp_channel.c:834-885 | the in-place request meets the step whose runs OpensAreSeparated covers: nothing for a dying or already open channel, the instance made first |
| MediaChannel.Channel.StartMediaTransmission | src/sccp_channel.c:1013-1069 | audio transmission starts once, and only over a reception that is open |
| MediaChannel.Channel.UpdateMediaTransmission | src/sccp_channel.c:1141-1155 | audio transmission is stopped before it is started anew |
| MediaChannel.Channel.StartHolePunch | src/sccp_channel.c:793-809 | an early start of transmission for a peer behind NAT |
| MediaChannel.Channel.FinishHolePunch | src/sccp_channel.c:811-825 | the early transmission is stopped again, once |
| MediaChannel.Channel.CloseMultiMediaReceiveChannel | src/sccp_channel.c:1272-1305 | transmission is closed before reception |
| MediaChannel.Channel.OpenMultiMediaReceiveChannel | src/sccp_channel.c:1161-1221 | video reception opens once, with its instance, or video is switched off |
| MediaChannel.Channel.StartMultiMediaTransmission | src/sccp_channel.c:1329-1385 | video transmission starts once, and not without an instance |
| MediaChannel.Channel.ChangeVideoMode | src/sccp_channel.c:3159-3203 | switching off closes both directions, switching to auto opens what is missing |
| MediaChannel.Channel.ResumeVideo | src/sccp_channel.c:2228-2236 | a resumed call reopens video that is off and restarts transmission over a confirmed reception |
| MediaChannel.Channel.PressVideoKey | src/sccp_softkeys.c:148-163 | the video key opens and starts video and then makes the mode the user's |
| MediaChannel.Channel.CloseAllMediaTransmitAndReceive | src/sccp_channel.c:1474-1502 | updates the channel as CloseAllSilences says |
| MediaChannel.Channel.IndicateConnected | src/sccp_indicate.c:272-288 | opens audio, or starts transmission over a reception that is confirmed, or leaves a callback for the confirmation |
| MediaChannel.Channel.ReceiveChannelOpen | src/sccp_channel.c:887-939 | completes an OK for audio reception: state, callback and hole punch, in that order |
| MediaChannel.Channel.HandleOpenReceiveChannelAck | src/sccp_actions.c:3689-3749 | an acknowledgement counts only for a pending audio reception; a failure closes everything and is remembered |
| MediaChannel.Channel.HandleStartMediaTransmissionAck | src/sccp_actions.c:3757-3827 | the same for audio transmission |
| MediaChannel.Channel.HandleOpenMultiMediaReceiveAck | src/sccp_actions.c:3835-3898 | the same for video reception, whose OK starts transmission |
| MediaChannel.Channel.HandleStartMultiMediaTransmissionAck | src/sccp_actions.c:3906-3981 | the same for video transmission |
| MediaChannel.Channel.Handle | src/sccp_channel.c:793-1502 | whatever happens to the channel, messages stay separated and video that is sent is received |
| TransferSlots.SlotsOwnTheirCalls | src/sccp_channel.c:2515-2936 | after any run of holds, resumes, transfers, joins, answers, ends and hangups the two transfer slots are both empty or both filled with different calls of the line, and references taken minus references given up are one for each filled slot; so the half-filled state the comments worry about cannot occur |
| TransferSlots.StepKeeps | src/sccp_channel.c:2515-2726 | every operation keeps slots, references and the device's active call consistent |
| TransferSlots.TransferKeeps | src/sccp_channel.c:2569-2668 | every way a transfer request can fail gives back the reference it took |
| TransferSlots.JoinKeeps | src/sccp_softkeys.c:474-555 | joining two calls releases whatever was staged before |
| HeldCalls.HoldCounts | src/sccp_channel.c:2055-2135 | a hold keeps the count of held calls right |
| HeldCalls.CancelCounts | src/sccp_channel.c:2699-2726 | a cancelled transfer indicates hold without counting: the count stays as right as it was, and whoever looks on hold is still among the counted if and only if the transferee is |
| HeldCalls.RemoveCounts | src/sccp_line.c:576-597 | a call that leaves its line keeps the count right if and only if every put-aside call that leaves is in state hold and a transfer its end cancels had its transferee put aside |
| HeldCalls.ResumedCounts | src/sccp_channel.c:2184-2243 | a resume keeps the count right if and only if the resumed call was put aside |
| HeldCalls.CompleteCounts | src/sccp_channel.c:2926-2928 | a completed transfer keeps the count right if and only if its transferee was put aside and is no longer in state hold |
| HeldSteps.EndCounts | src/sccp_channel.c:1676-1704 | ending a call keeps the count right if and only if a call that is hung up at once while put aside is in state hold |
| HeldSteps.ResumeCounts | src/sccp_channel.c:2146-2326 | a resume, swapping or not, keeps the count right if and only if a call it takes from a transfer or a conference is put aside |
| HeldSteps.JoinCounts | src/sccp_softkeys.c:523-555 | joining two calls keeps the count right if and only if the call transferred at once is put aside and no longer in state hold |
| HeldRuns.HeldIsAside | src/sccp_channel.c:2055-2135 | over every disciplined run, joined and un-swapped calls included where they fit, the held-call counter is the number of calls put aside by a hold and not yet resumed or transferred, and is never taken below zero; and after it any event of any kind keeps it right if and only if it fits |
| HeldRuns.StepFits | src/sccp_channel.c:2515-2936 | for every event, in every state such a run can reach, the exact condition under which the count stays right |
| HeldRuns.ResumeWithoutSwapUnderflows | src/sccp_channel.c:2146-2164 | a run in which a transferee resumed without swapping takes the counter to 255 |
| HeldRuns.LostTransfereeStaysCounted | src/sccp_line.c:589-591 | a run in which a transferee whose far end hangs up stays counted for ever |
| HeldRuns.JoinedCallCountsTwice | src/sccp_channel.c:2926-2928 | a run in which a joined call is uncounted twice |
| TransferDevice.Device.PutOnHold | src/sccp_channel.c:2055-2135 | only a talking call with a device is held; it loses the device, the device its active call, and the line counts one more |
| TransferDevice.Device.Resume | src/sccp_channel.c:2297-2326 | an active call makes room first; nothing else changes if that fails |
| TransferDevice.Device.ResumeLocked | src/sccp_channel.c:2166-2243 | only a held call is resumed; a transfer it is no transferee of ends |
| TransferDevice.Device.TransferRelease | src/sccp_channel.c:2673-2694 | both slots are emptied for a call in either |
| TransferDevice.Device.TransferCancel | src/sccp_channel.c:2699-2726 | the transferee goes back on hold, uncounted, and both slots are emptied |
| TransferDevice.Device.TransferComplete | src/sccp_channel.c:2736-2936 | a reached destination, an owner on either side and a bridged peer are needed; the slots are emptied before Asterisk is asked |
| TransferDevice.Device.Transfer | src/sccp_channel.c:2515-2668 | completes a transfer under way, or stages one: reference, hold, consultation call |
| TransferDevice.Device.StartConsultation | src/sccp_channel.c:2591-2665 | the consultation call fills the second slot, or the first is given back |
| TransferDevice.Device.HangupCall | src/sccp_pbx.c:540-635 | transfer cancelled, slots released, call taken off line and count, in this order |
| TransferDevice.Device.RequestHangup | src/pbx_impl/ast/ast.c:633-709 | the three ways a hangup request ends |
| TransferDevice.Device.EndTheCall | src/sccp_channel.c:1676-1704 | ends a call, cancelling a transfer unless the call is its transferee |
| TransferDevice.Device.PlaceNewCall | src/sccp_channel.c:1710-1744 | an unused active call is used again, any other is held first |
| TransferDevice.Device.DirectTransfer | src/sccp_softkeys.c:474-555 | the connected call is the destination; of two held calls the second is resumed |
| TransferDevice.Device.Answer | src/sccp_channel.c:1987-2013 | the active call is held before another is answered |
| TransferDevice.Device.GetActiveCall | src/sccp_device.c:2186-2206 | the active call, unless it is down |
| TransferDevice.Device.Change | src/sccp_channel.c:674-678 | a call comes in, moves on or loses its Asterisk channel |
| TransferDevice.Device.Handle | src/sccp_channel.c:1676-2936 | whatever is pressed, the slots stay both empty or both filled and own what they hold |
| TransferEffects.SecondPressCompletes | src/sccp_channel.c:2563-2568 | with both slots filled a permitted press on a call with a device empties both, gives up both references, and takes the transferee of an attended transfer off the count, if and only if the destination is attached, ringing out, progressing or connected and owned, the transferee is owned and the peer is bridged; otherwise it changes nothing |
| TransferEffects.OnHookCompletes | src/sccp_channel.c:1507-1530 | so does putting the destination on hook, and no other hook |
| TransferEffects.DirectTransferJoins | src/sccp_softkeys.c:474-555 | the direct transfer key puts the right two calls into the slots, gives up what was there, and completes under the same condition |
| TransferEffects.FirstPressStages | src/sccp_channel.c:2569-2668 | the first press on a talking call puts it aside and counts it; both calls are staged if and only if it is owned, the new call is allocated and the peer bridged; else its one reference comes back and its state says why |
| TransferEffects.FirstPressOnHeld | src/sccp_channel.c:2581-2668 | the same for a call on hold, which is not counted again |
| TransferEffects.UnsuitableCallIsNotStaged | src/sccp_channel.c:2582-2599 | a call in any other state is not touched, and its reference comes back |
| TransferEffects.TwoPressesTransfer | src/sccp_channel.c:2515-2936 | for every state: press, answer of the new call and press again transfer any talking call, give both references back and leave the count as it was |
| TransferEffects.HoldPutsAside | src/sccp_channel.c:2055-2135 | a call is put on hold and counted if and only if it has the device and talks |
| TransferEffects.NewCallMakesRoom | src/sccp_channel.c:1710-1744 | an active call is put on hold for a new one, used again if undialled, or stands in the way |
| TransferEffects.AnswerTakesDevice | src/sccp_channel.c:1987-2043 | the active call is put on hold, and the call gets the device exactly if it rings |
| TransferEffects.ResumeConnects | src/sccp_channel.c:2146-2243 | a call is connected with the device and uncounted if and only if it is owned, the lock is had, and it is on hold, in transfer or in conference; a transfer to it ends |
| TransferEffects.ResumeMakesRoom | src/sccp_channel.c:2297-2326 | another active call is held if it talks, ended if it was never used, and stands in the way otherwise |
| TransferEffects.HangupRemoves | src/sccp_line.c:576-597 | the call leaves the line, the slots are emptied exactly if the call was in one or had the device, and the count falls exactly if it was on hold |
| TransferEffects.EndingACall | src/sccp_channel.c:1676-1704 | the transfer of another call is cancelled first, then the call is hung up at once, put down or left |
| Timers.TimersOwnTheirReferences | src/sccp_channel.c:1563-1667 | over every interleaving the references taken for timers are those of the scheduled entries and the running callbacks, less one for each that a step lost; so they agree if and only if no timer is stopped under an id that is not scheduled and no forward callback is to run again |
| Timers.RunOwns | src/sccp_pbx.c:456-518 | the same from any state: what a run loses is the sum of what its steps lose |
| Timers.RefusedForwardDropsEachTime | src/sccp_pbx.c:456-487 | a forward timer that finds a call without owner or line, or one being answered or hung up, stays scheduled and gives up one more reference each time it fires |
| Timers.AnsweredCallKeepsItsForwardTimer | src/sccp_pbx.c:464-477 | the run: the call is being answered when the timer fires, and after the denial its entry is still there, beyond reach |
| Timers.CleanRunsLoseNothing | src/sccp_channel.c:1563-1667 | where every fired timer clears its id and every forward callback forwards, nothing is lost |
| Timers.ExpireHonest | src/sccp_pbx.c:456-466 | firing leaves every id field truthful if and only if the fired timer clears its own |
| Timers.StaleFieldOverReleases | src/sccp_pbx.c:1059-1077 | what a timer that fires and is then stopped costs: one reference it does not own if it leaves its id behind or stays scheduled, none otherwise |
| Timers.DigitTimeoutDuringHangup | src/sccp_pbx.c:1064-1065 | the run: a digit timeout fires while a hangup is scheduled |
| Timers.DenialStops | src/sccp_channel.c:1628-1645 | in any interleaving, the timers armed after a denial are exactly those of the schedule calls that were past their test, the forward one only if it still finds its id unset; so none is armed if and only if no such call is completed |
| Timers.CheckedBeforeDenialArms | src/sccp_channel.c:1600-1606 | such a thread does arm a timer after the denial |
| Timers.OneOfAKindUnlessArmedOver | src/sccp_channel.c:1595-1657 | over every interleaving each timer stays within reach of its id, so that at most one of a kind is pending, if and only if no schedule call arms a hangup over a pending one |
| Timers.OneOfAKindAndNoneDenied | src/sccp_channel.c:1595-1657 | with uninterrupted schedule calls at most one timer of a kind is pending; from the denial on nothing is armed, and nothing is pending but a forward entry that is to run again, which is gone if and only if its callback ends for good |
| Timers.TwoHangupsPending | src/sccp_channel.c:1595-1607 | two interrupted calls leave a hangup pending that a denial cannot reach |
| Timers.ExpiredDigitTimerIsArmedAgain | src/sccp_channel.c:1618-1624 | the mark of an expired digit timer does not prevent the next one, against the comment in src/sccp_pbx.c:1065 |
| ChannelTimers.Scheduler.SchedAddRef | src/pbx_impl/ast114/ast114.c:2809-2823 | a reference is taken for the timer and given back if the scheduler refuses |
| ChannelTimers.Scheduler.SchedDelRef | src/pbx_impl/ast114/ast114.c:2825-2832 | a reference is given up for an id that looks pending |
| ChannelTimers.Scheduler.SchedReplaceRef | src/pbx_impl/ast114/ast114.c:2834-2843 | the old reference is given up only if the old timer was pending |
| ChannelTimers.Scheduler.ScheduleHangup | src/sccp_channel.c:1595-1607 | arms a hangup unless one is known or tasks are denied |
| ChannelTimers.Scheduler.ScheduleDigitTimeout | src/sccp_channel.c:1613-1626 | arms or replaces the digit timeout unless a hangup is known or tasks are denied |
| ChannelTimers.Scheduler.ScheduleCfwdNoAnswer | src/sccp_channel.c:1647-1657 | arms the forward timer once |
| ChannelTimers.Scheduler.StopAndDenyScheduledTasks | src/sccp_channel.c:1628-1645 | raises the counter first and then deletes all three timers |
| ChannelTimers.Scheduler.EndCall | src/sccp_channel.c:1676-1685 | denies tasks once |
| ChannelTimers.Scheduler.Fire | src/sccp_channel.c:1563-1576 | the callback of a due timer, of any kind; a result other than zero keeps the entry |
| ChannelTimers.Scheduler.ForwardNoAnswer | src/sccp_pbx.c:456-487 | the mark, and a result other than zero exactly if the call is not forwarded |
| ChannelTimers.Scheduler.Handle | src/sccp_channel.c:1563-1667 | whatever comes, references are accounted for and uninterrupted calls keep one timer of a kind |
| TimerEffects.DigitTimerIsRestarted | src/sccp_channel.c:1613-1626 | the digit timer is armed if and only if nothing is denied and no hangup is scheduled, and a pending one is replaced, entry for entry and reference for reference |
| TimerEffects.HangupIsScheduled | src/sccp_channel.c:1595-1607 | a hangup is armed if and only if none is scheduled and nothing is denied |
| TimerEffects.ForwardIsScheduled | src/sccp_channel.c:1647-1657 | the forward timer is armed if and only if it is not and nothing is denied |
| TimerEffects.CommitArms | src/sccp_channel.c:1613-1626 | the second half of a schedule call arms without asking again, the forward timer but once |
| TimerEffects.RestartLeavesOne | src/sccp_channel.c:1613-1626 | of two schedule calls in a row one entry is left, the second, with one reference |
| TimerEffects.StopTakesBack | src/pbx_impl/ast114/ast114.c:2825-2832 | a field that looks pending is reset, its entry goes if it is there, and a reference either way |
| TimerEffects.DenialTakesBackAll | src/sccp_channel.c:1628-1645 | the first denial takes back all three timers, a second does nothing |
| TimerEffects.FiringStarts | src/sccp_channel.c:1563-1576 | which entries a firing keeps, and which field it marks, by kind |
| TimerEffects.FiringHangup | src/sccp_channel.c:1563-1576 | the hangup timer marks itself and denies the others |
| ButtonTemplate.PlacementIsZip | src/sccp_actions.c:1154-1402 | the nested search loops are a single zip of the placeholder slots, left to right, with the buttons that take one, if and only if no parking lot button that leaves its slot open is followed by another button that takes a slot |
| ButtonTemplate.PlacedByRank | src/sccp_actions.c:1168-1398 | the j-th button that takes a slot gets the j-th placeholder: one instance for both if it suits, otherwise the slot is wasted |
| ButtonTemplate.RestUntouched | src/sccp_actions.c:1164-1172 | every other slot and button is left as it was |
| ButtonTemplate.InstancesRun | src/sccp_actions.c:1149-1151 | in each family of buttons the instances are consecutive in the order of the buttons |
| ButtonTemplate.InstancesDiffer | src/sccp_actions.c:1149-1151 | no two placed buttons of a family share an instance |
| ButtonTemplate.FeaturePressFindsItsButton | src/sccp_actions.c:2260-2273 | pressing a feature slot finds the very button that was placed there |
| ButtonTemplate.ParkingLotSharesItsSlot | src/sccp_actions.c:1299-1314 | without native park a parking lot button leaves its slot open and the next button takes it as well |
| ButtonTemplate.NoPlaceholderIsSent | src/sccp_actions.c:1594-1629 | for any template no internal placeholder reaches the phone, and a slot is undefined exactly if nothing was placed there |
| ButtonTemplate.PlaceButton | src/sccp_actions.c:1168-1399 | the inner loop over an array of slots, for one button |
| ButtonTemplate.PlaceButtons | src/sccp_actions.c:1154-1402 | the outer loop updates slots and buttons in place as the specification PlacementIsZip is about |
| ButtonTemplate.ClearUnused | src/sccp_actions.c:1422-1427 | placeholders nobody took become unused, all but line slots |
| ButtonTemplate.MakeButtonTemplate | src/sccp_actions.c:1135-1439 | placing and then clearing |
| ButtonTemplate.SendTemplate | src/sccp_actions.c:1594-1635 | the row as sent, and an announced count with only undefined buttons after it |
| FeaturePress.TypeNamesFeature | src/sccp_actions.c:1267-1394 | the type sent for a placed feature is the one the protocol names after it, if it has one; else it is the blinking or the plain feature type, each exactly when |
| FeaturePress.DifferentFeaturesDifferentTypes | src/sccp_actions.c:1267-1394 | a feature with a type of its own never shares it |
| FeaturePress.FeaturePressArrives | src/sccp_actions.c:2466-2591 | the round trip through template, wire and stimulus table: a press calls the handler of that feature, if a line has the instance, or the feature handler, which finds that very button; only conference list and removing the last participant, and a parking lot without native park, are handled by nobody |
| FeaturePress.WhoTakesPart | src/sccp_actions.c:1161-1255 | which buttons take a slot at all, and which slots they can take |
| FeaturePress.OtherKeysAreHandled | src/sccp_actions.c:2470-2535 | lines, speeddials and busy lamps call the handlers of their kind |
| SoftKeyRows.PressDecodes | src/sccp_actions.c:3507-3531 | pressing a position of a sent row that is no hole decodes to the label recorded there, with the one remap of the nokia-icc client |
| SoftKeyRows.RowPosition | src/sccp_actions.c:3040-3132 | a key the device is offered takes the position given by the offered keys before it, until the row is full: a withheld key leaves no gap |
| SoftKeyRows.KeptIsKnown | src/sccp_actions.c:3040-3132 | nothing is sent that is not configured, offered and in the key map |
| SoftKeyRows.RowForOne | src/sccp_actions.c:3133-3145 | with distinct keymodes each keymode has exactly the row of its own set |
| SoftKeyRows.FindKey | src/sccp_actions.c:3119-3130 | the place of a label in the key map |
| SoftKeyRows.PackRow | src/sccp_actions.c:3040-3132 | wire row, recorded row and count agree position by position with the configured list, filtered and cut |
| SoftKeyRows.SetSoftkeyState | src/sccp_softkeys.c:1225-1245 | the mask bit changes exactly at the positions that show the label |
| SoftKeyRows.Configuration.BuildRows | src/sccp_actions.c:3012-3146 | every keymode holds its row and the record of it |
| SoftKeyRows.Configuration.GreyKeys | src/sccp_actions.c:3149-3153 | of the recorded positions exactly the video mode and join keys are greyed |
| SoftKeyRows.Configuration.HandleSoftKeySetReq | src/sccp_actions.c:2895-3162 | in the end each bit greys the key the phone shows at that position, which decodes to the label the bit was set for |
| SoftKeyOffers.KeptIsSeen | src/sccp_actions.c:3040-3102 | a key is kept if and only if it is in the map and the device has the one capability its label needs |
| SoftKeyOffers.RowIsSeen | src/sccp_actions.c:3040-3132 | the row is exactly the first sixteen of those configured keys, in order |
| SoftKeyOffers.SeenIfMay | src/sccp_actions.c:3040-3102 | so whether a configured key is shown depends on nothing else |
| RegistrationRuns.TokenRequestAnsweredOnce | src/sccp_actions.c:530-740 | every token request gets exactly one acknowledgement or rejection, to its own session |
| RegistrationRuns.SpcpTokenRequestAnsweredOnce | src/sccp_actions.c:759-878 | so does every one of the other dialect, but in that dialect exactly if it gets past the reload, the address check and the test for a token just sent |
| RegistrationRuns.ClusterSplits | src/sccp_actions.c:530-740 | of two servers set to odd and even names exactly one acknowledges a new phone |
| RegistrationRuns.BusyDeviceIsSpared | src/sccp_actions.c:575-598 | a token request for a device that is registered on another live session leaves its state and session alone if and only if it is refused before or the asking session does not hold that device |
| RegistrationRuns.RegisteredPhoneIsSpared | src/sccp_actions.c:564-640 | a token request, under any name, touches a phone that is registered and live on another session if and only if it gets as far as the devices and either the asking session holds that phone, or the name is that of a stale device whose session holds it and is cleaned up |
| RegistrationRuns.StraightIsSpared | src/sccp_actions.c:564-640 | so with pointers that agree only the session that holds a phone can do it harm |
| RegistrationRuns.SecondNameIsMadeUp | src/sccp_actions.c:941-974 | a session with one device registers under another name if and only if that name is neither known nor configured and a device is made up |
| RegistrationRuns.ServiceOnlyByRegister | src/sccp_actions.c:224-271 | a device becomes registered only from in progress by the message that ends registration, and in progress only by its own acknowledged register |
| RegistrationRuns.ServiceSinceRegister | src/sccp_actions.c:889-1106 | over every run a device in service once sent its own acknowledged register and has not been out of service since |
| RegistrationRuns.HandlersNeedService | src/sccp_actions.c:109-145 | no handler that needs a device runs for one outside progress and registered, or for a session it does not belong to |
| RegistrationRuns.SecondNameLosesRegistration | src/sccp_session.c:588-614 | a run in which a session registers under a second, made-up name, after which a token request of a third party for the first name ends the registration |
| RegistrationAnswers.RegisterAnswer | src/sccp_actions.c:889-1106 | the exact answer for every session and name: acknowledged if and only if there is no reload, the name is not empty, the device is known and tied to nobody else, neither registering nor registered, with no token older than a minute, or else made up; the session takes it, and its address is allowed |
| RegistrationAnswers.AcknowledgedIsRegistering | src/sccp_actions.c:961-1106 | an acknowledged phone is in progress on that session, its token spent |
| RegistrationAnswers.RejectedIsForgotten | src/sccp_actions.c:941-1000 | a known phone that is refused has its session stopped and is tied to nobody; it has failed unless the session did not take it |
| RegistrationAnswers.TokenThenRegister | src/sccp_actions.c:944-953 | whatever happens in between, as long as it leaves device and pointer alone: a phone granted a token on a session is acknowledged when it registers there within sixty seconds |
| RegistrationAnswers.TokenAnswer | src/sccp_actions.c:530-740 | the exact answer to every token request, and how long to wait |
| RegistrationAnswers.SpcpTokenAnswer | src/sccp_actions.c:759-878 | the same for the other dialect |
| RegistrationAnswers.GrantedToken | src/sccp_actions.c:612-740 | a granted token is recorded with its time on that session, tied to nobody else |
| RegistrationAnswers.TurnedAwayToken | src/sccp_actions.c:612-740 | the device of a phone that is turned away is kept, its token rejected |
| RegistrationAnswers.InUseStopsTheOther | src/sccp_actions.c:575-598 | a request for a device in use stops the asking session and fails only the device that one has |
| RegistrationAnswers.PastIsCleanedUp | src/sccp_actions.c:599-607 | a request for a device with a past ends the session the device is tied to, and unties it |
| RegistrationAnswers.MessageIsHandled | src/sccp_actions.c:224-271 | a message is handled if and only if its session runs and has a usable device tied to nobody else; exactly the last one registers the phone |
| RegistrationAnswers.UnservedMessage | src/sccp_actions.c:224-271 | one whose device is tied to another session ends that session; any other changes nothing |
| RegistrationAnswers.StopMarksTheDevice | src/sccp_session.c:934-950 | unregistering, an error or a timeout stop the session and mark the device it has |
| RegistrationAnswers.ExitUnties | src/sccp_session.c:662-749 | the end of a thread unregisters and unties its device |
| RegistrationServer.Server.RemoveDevice | src/sccp_session.c:565-580 | the session forgets its device, which is then unregistered but keeps its own pointer |
| RegistrationServer.Server.RetainDevice | src/sccp_session.c:588-629 | the session takes a device, giving up another |
| RegistrationServer.Server.StopThread | src/sccp_session.c:934-950 | a session stops and marks the device it has |
| RegistrationServer.Server.DeviceThreadExit | src/sccp_session.c:662-749 | the clean-up at the end of a session |
| RegistrationServer.Server.EndDeviceThread | src/sccp_session.c:953-1005 | another session's thread is ended at most once |
| RegistrationServer.Server.CrossDeviceCleanup | src/sccp_session.c:1448-1457 | only a different session is ended |
| RegistrationServer.Server.DefendDevice | src/sccp_actions.c:564-609 | the three reasons for refusing a known device, in this order |
| RegistrationServer.Server.GrantToken | src/sccp_actions.c:612-740 | session first, then address, then the configured fallback or its script decides the token, and how long to wait otherwise |
| RegistrationServer.Server.HandleTokenRequest | src/sccp_actions.c:530-740 | answers once, and spares or costs every phone on another session as RegisteredPhoneIsSpared says |
| RegistrationServer.Server.HandleSpcpTokenReq | src/sccp_actions.c:759-878 | as SpcpTokenRequestAnsweredOnce says |
| RegistrationServer.Server.HandleRegister | src/sccp_actions.c:889-956 | the search includes the configuration; an outdated registration is cleaned up and refused |
| RegistrationServer.Server.Admit | src/sccp_actions.c:961-1106 | an unknown device may be made up, the session takes it, and it goes in progress |
| RegistrationServer.Server.HandleMessage | src/sccp_actions.c:224-271 | a handler runs only for a device that may be handed to it; the last message makes it registered |
| CallInfo.GetAfterSet | src/sccp_callinfo.c:170-273 | after any list of keys is set, getting each key yields the last text given for it cut to its field, or what it had, and flags hold exactly for texts that are not empty |
| CallInfo.OthersUntouched | src/sccp_callinfo.c:189-259 | keys the list does not name, or names without text, keep their text |
| CallInfo.NoChangeNoDifference | src/sccp_callinfo.c:262-264 | if no change is counted the content is the same |
| CallInfo.StepHonest | src/sccp_callinfo.c:530-549 | every step keeps "unset changed flag means the content is what was last sent", a send that was interrupted if and only if nothing changed in between |
| CallInfo.UnchangedIsSent | src/sccp_callinfo.c:530-549 | so does every run of whole sends |
| CallInfo.ChangeDuringSendIsLost | src/sccp_callinfo.c:538-541 | a change made by another thread between sending and lowering the flag is not sent by itself |
| CallInfo.CopyKeepsFlags | src/sccp_callinfo.c:283-422 | copying one key keeps flags exact if and only if it is not a name, with text, copied to a number or mailbox |
| CallInfo.CopyListKeepsFlags | src/sccp_callinfo.c:283-422 | copying any list of keys yields the text last copied to each, and keeps flags exact if and only if each number or mailbox ends up with a text just when something valid was copied to it |
| CallInfo.CopyWipesOthers | src/sccp_callinfo.c:412-415 | a key that is no destination keeps the text of the content the copy starts from, which is wiped, so it ends up empty |
| CallInfoEffects.SentWhenChanged | src/sccp_callinfo.c:530-549 | the phone is sent exactly what is stored if and only if there is a device and a change or an order; the flag is lowered then |
| CallInfoEffects.ChangedWhenSet | src/sccp_callinfo.c:262-264 | setting raises the flag if and only if some setting differs from what is stored when its turn comes |
| CallInfoEffects.SetThenSent | src/sccp_callinfo.c:530-549 | whatever was set is on the phone after the next send |
| CallInfoEffects.ReadAfterSet | src/sccp_callinfo.c:189-259 | each reason and the presentation is the last one given, or what it was |
| CallInfoEffects.QueriesRead | src/sccp_callinfo.c:427-528 | what each query yields |
| CallInfoEffects.LongTextsAreCut | src/sccp_callinfo.c:222-249 | a name keeps 39 characters, a number or a mailbox 23 |
| CallInfoEffects.NumbersCopied | src/sccp_callinfo.c:283-422 | a reason or the presentation is copied if and only if the list names it |
| CallInfoObject.CallInfo.constructor | src/sccp_callinfo.c:91-109 | a new store is empty and marked as changed |
| CallInfoObject.CallInfo.Setter | src/sccp_callinfo.c:170-273 | updates the entries in place, counts the changes, and every key then reads as the last text given for it |
| CallInfoObject.CallInfo.Getter | src/sccp_callinfo.c:427-528 | reads a list of keys into buffers, skips null pointers, and counts the buffers that change |
| CallInfoObject.CallInfo.Send | src/sccp_callinfo.c:530-549 | sends only if changed or forced and a device can be told |
| CallInfoObject.CallInfo.CopyByKey | src/sccp_callinfo.c:283-422 | the copy is made apart and then replaces everything |
| RefLog.ProcessFile | contrib/refcounter.py:72-147 | the loop keeps exactly the books the theorems in RefLogRuns are about, and reports as leaked exactly the histories still open |
| RefLogRuns.LineHasOneHistory | contrib/refcounter.py:79-118 | every parsed line is in exactly one history, once, and no other line is in any |
| RefLogRuns.HistoriesSplit | contrib/refcounter.py:120-147 | every history is exactly one of leaked, finished and referenced when invalid; a leaked one counts at least one, and one that started with a constructor counts one plus its later deltas |
| RefLogRuns.EntriesConserved | contrib/refcounter.py:110-142 | logged lines are parsed lines plus one for each abnormal end, and those are filed both as finished and as invalid |
| RefLogRuns.AfterKeeps | contrib/refcounter.py:80-142 | the books are in order after every prefix of the file |
| RefLogCounts.CountsAreTold | contrib/refcounter.py:79-118 | the count of every history, closed or not, is what its first line starts it with and all later deltas; a history is filed as skewed exactly if it starts with a number or a destruction, as invalid exactly if it starts invalid or fell below zero |
| RefLogCounts.ReportsAreIndependent | contrib/refcounter.py:110-142 | whatever reports are switched on, each lists what it would list with all of them on |
| EnblocDialing.OnePassIsTwoPass | src/sccp_actions.c:3442-3443 | the variance from the two sums is the two-pass variance, and not negative |
| EnblocDialing.OnePassWithSurplus | src/sccp_actions.c:3442-3443 | over fewer digits than samples the computed squared deviations are the true ones less the sum times the difference of the two means |
| EnblocDialing.SurplusIsTakenBack | src/sccp_actions.c:3428-3467 | over every run of digits and backspaces the sums are those of the samples modulo the word, and the samples outnumber the measured digits by those taken back |
| EnblocDialing.SumsNeverWrap | src/sccp_actions.c:3435-3436 | both 32-bit sums stay exact whatever is dialled, as long as digits are measured rightly and at most 63 measured ones are taken back |
| EnblocDialing.PlainSumsNeverWrap | src/chan_sccp.c:148-150 | so they do with the default timeouts for every number of which at most the first digit is taken back |
| EnblocDialing.SixtyFourCanWrap | src/sccp_actions.c:3435-3436 | with 64 taken back they can wrap |
| EnblocDialing.JudgedOnTrueVariance | src/sccp_actions.c:3438-3448 | whenever a digit is judged, the samples exceed the digit count used by the digits taken back, and the variance is that of just those samples if and only if none was or no time passed |
| EnblocDialing.BackspaceMakesVarianceNegative | src/sccp_softkeys.c:441-444 | after a digit is taken back the computed variance of a steady dialler can be negative |
| EnblocDialing.SlowDigitAfterBackspaceWraps | src/sccp_softkeys.c:441-444 | after a backspace the timer is longer than the emulation takes it to be: a slow digit counts as negative time and wraps the sum |
| EnblocDialing.Emulation.HandleKeypadButton | src/sccp_actions.c:3411-3468 | one key press updates counters, timeout and the off switch in place |
| EnblocDialing.Emulation.TakeBack | src/sccp_softkeys.c:433-444 | backspace shortens the number and leaves the sums |
| EnblocDecision.DecidesOnTimes | src/sccp_actions.c:3411-3468 | over every run that takes back no measured digit, a digit from the fifth on shortens the timer if and only if it came within 400 milliseconds and one true standard deviation of all times, and the emulation gives up if and only if it did not, or its timer had hardly anything left |
| EnblocDecision.OtherwiseUndecided | src/sccp_actions.c:3411-3420 | the first digit, and all after the emulation gave up, are not measured |
| CallStatistics.AverageWithin | src/sccp_actions.c:4076 | a running average stays between the smallest and the largest value |
| CallStatistics.AverageDrift | src/sccp_actions.c:4168-4173 | n times the average is at most the sum and short of it by at most n(n-1)/2; for signed counters it differs by no more than that either way |
| CallStatistics.WordsAreExact | src/sccp_actions.c:4076 | the 32-bit arithmetic gives the true average if and only if the sum it forms fits into a word |
| CallStatistics.OneMore | src/sccp_actions.c:4168-4173 | one report more makes each word the average of one more value if and only if the sum it is formed from fits |
| CallStatistics.Statistics.AddCall | src/sccp_actions.c:4168-4189 | one more call keeps the average of the lost packets, and each of the four others if and only if its sum fits into a word |
| CallIds.IdsDiffer | src/sccp_channel.c:201-214 | before the counter wraps no two calls share an id or a pass-through id, neither is zero, and each is the complement of the other |
| CallIds.ComplementIsDifference | src/sccp_channel.c:243-244 | complementing an id takes it from the largest word |
| CallIds.WrapRepeats | src/sccp_channel.c:204-210 | two calls in a row share an id if and only if the counter wraps between them, and it is the id one |
| CallIds.FirstWrap | src/sccp_channel.c:206-209 | the first time that happens |
| CallIds.ShortCutIsSearch | src/sccp_actions.c:3600-3627 | the short cut over the active call finds what the full search finds, if and only if the message has a key or there is no active call |
| CallIds.Directory.Allocate | src/sccp_channel.c:201-214 | numbers the next call and advances the counter |
| CallIds.Holder.GetChannel | src/sccp_actions.c:3600-3627 | the call found is retained exactly once, and no other is |
| CallSearch.FindsWhatItIsAbout | src/sccp_actions.c:3600-3627 | the search finds a call that the message is about by its ids, if and only if there is one |

## Left out

- HeldRuns.HeldIsAside: stated for disciplined runs, after which the exact condition for every event is given;
  beyond them one miscount can cancel another, so that right once does not mean right later.
- CallInfo.UnchangedIsSent: stated for sends that nothing interrupts; StepHonest has the exact condition for the others.
- CallIds.IdsDiffer: stated before the counter wraps, since ids repeat at the wrap.
- EnblocDialing.SumsNeverWrap: the bound of 63 is the best one (SixtyFourCanWrap); for digits not measured rightly
  SurplusIsTakenBack gives the sums modulo the word.
- EnblocDialing.JudgedOnTrueVariance: for the runs of SumsNeverWrap, where the sums are exact.
- ButtonTemplate.FeaturePressFindsItsButton: for configurations in which no two buttons share a slot.
- FeaturePress.FeaturePressArrives: likewise, for templates no longer than a message; the hard hold key of SPCP
  phones, whose line is looked up by its call, is not modelled, nor what the feature handler then does.
- TransferEffects.OnHookCompletes: for a phone with transfer on hangup switched on, and a PBX channel that is up or
  rings; otherwise the event is an end of the call.
- MediaEffects.ConnectedIsHeard: while the phone and the PBX channel stay; without either nothing can be sent.
- EnblocDecision.DecidesOnTimes: while no measured digit was taken back; EnblocDialing.JudgedOnTrueVariance has the rest.
- SoftKeyRows.RowForOne: stated for distinct keymodes of the sets that have keys, which the configuration gives.
- RefLogRuns.HistoriesSplit, LineHasOneHistory and EntriesConserved: stated for a log read with all four kinds of
  report switched on, as an object whose report is off is in none of the lists; RefLogCounts.ReportsAreIndependent
  says what the others list then.
- CallStatistics.Statistics.AddCall: lost packets are unbounded signed numbers, as their overflow has no meaning in C.
- Several devices on one line in the transfer model; the answer race between them is in ChannelLock.
- The hold key on a phone with hook flash that cancels a transfer (src/sccp_channel.c:2091-2100): an end of a call
  followed by a resume, both of which are modelled.
- Conferences, parking, pickup, barge and monitoring of calls.
- Lamps, prompts, tones and keysets sent along with the modelled state changes.
- Capability messages and codec negotiation: a step is told whether a codec was found.
- The hotline template of an anonymous phone and the default line instance.
- The second pass that numbers unplaced speed dials (src/sccp_actions.c:1637-1653): it can reuse numbers.
- The fall back of the key mask to the configured list for a row that has no keys (src/sccp_softkeys.c:1217-1222).
- Address checks, NAT detection and the scripts that can decide a token: their verdicts are parameters.
- Sockets, threads and the cancellation of threads beyond the order of their effects on sessions and devices.
- Removal of a realtime device from memory when its session ends.
- Splitting a line of the reference log into its columns, and the printing of the lists.
- Averages of voice quality, which are floating point.
