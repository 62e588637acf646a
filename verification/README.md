# Verified model of the Link node

This project models the logic of a pure Go implementation of Ableton Link and
proves properties of it with Dafny. A Link node keeps a *session timeline*
(tempo, beat origin, time origin) shared with its peers over ghost time, and a
*client timeline* in host time that an application plays from. Nodes announce
their state in discovery datagrams, measure each other's ghost clock with pings
and pongs, and join the session that wins a comparison.

Check it with `dafny verify dfyconfig.toml` (or with `--resource-limit
2000000 --verification-time-limit 0` instead of its time limit).

## How it is laid out

| file | what it models |
|---|---|
| `Rounding.dfy`, `Beats.dfy`, `Tempo.dfy`, `Timelines.dfy` | rounding, micro-beats on a quantum grid, tempo, timelines, phase encoding |
| `Wire.dfy`, `NodeIds.dfy`, `PeerState.dfy` | payload entries, message framing, identifiers, the announced state |
| `Measurement.dfy` | ping and pong messages, samples, the median, accuracy over a network with bounded delays |
| `Session.dfy` | the engine's handlers as functions on its state, the events and their runs |
| `Timers.dfy` | the timer hub and broadcast pacing as a replay of the effects the handlers log |
| `Bookkeeping.dfy`, `Coupling.dfy`, `Transport.dfy`, `Presence.dfy`, `Lifecycle.dfy`, `Silence.dfy` | invariants over every run |
| `Trace.dfy`, `Accuracy.dfy`, `Answers.dfy` | what a run adds to the log, how pings are answered, and how accurate the clock transforms are that a run installs |
| `Sampling.dfy`, `Joining.dfy`, `Effects.dfy` | what events bring about: pongs complete a measurement, its outcome decides which session is joined, and what every other event changes |
| `Witnesses.dfy` | runs from a new node on which the code does not do what its comments say |
| `ChangeFilter.dfy`, `Preference.dfy` | two engines compared, joins over a run |
| `Convergence.dfy`, `Commits.dfy`, `Playing.dfy` | many nodes in a network: timelines, which commit wins, playing and stopping |
| `Engine.dfy` | the engine and its timer hub as classes whose methods update fields in place, each proved equal to its function in `Session.dfy`, up to the whole event loop |

The engine appears twice on purpose. `Session.dfy` is the specification: one
function per handler on a record `Core`, with every effect on the surroundings
logged in `out`. The invariants are proved about `Step` and `Run`. The classes in
`Engine.dfy` have the program's fields, loops and branches; each method's
postcondition gives the whole new state by the corresponding function, so
everything proved about runs holds of `Engine.RunLoop`.

Readings of the wall clock, the monotonic clock and the random source come in as
an `Env`, one value for each place a handler reads, and are otherwise
unconstrained. The network is nondeterministic delivery.

## Where the code and its comments differ

The model follows the code. These differences are stated as lemmas:

- `ClosestPhaseMatch` is documented to stay within half a quantum. It subtracts
  half the quantum counted in beats, but in micro-beats, so it does not:
  `ClosestWithinHalfIff` gives the exact condition, `ClosestIsNotAlwaysWithinHalf` an input.
- `NextPhaseMatch` is documented as greater than its argument; it is the argument itself
  exactly when the phases agree (`NextPhaseMatchIsLeast`).
- `shiftClientTimeline` is documented as an exact shift. It is exact for every timeline and
  time exactly when a beat takes an odd number of whole seconds, in range at 60 and at 20 BPM
  (`ShiftIsExactIff`); otherwise it is off by a bounded rounding error (`ShiftIsNearlyExact`,
  `ShiftIsNotExact`).
- Committing an unchanged client timeline is not always a no-op: `CommitIsIdempotentIff`, `CommitIsNotIdempotent`.
- A session forgotten over a failed measurement is commented to be measured again if seen
  again; an unchanged announcement does not do that (`ForgottenUntilChanged`, and from a new
  node on `ForgottenInARun`).
- Disabling is documented to stop all network activity; watchdogs of measurements in
  flight still ping (`DisabledNodePings`, and from a new node on `DisabledNodePingsInARun`),
  at most five times each (`DisabledFallsSilent`).
- The preference between sessions is not transitive: `PreferenceCyclesIff` and `PreferenceIsTransitiveIff`
  say for which clock offsets it is, `PreferenceCanCycle` is an instance.
- A node that was told, before it joined a session, that the session plays stays without a transport
  state there until somebody plays or stops again, because the announcement is unchanged
  (`JoinerIsCurrentIff`, `JoinerStaysSilent`).
- With start/stop sync on, a play change at the very instant of the session's latest one
  reaches the client but not the session: `PlayChangeAgreesIff`, `PlayChangeCanDisagree`.

## Model

| member | source | states |
|---|---|---|
| Rounding.LlroundIsRoundDiv | link/clock.go:37-39 | Rounding the real quotient is the integer rounding half away from zero, so all later arithmetic is exact on integers |
| Rounding.RoundIff | link/clock.go:37-39 | The rounded quotient is the nearest integer, at a tie the one away from zero, and no other integer is |
| Rounding.RoundOdd | link/clock.go:37-39 | Rounding is an odd function |
| BeatGrid.PhaseIsRemainder | link/beats.go:38-46 | Phase is the Euclidean remainder for beats of either sign, and 0 for a zero quantum |
| BeatGrid.NextPhaseMatchIsLeast | link/beats.go:48-55 | The result is the least value at or above x congruent to the target, and x itself exactly when the phases agree |
| BeatGrid.ClosestPhaseMatchIsUnique | link/beats.go:57-62 | The result is the one value in [x-h, x-h+q) congruent to the target, h being the offset the code subtracts |
| BeatGrid.ClosestWithinHalfIff | link/beats.go:57-62 | The documented bound of half a quantum holds if and only if the forward distance to the target phase is at most half a quantum or in its last h micro-beats |
| BeatGrid.ClosestIsNotAlwaysWithinHalf | link/beats.go:57-62 | An input on which the documented bound fails |
| Tempos.ConversionsAsWritten | link/tempo.go:14-24 | The conversions written with real arithmetic round the same fractions as the integer ones |
| Tempos.InRangeMicros | link/tempo.go:14 | Tempos of 20 to 999 BPM take 3,000,000 to 60,060 microseconds per beat, split at 60 BPM |
| Tempos.BackToMicros | link/tempo.go:17-24 | Microseconds to beats and back is exact from 60 BPM up and off by at most half of (mpb/1e6 + 1) otherwise |
| Tempos.BackToBeats | link/tempo.go:17-24 | Beats to microseconds and back is exact up to 60 BPM and off by at most half of (1e6/mpb + 1) otherwise |
| Tempos.BackToBeatsIff | link/tempo.go:17-24 | A beat survives the trip to microseconds and back exactly when some whole microsecond stands for it, which is a test on beat times mpb modulo 1,000,000 |
| Tempos.ConversionsAreOdd | link/tempo.go:17-24 | Both conversions are odd functions, which makes several compositions cancel |
| Tempos.WireTempoIsFixpoint | link/peerstate.go:53-74 | Encoding, decoding and clamping a tempo in range preserves its microseconds per beat |
| Tempos.Micros999 | link/timeline.go:31-39 | At 999 BPM the decoded tempo exceeds the range and is clamped back to 999 |
| Tempos.RelayNeverDrifts | link/peerstate.go:53-74 | Relaying a tempo any number of times never drifts and is stable after the first hop |
| Timelines.UnitSlopeTranslates | link/ghostxform.go:20-33 | At slope one the two directions of the transform are exact inverse translations |
| Timelines.EncodingOffsetIsUnique | link/timeline.go:44-47 | The offset of phase encoding is the one value in [-h, q-h) congruent to minus the beat origin |
| Timelines.PhaseEncodingTranslates | link/timeline.go:44-47 | Phase encoding adds a constant to the beat that does not depend on the time |
| Timelines.PhaseDecodingTranslates | link/timeline.go:51-62 | Phase decoding subtracts that same constant before mapping to time |
| Timelines.DecodeOfEncode | link/timeline.go:41-62 | Decoding an encoded time is mapping to beats and back: exact from 60 BPM up, within 2 microseconds from 20 BPM |
| Timelines.EncodeOfDecode | link/timeline.go:41-62 | Encoding a decoded beat is exact up to 60 BPM and within 8 micro-beats up to 999 BPM |
| Timelines.ClientFollowsSession | link/timeline.go:73-81 | Following a session keeps the client's beat at the update exactly, takes the tempo and puts the origin on session beat 0 |
| Timelines.AnchoredClientIsFixpoint | link/timeline.go:77-81 | A client anchored on session beat 0 with the same tempo is unchanged by following the session |
| Timelines.SessionFollowsClient | link/timeline.go:83-100 | A commit leaves the session alone exactly when beat 0 and tempo agree; otherwise the origin becomes the session's beat at the commit, or the next one if that is not beyond it, and beat 0 is the client's origin |
| Timelines.CommitIsIdempotentIff | link/timeline.go:86-100 | Committing the same client again is a no-op if and only if the new origin times mpb is near enough to a multiple of 1,000,000; always up to 60 BPM |
| Timelines.CommitIsNotIdempotent | link/timeline.go:86-100 | A client whose second commit is not a no-op |
| Timelines.ShiftIsNearlyExact | link/timeline.go:64-71 | A shift moves the beat at any time by the shift with an error of at most 1e6/mpb + 1 micro-beats |
| Timelines.ShiftIsExactIff | link/timeline.go:64-71 | The documented equality holds for all timelines, shifts and times of a tempo if and only if a beat takes an odd number of whole seconds: in range, 60 and 20 BPM |
| Timelines.ShiftIsNotExact | link/timeline.go:64-71 | The documented equality fails at 999 BPM |
| Timelines.ForcedBeatIsNearlyExact | link/timeline.go:102-109 | After forcing a beat the encoded beat is the request plus exactly the rounding error of the shift |
| Timelines.ForcedBeatWithRetry | link/engine.go:708-717 | After the retry one microsecond later the encoded beat is at most 2 micro-beats late and at most 2e6/mpb + 2 early |
| Timelines.ForcedGridWithRetry | link/engine.go:708-717 | Over both attempts the beat at every time moves by what it was off at the requested time within 68 micro-beats, and the beat origin by whole quanta |
| Timelines.TempoChangeKeepsBeat | link/engine.go:649-657 | A tempo change moves the beat at its instant by at most 8 micro-beats, and not at all up to 60 BPM |
| Timelines.FoundingKeepsGrid | link/engine.go:571-585 | A founded timeline has the old beat now, and host time of beat 0 within 2 microseconds of the old one |
| Wire.Int64RoundTrip | link/wire.go:155-165 | Eight bytes give the number back if and only if it fits 64 signed bits |
| Wire.EntriesRoundTrip | link/wire.go:58-94 | Parsing encoded entries returns exactly the non-empty ones, in order |
| Wire.ParseOfEncode | link/wire.go:58-94 | Parsing encoded entries followed by any bytes is those entries and then the parse of the rest |
| Wire.ParseOfConcat | link/wire.go:73-94 | If a prefix parses, the parse of a concatenation is the concatenation of the parses |
| Wire.EncodeOfParse | link/wire.go:58-94 | Encoding a parsed payload without empty entries gives the same bytes back |
| Wire.EncodeInto | link/wire.go:59-69 | The appending loop writes the buffer followed by the encoding of all entries |
| Wire.Parse | link/wire.go:73-94 | The consuming loop finds exactly the entries of the payload, or fails where the specification fails |
| Wire.DiscoveryRoundTrip | link/wire.go:96-131 | A discovery message parses back to its header and payload |
| Wire.LinkRoundTrip | link/wire.go:134-153 | A measurement message parses back, also with a raw payload appended |
| NodeIds.Compare | link/nodeid.go:27-37 | The byte loop compares the identifiers as big-endian numbers and finds 0 exactly for equal ones |
| NodeIds.ValueIsInjective | link/nodeid.go:27-39 | Identifiers with the same number are equal, so the order is total |
| PeerStates.Decode | link/peerstate.go:112-152 | The mutating decoder returns what applying the parsed entries one by one gives |
| PeerStates.DecodedUnderItsId | link/peerstate.go:112-152 | Whatever the payload holds, the decoded state belongs to the sender in the header |
| PeerStates.UnknownEntriesAreIgnored | link/peerstate.go:112-152 | Entries with unknown keys change nothing wherever they stand |
| PeerStates.PeerStateRoundTrip | link/peerstate.go:96-152 | Decoding an encoded state returns it with the tempo quantised, with any unknown entries in between |
| PeerStates.AnnouncementRoundTrip | link/engine.go:322-334 | The datagram a node announces itself with parses back to its header and state |
| PeerStates.AnnouncementFits | link/wire.go:96-108 | An announcement is at most 107 bytes, so the size panic cannot happen |
| Measurement.PongEchoesPing | link/measurement.go:64-76 | The pong to a ping decodes to the responder's session and ghost time and then the ping's own times |
| Measurement.SortIsUnique | link/engine.go:790-800 | There is one sorted arrangement of the samples, so the median does not depend on the sort |
| Measurement.MedianOfMajority | link/engine.go:790-800 | If a strict majority of samples lies in a range, so does the median, for odd and even counts |
| Measurement.HalfIsNotEnough | link/engine.go:790-800 | Half of the samples is not enough for that |
| Measurement.Link.RunStaysTimely | link/measurement.go:129-145 | Over any order, loss and duplication of messages every sample is within half the delay spread of the true offset |
| Measurement.Link.SamplesOfReply | link/measurement.go:137-145 | A reply with its times set yields exactly one sample, or two if the ping carried a ghost time, each the offset plus half of what the way there took longer than a way back |
| Measurement.Link.MeasurementIsAccurate | link/measurement.go:129-150 | The rounded median of an exchange over the network is within half the delay spread plus one half of the true offset |
| Accuracy.PongStaysTimely | link/measurement.go:120-155 | Taking an in-time pong keeps the samples accurate and the new ping in time, whether the measurement ends or goes on |
| Accuracy.RunStaysTimely | link/measurement.go:79-155 | In a run whose pongs for a session reply in time to its pings, all samples of its measurement are accurate, whatever else happens |
| Accuracy.InstalledTransformIsAccurate | link/measurement.go:147-150 | In such a run a transform installed by a pong belongs to the measured session and is within half the delay spread plus one half of the true offset, unless the node founds a session |
| Accuracy.InitiallyTimely | link/engine.go:230-250 | Every new node starts such runs |
| Answers.PingIsAnswered | link/measurement.go:64-76 | An enabled node answers a ping with one datagram to its sender, which decodes to the node's session, its ghost time now and the ping's own times |
| Answers.DisabledNodeDoesNotAnswer | link/measurement.go:48-51 | A disabled node does nothing on a ping |
| Answers.AnswerRepliesInTime | link/measurement.go:64-76 | Between two engines the answer of one replies in time over the link to it whose offset is that of its own ghost clock |
| Answers.AccurateMeansAgreed | link/ghostxform.go:20-28 | An accurate transform over that link agrees with the answering node's ghost clock within the accuracy, at all times |
| Answers.MeasuredClocksAgree | link/measurement.go:64-155 | When all pongs of a session are answers by a node of it, the clock installed agrees with that node's within half the delay spread plus one half, at all times, unless a session is founded |
| Bookkeeping.ResetKeeps | link/engine.go:571-593 | Founding a session makes the node its own session and empties both maps |
| Bookkeeping.MembershipKeeps | link/engine.go:432-450 | A recount sets the number of members and founds a session exactly when it drops to zero |
| Bookkeeping.SwitchKeeps | link/engine.go:547-566 | Switching sessions remembers the one left with all it held and loses nothing propagated |
| Bookkeeping.StepKeeps | link/engine.go:252-286 | Every event keeps the peer count right, peers under their own ids and never our own, the current session out of the other sessions, and propagated timelines held |
| Bookkeeping.RunKeeps | link/engine.go:252-286 | The same over every run |
| Bookkeeping.CommitKeeps | link/engine.go:660-671 | A commit never lowers the beat origin, and its optimistic caching stays within it |
| Coupling.TimingCouples | link/engine.go:596-621 | Any change of session timing keeps the client's beat at its instant and couples the timelines |
| Coupling.CommitFidelity | link/engine.go:660-671 | A commit never changes the client timeline; the session's is untouched or gets a larger origin with beat 0 exactly on the client's origin |
| Coupling.TempoChangeContinuity | link/engine.go:649-658 | A tempo change with its commit moves the client's beat by at most 8 micro-beats, not at all up to 60 BPM, and reaches the session |
| Coupling.ForcedBeatIsHeard | link/engine.go:708-717 | A forced beat with its retry and commit leaves the encoded beat at most 2 micro-beats late and 35 early |
| Coupling.RequestRespectsQuantum | link/engine.go:695-706 | With peers the chosen time is where the least matching phase falls, less than a quantum away, within 8 micro-beats and at most 2 microseconds early |
| Coupling.RequestKeepsGrid | link/engine.go:695-717 | After the whole command with peers the beat is heard at the chosen time at most 2 micro-beats late and 35 early, the beat origin moves by whole quanta and the beat at every time by whole quanta within 76 micro-beats |
| Coupling.FoundingIsContinuous | link/engine.go:571-588 | Founding keeps the client's beat at the update exactly, the tempo, and the grid within 2 microseconds |
| Coupling.StepCouples | link/engine.go:525-621 | Every event keeps client and session tempo equal and in range, the slope one, and the client's origin on session beat 0 |
| Coupling.RunCouples | link/engine.go:525-621 | The same over every run |
| Transport.PlayChangeAgreesIff | link/engine.go:673-692 | After a play change client and session agree if and only if it is not a different change at the session's own instant, nor a first one older than the client's |
| Transport.PlayChangeCanDisagree | link/engine.go:673-692 | Playing and stopping at one instant leaves the session playing and the client stopped |
| Transport.LateSyncDisagrees | link/link.go:268-271 | Right after sync is turned on while the session plays and the client does not, the two disagree |
| Transport.ChangesBringAgreement | link/engine.go:610-633 | With sync on, a change of session timing or a newer transport state of the session brings agreement, whatever was before |
| Transport.StepMoves | link/engine.go:598-692 | Every event moves the session's transport only to later timestamps or, with the session, to none; a harmonious event (a consistent play change, sync turned on only without a transport state) keeps the client in agreement |
| Transport.RunFollows | link/engine.go:598-692 | In every state reached by harmonious events the client plays what the session plays |
| Playing.PlayingIsHeard | link/engine.go:394-400 | A newer transport state of the own session, not heard from this peer before, is taken over, mapped to the client under sync and announced in turn; any other changes nothing |
| Playing.TakenOver | link/engine.go:623-633 | A transport state taken over reaches the client only under sync and is announced in any case |
| Playing.CueKeeps | link/engine.go:623-633 | Publishing, hearing, play changes and all else keep every node's transport state among those ever made and lower no timestamp |
| Playing.PlayingConverges | link/engine.go:394-400 | Once nobody plays or stops, one exchange gives all nodes the latest transport state ever made, and the same one if only one is latest |
| Playing.FounderIsCurrent | link/engine.go:571-593 | The founder of a session is a node this applies to |
| Playing.JoinerIsCurrentIff | link/engine.go:547-566 | So is a node that joins a session exactly if no peer told it before that the session plays |
| Playing.JoinerStaysSilent | link/engine.go:394-400 | A joiner that was told stays without a transport state on the peer's unchanged announcements |
| Playing.StartsInTune | link/engine.go:394-400 | Any current nodes of a session, with announcements under way no later than all of them, are such a network |
| Presence.StepPeers | link/engine.go:364-430 | After any event the node knows exactly the peers before, less those the event took away, plus the one it heard, each with its expiry, unless it founded a session |
| Presence.PeersLeaveOnlyFor | link/engine.go:408-430 | A peer is lost only to its own goodbye, an expired lifetime, a disabled node or a new session |
| Effects.NewNodeStartsAtBeatZero | link/engine.go:230-250 | A new node is disabled, alone in its own session, and at beat 0 of session and client now, at the clamped tempo, not playing |
| Effects.FoundedSessionIsAnnounced | link/engine.go:571-593 | A founded session starts its ghost time now, has no transport state and is announced before peers and sessions are dropped |
| Effects.EnablingFounds | link/engine.go:732-749 | Enabling founds a session and announces it, disabling says goodbye and forgets, and neither does anything twice |
| Effects.NodeIsHeardAsItIs | link/engine.go:292-302 | What a node publishes is its identifier, session, timeline, transport state and endpoint |
| Effects.OnlyAliveIsAnswered | link/engine.go:347-358 | An alive message does what a response does and is answered besides; a response is not |
| Effects.PeerLivesSixSeconds | link/engine.go:382-383 | A heard peer is dropped by a later pruning exactly if six seconds are over |
| Effects.OwnTimelineIsAdoptedIff | link/engine.go:459-467 | The own session's timeline is replaced exactly by a strictly newer one, without a jump of the client, and announced |
| Effects.OtherTimelineIsTracked | link/engine.go:470-475 | Of another known session the newer timeline is remembered and nothing else changes |
| Effects.FounderIsPreferred | link/engine.go:495-505 | The peer measured is the session's founder if it is there, otherwise the first in the order of identifiers |
| Effects.SessionIsMeasured | link/measurement.go:30-36 | A session with peers is measured at the preferred peer's endpoint, with a first ping and a watchdog |
| Effects.NewSessionIsMeasured | link/engine.go:476-477 | A session heard of for the first time is remembered and measured, or forgotten if its preferred peer has no endpoint |
| Effects.WatchdogRestartsFiveTimes | link/measurement.go:160-172 | A watchdog pings again up to five times and then gives the measurement up |
| Effects.RemeasureMeasures | link/engine.go:512-521 | The remeasure timer measures the own session and is armed again |
| Effects.RemeasureIsArmed | link/engine.go:512-521 | Arming leaves exactly one remeasure timer, the one the engine remembers |
| Effects.AnnouncementGoesOut | link/engine.go:304-320 | An announcement goes out at once if the last broadcast is 50 ms old, and otherwise leaves one deferred broadcast pending |
| Effects.DeferredBroadcastGoesOut | link/engine.go:312-315 | The deferred broadcast sends what the node's state is then, if it is still enabled |
| Effects.NoAnnouncementIsLost | link/engine.go:304-329 | Since any announcement something went out, or is pending, or had its turn while the node was disabled |
| Effects.ChannelHoldsSixtyFour | link/engine.go:70-75 | An elapsed timer is put on the channel while it holds fewer than 64 ids and dropped otherwise |
| Effects.TickAnnounces | link/engine.go:275-276 | Every tick announces an enabled node's state, and nothing of a disabled one |
| Effects.PlayChangeTakesEffect | link/engine.go:673-692 | A play change no older than the client's reaches the client with or without sync; with sync and newer than the session's it reaches the session at the same instant and is announced |
| Effects.RequestAloneIsForced | link/engine.go:695-706 | Without peers a requested beat is heard at the requested time itself |
| Effects.CommitIsCached | link/engine.go:664-669 | A commit is cached for the peers of the session, and for no others, as if they had announced it |
| Effects.EchoOfCommitIsIdle | link/engine.go:664-669 | So a peer that announces the committed timeline tells nothing new |
| Effects.MicrosPerBeatIsNearest | link/tempo.go:14 | Microseconds per beat are the whole number nearest to sixty seconds divided by the tempo |
| Effects.KeysAreNames | link/wire.go:37-50 | The keys are the four-letter names of the entries |
| Effects.MessagesBegin | link/wire.go:22-40 | Pings, pongs, alive messages and responses begin with the protocol's name, version and message type, byte for byte |
| Effects.GoodbyeBytes | link/engine.go:336-339 | The goodbye of a node, byte for byte |
| Timers.StepAccounts | link/engine.go:66-106 | Every event that can happen keeps the hub owned: one watchdog per measurement in flight, a remeasure timer and a deferred broadcast exactly when remembered, no id run twice or after a cancel |
| Timers.RunAccounts | link/engine.go:66-106 | The same over every run of such events |
| Timers.HubHoldsExactly | link/engine.go:55-98 | An id has a callback exactly when it has a running timer and exactly when a measurement, the remeasure timer or a pending broadcast owns it |
| Trace.CancelledNeverRuns | link/engine.go:79-98 | From one reachable state on, an id cancelled there never runs in any later state of the run, even if it is already in the channel |
| Trace.RunExtends | link/engine.go:252-286 | A run only extends the log of what the engine asked of its surroundings |
| Trace.StepAppends | link/measurement.go:79-190 | Only a measurement's own pongs add samples to it or send pings that answer a pong |
| Lifecycle.PongAdvances | link/measurement.go:120-155 | A pong that adds samples and does not end its measurement leaves it strictly less to do |
| Lifecycle.WatchdogAdvances | link/measurement.go:160-172 | A watchdog that does not end its measurement uses up one restart |
| Lifecycle.StepAdvances | link/measurement.go:79-190 | Across any event a measurement that stays in flight is untouched or has strictly less left |
| Lifecycle.ProgressIsBounded | link/measurement.go:79-190 | A measurement makes progress at most 105 times before it ends, whatever else happens |
| Lifecycle.EachStartHasOneOutcome | link/measurement.go:30-36 | Every started measurement has one outcome or is still in flight; none is started over another |
| Lifecycle.SuccessTakesEnoughSamples | link/measurement.go:147-150 | A measurement that succeeds has 101 or 102 samples |
| Sampling.PongTakes | link/measurement.go:132-155 | A well-formed pong answers with a ping carrying its ghost time, adds one or two samples, and above a hundred ends the measurement with the rounded median |
| Sampling.PongsAddUp | link/measurement.go:132-155 | While a measurement is in flight the first pong has added one sample and each further one two, whatever else happened |
| Sampling.FiftyOnePongsSucceed | link/measurement.go:147-150 | The fifty-first well-formed pong ends a measurement successfully with 101 samples, whatever else happened in between |
| Joining.ResultDecides | link/engine.go:525-567 | The own session's clock is installed; a known other session is joined exactly when it is ahead, with its timeline, clock, no transport state, the session left remembered, an announcement and a remeasure timer, or a session is founded if the node would be alone there; otherwise nothing changes |
| Joining.FinishedMeasurementDecides | link/engine.go:525-567 | The same over the event of the pong that completes a measurement, in terms of the difference of the clock offsets and the identifiers |
| Joining.FailureDecides | link/engine.go:528-545 | A failed measurement changes no timing: the own session is measured again later, another one is forgotten |
| Joining.BadPongFails | link/measurement.go:120-130 | A pong that does not decode or is of another session fails the measurement it was taken for |
| Joining.PongsLeadToTheSessionAhead | link/engine.go:547-566 | Fifty-one in-time pongs of a session clearly ahead bring a node that has a peer there to it, on its timeline and within the accuracy of its clock |
| Silence.DisabledStep | link/engine.go:732-749 | A disabled node sends nothing but pings of watchdogs and starts no measurement |
| Silence.DisabledFallsSilent | link/measurement.go:160-172 | While it stays disabled it sends at most five pings per measurement that was in flight |
| Silence.DisabledNodePings | link/measurement.go:160-168 | The documented silence fails: the watchdog of a disabled node pings |
| Witnesses.DisabledNodePingsInARun | link/measurement.go:160-168 | From a new node on: enabled, measuring a peer's session, disabled, its watchdog due, and a ping goes out |
| ChangeFilter.StepAlike | link/engine.go:252-286 | No event looks at what was sent or scheduled before: engines alike but for the log stay alike |
| ChangeFilter.FilterIsHarmless | link/engine.go:385-392 | In a run that forgets no session, the engine and one that propagates every announcement stay alike |
| ChangeFilter.ForgottenUntilChanged | link/engine.go:541-545 | A forgotten session is considered again if and only if the announcement changed; without the filter it always would be |
| Witnesses.ForgottenInARun | link/engine.go:385-392 | From a new node on: a session forgotten over a failed measurement stays unknown on the next announcement, even one with an endpoint to measure |
| Preference.PreferenceIsAsymmetric | link/engine.go:547-553 | Of two sessions at most one is preferred to the other, whenever each is asked |
| Preference.PreferenceDecidesIff | link/engine.go:547-553 | One of two sessions is preferred if and only if their offsets do not differ by exactly 500 ms |
| Preference.PreferenceCyclesIff | link/engine.go:547-553 | Three sessions are preferred in a circle if and only if some turn of them is in order of identifier with neighbours within 500 ms and the last ahead of the first by more |
| Preference.PreferenceIsTransitiveIff | link/engine.go:547-553 | Of three sessions preferred in a row the first is preferred to the last if and only if they make no such turn and do not differ by exactly 500 ms |
| Preference.PreferenceCanCycle | link/engine.go:547-553 | Three sessions 300 ms apart, in order of identifier, are each preferred to the next in a circle |
| Preference.StepMovesFairly | link/engine.go:525-594 | A node changes session only by founding one or joining one that wins |
| Preference.JoinsAreBounded | link/engine.go:547-567 | Without resets and with offsets within the epsilon every join lowers the session id, so joins are fewer than sessions |
| Convergence.HearKeeps | link/engine.go:364-406 | Hearing any announcement keeps the timeline or, for the own session, takes the announced one if newer, and ends at least as new as both; only a foreign one can let the node found a session |
| Convergence.AttendKeeps | link/engine.go:252-286 | Whatever else happens, announcements of other sessions and measurements of them included, a node that stays in its session keeps its timeline |
| Convergence.ReachedIsInSession | link/engine.go:252-286 | Every state reached from a new node without a forgotten session is one the convergence results apply to |
| Convergence.FounderIsInSession | link/engine.go:571-593 | So is the founder of a session |
| Convergence.JoinerIsInSessionIff | link/engine.go:547-566 | A node that joins remembers the session left, and is in session exactly when it held every timeline it had propagated for the session joined |
| Convergence.JoinerIsInSession | link/engine.go:547-566 | A node that forgot no session is in session wherever it joins |
| Convergence.DeedKeeps | link/engine.go:459-467 | Publishing, hearing, committing and all else keep every node's timeline among those ever made and lower no beat origin |
| Convergence.OriginsNeverDecrease | link/engine.go:660-671 | However messages are reordered, lost and duplicated among commits, no node's beat origin ever decreases |
| Convergence.NodesConverge | link/engine.go:459-467 | Once commits stop, one exchange gives all nodes the greatest origin ever made, and the same grid if only one has it |
| Convergence.StartsTogether | link/engine.go:459-467 | Any nodes in session, with any of its announcements under way that are no newer than all of them, are a network the convergence results apply to |
| Commits.CommitOrigin | link/engine.go:660-671 | A commit that changes the session gives it the session's beat at its time as origin, or the next one, with the client's tempo and beat 0, and announces it |
| Commits.CommandOrigin | link/engine.go:649-717 | The same for every command, at the time it commits |
| Commits.LaterCommitIsNewer | link/timeline.go:83-100 | Of two commits to sessions with one origin, the one at the later beat beyond it has the larger origin |
| Commits.LaterCommitWins | link/timeline.go:83-100 | Of two nodes that commit before hearing of each other, the one at the later beat of the session decides the grid all nodes end up with |
| Engines.CountPeers | link/engine.go:434-440 | The loop counts the members of the session, in any order of the map |
| Engines.CollectExpired | link/engine.go:415-422 | The loop collects exactly the peers past their expiry |
| Engines.CachePeers | link/engine.go:664-669 | The loop gives every peer of the session, and no other, the committed timeline |
| Engines.ChoosePeer | link/engine.go:485-505 | The peer chosen is the founder if present, otherwise the one with the least identifier |
| Engines.FindMeasurement | link/measurement.go:80-91 | The search finds a measurement of the sender if there is one |
| Engines.ReadPong | link/measurement.go:93-122 | Reading a pong entry by entry gives the decoded pong or fails |
| Engines.AnnouncementArrives | link/engine.go:341-362 | What one node announces is handled by another as that state, its tempo quantised |
| Engines.GoodbyeArrives | link/engine.go:336-362 | A goodbye is handled as the goodbye of its sender |
| Engines.MeantIsPossible | link/engine.go:66-98 | Whatever the event loop takes in stands for an event whose timer, if any, is due |
| Engines.StepKeepsAll | link/engine.go:252-286 | Every event that can happen keeps all invariants at once |
| Engines.TimerHub.After | link/engine.go:66-77 | A new timer takes the next id, with its callback and its runtime timer |
| Engines.TimerHub.Cancel | link/engine.go:79-85 | A cancelled id loses callback and runtime timer, and nothing else changes |
| Engines.TimerHub.Receive | link/engine.go:87-98 | The id at the head of the channel gives its callback once; an id without one is dropped |
| Engines.TimerHub.StopAll | link/engine.go:100-106 | All running timers stop and their callbacks go |
| Engines.Engine.constructor | link/engine.go:230-250 | A new engine is in the initial state and has all invariants |
| Engines.Engine.Broadcast | link/engine.go:304-329 | A disabled node sends nothing; otherwise the broadcast goes out at once or, within 50 ms of the last, at most one deferred broadcast is armed |
| Engines.Engine.ScheduleRemeasure | link/engine.go:512-521 | The old remeasure timer is cancelled before the new one is armed |
| Engines.Engine.UpdateSessionTiming | link/engine.go:598-621 | The tempo is clamped; equal timing changes nothing, other timing is installed, the client follows it and the transport is mapped again under sync; nothing else changes |
| Engines.Engine.ResetState | link/engine.go:571-594 | New identity and session, timeline and transform continuing the old ones, no transport state, an announcement, then no peers and no other sessions |
| Engines.Engine.SessionMembershipChanged | link/engine.go:434-450 | The count becomes the number of members and, only on a drop from positive to zero, a session is founded |
| Engines.Engine.PrunePeers | link/engine.go:415-430 | Exactly the expired peers go, one by one, and members are recounted only if there were any |
| Engines.Engine.HandleMeasurementResult | link/engine.go:525-567 | Refresh and rearm for the own session; nothing for an unknown one; forget on failure; join the winner and remember the session left; nothing otherwise, as `Joining.ResultDecides` says of the function it computes |
| Engines.Engine.LaunchMeasurement | link/engine.go:481-510 | Nothing while one is in flight; a session without peers is dropped; a peer without endpoint is a failed measurement; else one starts |
| Engines.Engine.SawSessionTimeline | link/engine.go:459-477 | The own session adopts a larger origin and announces; a known one keeps the larger origin; a new one is recorded and measured |
| Engines.Engine.SawPeerState | link/engine.go:364-406 | An undecodable payload changes nothing; else the peer is recorded, timeline and then transport are propagated if changed, members recounted if it moved |
| Engines.Engine.TakePong | link/measurement.go:93-155 | A bad or foreign pong fails the measurement; else a ping answers, up to two samples are added, and it ends above 100 samples or its watchdog is rearmed |
| Engines.Engine.HandlePong | link/measurement.go:79-155 | A pong counts for some measurement of its sender and for none if there is none |
| Engines.Engine.MeasurerTimerFired | link/measurement.go:160-172 | A watchdog without measurement does nothing; up to five times it pings again, then it fails the measurement |
| Engines.Engine.FinishMeasurement | link/measurement.go:174-190 | The measurement is off the books and its watchdog cancelled before its outcome is handled |
| Engines.Engine.CommitClientTimeline | link/engine.go:660-671 | The session follows the client, every peer of the session is cached with the result, the state is announced |
| Engines.Engine.ApplyTempoChange | link/engine.go:649-658 | Tempo and time origin change in place so that the beat at the instant is kept, then the client is committed |
| Engines.Engine.ForceClientBeat | link/timeline.go:104-109 | Writing through the client timeline gives the forced timeline and changes nothing else |
| Engines.Engine.ApplyForceBeatAtTime | link/engine.go:708-717 | The client is forced, once more a microsecond later if it came out late, then committed |
| Engines.Engine.ApplyRequestBeatAtTime | link/engine.go:695-706 | With peers the time is moved to the next matching phase before forcing, without peers it is not |
| Engines.Engine.ApplyPlayingChange | link/engine.go:673-692 | The client's transport changes unless the change is older than it, the session's only under sync and if strictly newer, then announced |
| Engines.Engine.SetEnabled | link/engine.go:732-749 | Nothing if unchanged; enabling founds a session and announces; disabling says goodbye and drops peers, sessions and the count |
| Engines.Engine.HandleDiscoveryPacket | link/engine.go:341-362 | Any datagram has the effect of the event it stands for, or none |
| Engines.Engine.HandleMeasurementPacket | link/measurement.go:48-62 | Any measurement datagram has the effect of an event it can stand for, or none; a ping's is `Answers.PingIsAnswered` |
| Engines.Engine.Fire | link/engine.go:87-98 | An id from the channel runs its callback as the event it stands for |
| Engines.Engine.RunLoop | link/engine.go:252-286 | Whatever the inputs, the engine goes through a run of possible events and keeps all its invariants |
| Engines.Engine.Shutdown | link/engine.go:257-262 | On the way out no callback and no running timer is left |

## Left out

- Sockets, interface selection, multicast options and receive loops (`link/network.go`, `link/multicast_*.go`): I/O; datagrams arrive nondeterministically.
- The terminal client (`cmd/linkclient`): user interface.
- The public API, callbacks, mutexes and snapshots (`link/link.go`, link/engine.go:755-784), and with them `lastPlayingCb`: wrappers that feed nothing back into the engine. The guard of `SetTempo` is there only as the clamp of the engine.
- Logging and the rate-limited send reporter (link/engine.go:186-226).
- Floating point: tempo, slope and samples are exact reals, rounded half away from zero where the code rounds; the error of float64 is not modelled.
- Integer width: beats and microseconds are unbounded inside the node; the 64-bit limits appear on the wire only (`Int64RoundTrip`, `Sendable`).
- A zero or negative quantum in the grid functions: with zero the code divides by zero in `mod` (link/beats.go:23), and nothing on the way from the public API prevents it, so `quantum > 0` is required of the caller; only `Phase` accepts zero, as the code does.
- Clocks: each handler reads the wall clock once in the model, where the code may read it again within the same handler; no monotonicity is assumed.
- The sort of candidate peers and of samples is the library's; the model takes the least identifier in one pass and sorts by insertion, and proves that neither depends on the algorithm.
- Peer entries and measurers are values in maps that the methods reassign, so pointers shared between a map and a handler are not modelled; the id of a measurement's watchdog is kept in a map beside the measurements.
- Fields that are written but decide nothing: the last host and ghost time of a measurer, the source address and last-seen time of a peer.
- How long timers run (50 ms for a watchdog, 30 s for remeasuring, the rest of the gap for a deferred broadcast): the model says which timers are armed, not when they elapse.
- That timers fire at all and how far broadcasts are apart: an id is dropped when the channel is full, and a deferred broadcast does not look at the gap again, so only safety is claimed.
- Textual identifiers, random generation of identifiers and IPv6 endpoints: new identifiers are inputs, and no uniqueness is assumed. A node whose new identifier equals one already in use is therefore covered.
- The default tempo of a configuration without one (link/engine.go:802-807): the initial tempo is a parameter.
- NodesConverge: concerns nodes that stay in one session during the run, with whatever other sessions, peers and measurements they have; founding or joining a session is the subject of `FoundingIsContinuous` and `JoinsAreBounded`. A node that forgot a session over a failed measurement is covered when `JoinerIsInSessionIff` says so.
- JoinsAreBounded: offsets within the epsilon are assumed of the transforms the node adopts, as `PreferenceCanCycle` shows they must be.
