# A verified model of the EchoLink/OpenBridge gateway

The gateway joins an EchoLink conference to a DMR talkgroup. On one side it serves EchoLink
stations over UDP; on the other it exchanges DMRD packets with an OpenBridge peer; between the
two, Analog_Bridge turns PCM into DMR audio and back. This project models the parts of the
gateway that keep state and proves what they are for. `dafny verify dfyconfig.toml` checks it.

Everything is stated over all inputs, all interleavings or all runs. Where the program changes
state in place the model is a class whose methods are proved against a function or a step of a
machine, and the results are lemmas about that function or about every run of that machine.

## What is modelled

**Push-to-talk** (`usrp_machine.dfy` to `usrp_losses.dfy`, `usrp_playback.dfy`, `usrp_service.dfy`). The service
loop and the pacer thread share a bounded queue, three flags and a socket. The steps are the
single accesses either thread makes, so a run is any interleaving, with one producer call in
progress at a time. The class `UsrpTransmitter` holds the same methods in place. Between two of
its accesses the other thread may act: the methods `PacerRuns` and `ProducerRuns` stand for
that. Their callers learn nothing from them except that the other thread took steps of the
machine, so what is proved holds whatever those steps were. `close()` is part of it, with its
timeout and the closing of the socket. The main results are that an unkey is always reached
while the socket is open, exactly when the pacer can exit keyed, that what goes on the wire is
a sequence of well-formed transmissions, that voice is conserved, ordered and paced by the
configured frame length, that what is queued is what is played, and that every call returns.

**Conference sessions** (`conference.dfy`, `session.dfy`, `session_effects.dfy`,
`conference_service.dfy`). Roster,
speaker, two peer dictionaries that share peer objects, and counters. Every handler keeps them
in agreement with one another and with the key request of the transmitter. The only way a
handler fails to return is an allowed newcomer on a full roster, and then it always does.
`session_effects.dfy` says field by field what each kind of datagram does, and ties the release
of an idle speaker to the history of decoded audio.

**Audio translation** (`ambe.dfy`, `ambe_streams.dfy`, `dmrd.dfy`, `analyzer.dfy`,
`stream_builder.dfy`, `tlv.dfy`, `bridge_pacing.dfy`, `bridge_segments.dfy`,
`bridge_runtime.dfy`, `openbridge_to_tlv.dfy`). The burst layout of section 6.1 of ETSI TS 102
361-1, the 53-byte packet form, the live stream builder against the batch function, learning of
TLV framing, the prebuffering loop, and voice carried round all of it unchanged.

**RTCP** (`rtcp.dfy`, `sdes.dfy`). The compound walk and the SDES parser and builder, against
sections 6.1, 6.5 and 6.6 of RFC 3550.

**Supporting state machines** (`commands.dfy`, `command_restarts.dfy`, `ports.dfy`,
`lastheard.dfy`). Dashboard commands across restarts, the port planner, the last-heard file.

`bytes.dfy`, `sequences.dfy` and `wrappers.dfy` hold what these share.

## Where the code does not do what it says

- `close()` waits one second for the pacer and then closes the transmit socket in any case. If
  the wait times out while the radio is keyed, the pacer can send nothing any more and exits
  keyed; otherwise it exits unkeyed. `ExitsKeyedIff` is exact, and `JoinTimeoutCanLoseUnkey` is
  a run of a single `close()`.
- `extract_dmr_ambe_blocks` is documented to ignore begin and end records. It ignores them only
  up to 27 bytes; a longer one is taken for audio. `AudioSurvives` says that audio makes the
  round exactly when no start or end datagram sent is that long; `OverlongStartExample` has one.
- Packing and unpacking the DMRD flag byte are not inverse for every packet the constructor
  accepts. `RoundTripIff` gives the exact condition, `GroupBecomesVcsbk` a packet.
- A silence ends a stream that never filled its prebuffer, too: its terminator is sent although
  its header was not. `HeadlessIff` is exact, `TlvToOpenBridge` says it of whole runs,
  `HeadlessExample` is one input. Stopping sends no such terminator.
- Automatic ports are chosen before later configured ones are looked at, so a configured port
  can be taken by an automatic choice and planning then fails although other ports are free.
  `PlannedIff` is exact for every mix of ports, `TakenExample` is one configuration.
- A command that is not a reload is not always one-shot. `NoRepeatsIff` says exactly when a run
  carries one out twice: when a process polls after an earlier one carried the command out and
  its last acknowledgement failed. `ForgottenRunsTwice` is such a run.
- An SDES packet whose NAME (or, without one, CNAME) is all blank makes the parser raise, and
  one without chunks is refused below eight bytes: `SdesParsed`, `BlankNameRaises`.
- A callsign longer than 255 bytes comes back cut: `SdesRoundTrip`, `LongCallsignIsCut`.

## Assumptions

Clocks are integers (microseconds, or UTC seconds for the last-heard file) that never run
backwards; the wall clock of a restarted process is strictly later than anything before the
restart. Sleeps never end early. HMAC-SHA1 is any function to 20 bytes. Callsigns are upper-case
keys without surrounding blanks, and text is ASCII. File operations are atomic. A send that has
found the transmit socket open completes before `close()` closes it. Dashboard
requests to disconnect a station, which come from another thread without a lock, are single
steps between handlers. The parsers of EchoLink text and the access rules are represented by
their results: what a datagram says, and whether a callsign is allowed in.

## Model

| member | source | states |
|---|---|---|
| UsrpSafety.UnkeyIsPending | app/echolink_ob/echolink/service.py:598-667 | in every interleaving of the service loop with the pacer thread, as long as close() has not closed the socket: whenever no keyup is wanted and no producer call is in progress, the queue ends in an unkey, or it is empty and the item in hand is an unkey, or nothing is left and the radio is unkeyed |
| UsrpSafety.ExitsUnkeyed | app/echolink_ob/echolink/service.py:152-160 | as long as close() waits for the pacer, the pacer thread exits only with the radio unkeyed |
| UsrpSafety.ExitsKeyedIff | app/echolink_ob/echolink/service.py:152-169 | in any run, with any number of close() calls, the pacer exits keyed exactly if close() gave up waiting for it, and closed the socket, while the radio was keyed |
| UsrpSafety.ClosedIsSilent | app/echolink_ob/echolink/service.py:577-579 | once the socket is closed nothing more is sent and the keyed flag stays as it was |
| UsrpSafety.ClosingStep | app/echolink_ob/echolink/service.py:159-168 | closing the socket touches nothing of the pacer, and finds the radio keyed only after giving up |
| UsrpSafety.StopsSoon | app/echolink_ob/echolink/service.py:641-667 | once stop is set the pacer, left alone, exits within a bounded number of steps and can always take the next one |
| UsrpSafety.CallsReturn | app/echolink_ob/echolink/service.py:598-689 | whatever the pacer does meanwhile, a producer call takes a bounded number of steps of its own, draining included, and can always take the next one or, in close(), give up waiting |
| UsrpSafety.CallsAreShort | app/echolink_ob/echolink/service.py:598-689 | so with the queue within its bound no call takes more than 256 steps of its own |
| UsrpSafety.JoinTimeoutCanLoseUnkey | app/echolink_ob/echolink/service.py:152-169 | a concrete run of one close(): it gives up its one-second wait and closes the socket, the pacer takes the unkey, sends nothing, and exits with the radio keyed |
| UsrpSafety.WireFollowsGrammar | app/echolink_ob/echolink/service.py:571-667 | the packets of any run spell a prefix of (keyup voice* unkey)*, so no voice while unkeyed, no double key and no double unkey whatever is evicted; sequence numbers are consecutive modulo 2^32 |
| UsrpSafety.VoiceIsConserved | app/echolink_ob/echolink/service.py:669-689 | voice leaves in submission order, unaltered and at most once; every frame queued is exactly one of sent, met by a closed socket, in hand, pending, evicted or drained; frames that met a closed socket come after all that were sent |
| UsrpSafety.QueueStaysBounded | app/echolink_ob/echolink/service.py:130 | the queue never exceeds 250, and the last-resort queue-still-full branches are never taken |
| UsrpSafety.VoiceIsPaced | app/echolink_ob/echolink/service.py:638-667 | in every run of a pacer made for frames of so many milliseconds the interval is that frame length in microseconds, at least 5000; since the last cadence reset, packet i leaves no sooner than i frame lengths after it, and k + 1 consecutive voice packets span at least k - 1 frame lengths |
| UsrpSafety.VoiceIsPrompt | app/echolink_ob/echolink/service.py:638-663 | nor is voice held back: in every run the next frame is due at most one frame length, or 5000 microseconds if that is more, after the clock |
| UsrpCadence.MarkerRestartsCadence | app/echolink_ob/echolink/service.py:647-655 | a marker, or voice that finds the radio unkeyed, makes the next frame due at once |
| UsrpPlayback.PlaysWhatIsQueued | app/echolink_ob/echolink/service.py:638-667 | left alone with the socket open for long enough, the pacer sends exactly what is pending, in order: every frame, a keyup before a frame that finds the radio unkeyed, and each marker that changes the radio |
| UsrpPlayback.UndisturbedSubmit | app/echolink_ob/echolink/service.py:605-622 | with the pacer still, a submitted frame goes last in line behind a keyup if none was wanted, and what does not fit is dropped from the old end |
| UsrpPlayback.UndisturbedUnkey | app/echolink_ob/echolink/service.py:624-636 | with the pacer still, an unkey goes last in line, or is all that is left if the queue was drained or full |
| UsrpSafety.DrainsToUnkeyed | app/echolink_ob/echolink/service.py:638-667 | with the socket open and left alone after an unkey, the pacer has nothing pending and the radio unkeyed within five steps per queued item plus four |
| UsrpSafety.WorkStep | app/echolink_ob/echolink/service.py:641-667 | every pacer step that has something left to act on makes progress |
| UsrpSafety.ExitKeepsRadio | app/echolink_ob/echolink/service.py:641 | the pacer exits only on an empty queue after stop, without touching the radio |
| UsrpSafety.StepInv | app/echolink_ob/echolink/service.py:598-689 | every atomic step of either thread keeps bounds, flags, settling, conservation, grammar and cadence together |
| UsrpSafety.RunInv | app/echolink_ob/echolink/service.py:598-689 | and so does every run |
| UsrpLosses.OldestAreLost | app/echolink_ob/echolink/service.py:676-682 | frames given up under pressure or by an unkey were all submitted before every frame still waiting |
| UsrpGrammar.RecognisesGrammar | app/echolink_ob/echolink/service.py:577-596 | a recogniser that only tracks keyed and unkeyed accepts exactly the prefixes of whole transmissions laid end to end |
| UsrpGrammar.GrammarStep | app/echolink_ob/echolink/service.py:647-667 | every step keeps the packets sent within the grammar, keyed exactly when the last packet keyed up, and numbered consecutively |
| UsrpVoice.VoiceStep | app/echolink_ob/echolink/service.py:598-689 | every step keeps frames in order, unaltered, and accounted for exactly once as multisets |
| UsrpVoice.CutKeeps | app/echolink_ob/echolink/service.py:616-618 | taking the oldest entry, by eviction or draining, moves exactly that entry's frame from pending to lost |
| UsrpVoice.SendKeeps | app/echolink_ob/echolink/service.py:662 | sending moves exactly the frame in hand to the wire, behind all sent before it |
| UsrpVoice.UnsentKeeps | app/echolink_ob/echolink/service.py:577-579 | a frame in hand that finds the socket closed is accounted for as such, behind all dealt with before it |
| UsrpCadence.SendKeepsCadence | app/echolink_ob/echolink/service.py:659-663 | a send no earlier than the deadline, and a deadline of the later of due plus interval and now, keep both spacing bounds |
| UsrpCadence.CadenceStep | app/echolink_ob/echolink/service.py:638-667 | every step keeps the spacing bounds |
| UsrpMachine.FlagsStep | app/echolink_ob/echolink/service.py:605-636 | every step keeps the bound and ties the key-requested flag, the stop flag and the producer's place to one another |
| UsrpMachine.SettleStep | app/echolink_ob/echolink/service.py:624-667 | every step keeps, while the socket is open: no keyup wanted and no call in progress implies an unkey is last in line or the radio is unkeyed; exit implies unkeyed |
| UsrpMachine.ProducerKeeps | app/echolink_ob/echolink/service.py:598-689 | the producer touches none of the pacer's variables |
| UsrpMachine.ConsumerKeeps | app/echolink_ob/echolink/service.py:638-667 | the pacer touches none of the producer's variables and only ever takes the front of the queue |
| UsrpService.UsrpTransmitter.RequestKey | app/echolink_ob/echolink/service.py:605-609 | test-and-set of the key request under its lock |
| UsrpService.UsrpTransmitter.PutKeyup | app/echolink_ob/echolink/service.py:610-612 | put_nowait of a keyup; after an eviction it cannot fail |
| UsrpService.UsrpTransmitter.EvictOldest | app/echolink_ob/echolink/service.py:613-618 | exactly the oldest entry is lost; an empty queue is not an error |
| UsrpService.UsrpTransmitter.QueueKeyup | app/echolink_ob/echolink/service.py:605-622 | ends with a keyup requested and the last-resort branch not taken, whatever the pacer does meanwhile |
| UsrpService.UsrpTransmitter.PutVoice | app/echolink_ob/echolink/service.py:673-676 | put_nowait of a frame: appended to what was submitted exactly when it succeeds |
| UsrpService.UsrpTransmitter.SendPcm | app/echolink_ob/echolink/service.py:669-689 | a full-size frame always ends up submitted behind a key request; any other size changes nothing |
| UsrpService.UsrpTransmitter.ClearKeyRequest | app/echolink_ob/echolink/service.py:625-626 | the key request is withdrawn before anything is drained |
| UsrpService.UsrpTransmitter.DrainNext | app/echolink_ob/echolink/service.py:599-603 | one get_nowait while draining loses exactly the oldest entry, and reports an empty queue exactly when it is one |
| UsrpService.UsrpTransmitter.DrainQueue | app/echolink_ob/echolink/service.py:598-603 | draining terminates although the pacer takes entries too |
| UsrpService.UsrpTransmitter.PutUnkey | app/echolink_ob/echolink/service.py:629-631 | put_nowait of an unkey; after a drain it cannot fail |
| UsrpService.UsrpTransmitter.QueueUnkey | app/echolink_ob/echolink/service.py:624-636 | ends with the key request withdrawn and the unkey queued, the last-resort branch not taken; asked to clear, nothing but that unkey is left |
| UsrpService.UsrpTransmitter.Release | app/echolink_ob/echolink/service.py:624-636 | while the socket is open the call returns with the radio unkeyed or an unkey last in line, and nothing else in line if it was to clear; after close() it changes nothing about the radio |
| UsrpService.UsrpTransmitter.Shutdown | app/echolink_ob/echolink/service.py:152-168 | close() returns with the socket closed and, if the pacer exited in time, the radio unkeyed; a second close() changes nothing about the radio |
| UsrpService.UsrpTransmitter.Join | app/echolink_ob/echolink/service.py:159-160 | in time exactly if the pacer exits while it is waited for, and then the radio is unkeyed |
| UsrpService.UsrpTransmitter.CloseSocket | app/echolink_ob/echolink/service.py:161-168 | the socket goes whether or not the pacer has exited, and from then on keyed flag and packets sent stay as they are |
| UsrpService.UsrpTransmitter.SendPacket | app/echolink_ob/echolink/service.py:577-602 | on an open socket one packet with the next sequence number, and the keyed flag to match; on a closed one nothing at all |
| UsrpService.UsrpTransmitter.KeepRunning | app/echolink_ob/echolink/service.py:641 | stop is read first and the queue only if it is set; false exactly on exit |
| UsrpService.UsrpTransmitter.GetItem | app/echolink_ob/echolink/service.py:642-645 | takes the oldest entry, or nothing on a timeout |
| UsrpService.UsrpTransmitter.SetRadio | app/echolink_ob/echolink/service.py:647-667 | a packet only if the radio changes and the socket is open; the cadence starts afresh either way |
| UsrpService.UsrpTransmitter.HandleMarker | app/echolink_ob/echolink/service.py:647-667 | packet, flag, sequence and cadence after a marker, whatever the service loop does meanwhile |
| UsrpService.UsrpTransmitter.HandleVoice | app/echolink_ob/echolink/service.py:651-663 | a frame that finds the radio unkeyed keys it first; then exactly that frame goes out, not before its deadline, unless the socket has been closed by then |
| UsrpService.UsrpTransmitter.Serve | app/echolink_ob/echolink/service.py:642-667 | whatever was oldest is dealt with completely |
| UsrpService.UsrpTransmitter.WaitAndSend | app/echolink_ob/echolink/service.py:659-663 | never before the deadline; the next deadline is the later of due plus interval and now |
| UsrpService.UsrpTransmitter.TxLoop | app/echolink_ob/echolink/service.py:638-667 | any number of iterations, with the service loop interleaved, is a run of the machine, with at least one pacer step per iteration unless it exits; it exits only after stop and, with the socket open, only unkeyed |
| ConferenceRoom.AddKeeps | app/echolink_ob/echolink/conference.py:28-35 | a new callsign is refused exactly when the roster is full; otherwise it joins at the end, silent and unmuted, and nothing else changes |
| ConferenceRoom.AddAnswers | app/echolink_ob/echolink/conference.py:28-35 | for any callsign, new or not: a full roster is the first reason to refuse, a forbidden duplicate the second, and otherwise a duplicate is replaced where it stands |
| ConferenceRoom.RemoveKeeps | app/echolink_ob/echolink/conference.py:37-43 | removal takes exactly that station, and the floor with it if it had it |
| ConferenceRoom.BeginKeeps | app/echolink_ob/echolink/conference.py:45-55 | the floor is granted exactly to its holder or, if free, to the asker, who is then marked as speaking and heard now; no other station changes |
| ConferenceRoom.AfterFrameKeeps | app/echolink_ob/echolink/conference.py:64-77 | after a frame somebody has the floor, and the frame was granted exactly if that is its sender, who has then been heard now; every other station stays as it was |
| ConferenceRoom.RecipientsAre | app/echolink_ob/echolink/conference.py:75 | everyone on the roster except the speaker and the muted, once each |
| ConferenceRoom.ReleaseKeeps | app/echolink_ob/echolink/conference.py:79-99 | the speaker is released exactly when nothing has been heard from it for the timeout, every release is reported, and only the speaking flag of that station changes |
| ConferenceRoom.HeardKeeps | app/echolink_ob/echolink/service.py:536-538 | hearing a station sets its time of last audio, whether or not it has the floor, and touches nothing else |
| ConferenceRoom.EchoLinkConferenceManager.AddStation | app/echolink_ob/echolink/conference.py:28-35 | full roster, then duplicate, then insertion |
| ConferenceRoom.EchoLinkConferenceManager.RemoveStation | app/echolink_ob/echolink/conference.py:37-43 | ends the speaker first, then forgets the station |
| ConferenceRoom.EchoLinkConferenceManager.BeginSpeaker | app/echolink_ob/echolink/conference.py:45-55 | selects a speaker only if there is none |
| ConferenceRoom.EchoLinkConferenceManager.EndSpeakerNow | app/echolink_ob/echolink/conference.py:57-62 | clears the flag and the floor of the speaker only |
| ConferenceRoom.EchoLinkConferenceManager.RouteSpeakerAudio | app/echolink_ob/echolink/conference.py:64-77 | delivery to all recipients when granted, to none otherwise |
| ConferenceRoom.EchoLinkConferenceManager.CollectRecipients | app/echolink_ob/echolink/conference.py:75-103 | the recipient list in roster order, for a speaker or for DMR |
| ConferenceRoom.EchoLinkConferenceManager.ReleaseInactiveSpeaker | app/echolink_ob/echolink/conference.py:79-99 | the room afterwards and the result are those of the idle release |
| Session.SessionAgrees | app/echolink_ob/echolink/service.py:226-301 | after any run of connects, audio, control traffic, disconnects and expiries in which no handler crashed: both indexes, the roster, the speaker, the speaking flags, the counters and the key request agree, and the roster is within its bound |
| Session.StepKeeps | app/echolink_ob/echolink/service.py:226-301 | every handler that returns keeps all of that, and a handler fails to return exactly when an allowed newcomer meets a full roster |
| Session.RunKeeps | app/echolink_ob/echolink/service.py:823-862 | and so does every run |
| Session.ConnectKeeps | app/echolink_ob/echolink/service.py:226-283 | connecting raises exactly for an allowed new callsign on a full roster; otherwise the peer is live and filed under its callsign |
| Session.DisconnectKeeps | app/echolink_ob/echolink/service.py:285-301 | disconnecting removes exactly one peer from everything at once |
| Session.TouchKeeps | app/echolink_ob/echolink/service.py:329-333 | touching sets the time of the last packet of the peer found, and changes nothing else |
| Session.KnownKeeps | app/echolink_ob/echolink/service.py:262-283 | a connected peer becomes reachable at, and filed under, the address it was heard from, and its time of last packet is now |
| Session.SpeakerFrameKeeps | app/echolink_ob/echolink/audio_router.py:45-63 | a frame reaches the gateway exactly if its station has the floor afterwards |
| Session.PeerAudioKeeps | app/echolink_ob/echolink/service.py:523-542 | a decoded packet never finds its station missing, so begin_speaker never raises KeyError |
| Session.ExpiresExactly | app/echolink_ob/echolink/service.py:755-766 | of the peers looked at, exactly those silent for the timeout are disconnected |
| Session.LoopEndKeeps | app/echolink_ob/echolink/service.py:854-858 | idle release and expiry keep the session consistent |
| Session.ControlKeeps | app/echolink_ob/echolink/service.py:445-492 | a control datagram leaves the session consistent unless it overflows the roster |
| Session.AudioKeeps | app/echolink_ob/echolink/service.py:494-542 | an audio datagram leaves the session consistent unless it overflows the roster |
| Session.DisconnectByAddrKeeps | app/echolink_ob/echolink/service.py:303-327 | a goodbye from any address leaves the session consistent |
| SessionEffects.DisconnectLeaves | app/echolink_ob/echolink/service.py:285-301 | the peer disconnected is gone from both indexes, the live peers, the roster and its order; every other peer stays; one more has disconnected; the floor and the key request go exactly if it was speaking |
| SessionEffects.GoodbyeLeaves | app/echolink_ob/echolink/service.py:303-327 | a goodbye removes exactly the peer its address belongs to, and with no such peer changes nothing |
| SessionEffects.ControlEffects | app/echolink_ob/echolink/service.py:445-492 | for every kind of control datagram, without naming the handler: a goodbye removes its sender; a text identity or an SDES leaves its callsign filed under a live peer whose control address is the sender's and whose audio address is as before; anything else only sets the time of last packet |
| SessionEffects.AudioEffects | app/echolink_ob/echolink/service.py:494-542 | the same for the audio port, where a packet introduces its sender if nobody is known there and then routes its frames |
| SessionEffects.PeerIsHeard | app/echolink_ob/echolink/service.py:523-542 | decoded audio sets its station's time of last audio to now, with or without the floor, and no other station's; all of its frames reach the gateway if the station has the floor or it is free, otherwise none |
| SessionEffects.ExpireEffects | app/echolink_ob/echolink/service.py:755-766 | once a second at most, exactly the peers silent for the timeout leave, each counted as timed out |
| SessionEffects.StationLeaves | app/echolink_ob/echolink/service.py:336-360 | a dashboard request removes exactly the peer filed under that callsign, and is not counted as a timeout |
| SessionEffects.ReleaseEffects | app/echolink_ob/echolink/service.py:854-856 | the speaker loses the floor, and the key request with it, exactly if it has not been heard for the timeout |
| SessionEffects.RunHears | app/echolink_ob/echolink/conference.py:64-77 | in every run a station's time of last audio is that of the latest event that brought decoded audio from it since it joined |
| SessionEffects.ReleasedIff | app/echolink_ob/echolink/conference.py:79-99 | over every run: at a loop end the speaker keeps floor and key request exactly if its latest decoded audio is less than the timeout old |
| ConferenceService.EchoLinkPeer.SendPcm | app/echolink_ob/echolink/service.py:544-569 | what was packetised followed by what is pending is exactly what the station was to hear; packets are four whole frames and numbered modulo 2^16 |
| ConferenceService.EchoLinkPeer.SendBlock | app/echolink_ob/echolink/service.py:554-569 | one packet of the oldest four frames |
| Session.FindPeerIs | app/echolink_ob/echolink/service.py:303-319 | a datagram belongs to the first peer in the order of connection known by exactly its address if there is one, else to the one known by its IP, else to the lone station, else to nobody |
| ConferenceService.EchoLinkUdpConferenceService.FindPeer | app/echolink_ob/echolink/service.py:303-319 | the loop over the dictionary finds the first exact match in its order before falling back |
| ConferenceService.EchoLinkUdpConferenceService.TouchPeer | app/echolink_ob/echolink/service.py:329-333 | only the peer found, if any, gets a new time of last packet |
| ConferenceService.EchoLinkUdpConferenceService.DisconnectPeer | app/echolink_ob/echolink/service.py:285-301 | the session afterwards has the peer gone from roster, both indexes and counters, and the key request withdrawn exactly if it was speaking |
| ConferenceService.EchoLinkUdpConferenceService.Admit | app/echolink_ob/echolink/service.py:237-261 | lookup, access check, insertion; on a full roster the peer is left filed without a station |
| ConferenceService.EchoLinkUdpConferenceService.AddPeer | app/echolink_ob/echolink/service.py:244-259 | the peer is filed before the roster is asked |
| ConferenceService.EchoLinkUdpConferenceService.RecordAddresses | app/echolink_ob/echolink/service.py:262-282 | the peer's addresses, its IP index entries and its time of last packet, and nothing else |
| ConferenceService.EchoLinkUdpConferenceService.ConnectOrUpdatePeer | app/echolink_ob/echolink/service.py:226-283 | a live peer in the specified session, a refusal that changed nothing, or the exception of a full roster |
| ConferenceService.EchoLinkUdpConferenceService.Repeat | app/echolink_ob/echolink/audio_router.py:51-54 | each listed station with an audio address hears the frame; nobody else does |
| ConferenceService.EchoLinkUdpConferenceService.Route | app/echolink_ob/echolink/audio_router.py:45-54 | every listener hears the frame if its speaker has, or gets, the floor; otherwise nobody does |
| ConferenceService.EchoLinkUdpConferenceService.Deliver | app/echolink_ob/echolink/audio_router.py:48-61 | granted frames are handed to the transmitter and make their station the current source; others are counted as blocked |
| ConferenceService.EchoLinkUdpConferenceService.SpeakerPcm | app/echolink_ob/echolink/audio_router.py:45-63 | listeners, floor, transmitter, every counter and the current source after one frame, in every case |
| ConferenceService.EchoLinkUdpConferenceService.DmrPcm | app/echolink_ob/echolink/audio_router.py:65-76 | a decoded DMR frame goes to every unmuted station, whoever has the floor; counters and current source |
| ConferenceService.EchoLinkUdpConferenceService.SpeakerFramesPcm | app/echolink_ob/echolink/service.py:541-542 | a packet's frames one after another |
| ConferenceService.EchoLinkUdpConferenceService.PeerAudio | app/echolink_ob/echolink/service.py:536-542 | decoded audio marks its station as heard and is routed |
| ConferenceService.EchoLinkUdpConferenceService.AudioFrom | app/echolink_ob/echolink/service.py:514-542 | an unknown sender of audio is connected first |
| ConferenceService.EchoLinkUdpConferenceService.HandleIdentity | app/echolink_ob/echolink/service.py:398-443 | a text identity connects or updates its sender |
| ConferenceService.EchoLinkUdpConferenceService.HandleControl | app/echolink_ob/echolink/service.py:445-492 | for every kind of datagram the new session is the specified one, every station's audio stream is intact, and the transmitter agrees with the speaker; or the roster was full |
| ConferenceService.EchoLinkUdpConferenceService.HandleAudio | app/echolink_ob/echolink/service.py:494-542 | the same for every kind of datagram on the audio port |
| ConferenceService.EchoLinkUdpConferenceService.DisconnectStation | app/echolink_ob/echolink/service.py:336-360 | a dashboard request disconnects exactly the station named and reports whether there was one |
| ConferenceService.EchoLinkUdpConferenceService.DisconnectPeerByAddr | app/echolink_ob/echolink/service.py:321-327 | a goodbye disconnects exactly the peer its address belongs to |
| ConferenceService.EchoLinkUdpConferenceService.ReleaseSpeaker | app/echolink_ob/echolink/service.py:854-856 | an idle speaker loses the floor and the key request together |
| ConferenceService.EchoLinkUdpConferenceService.ExpireStale | app/echolink_ob/echolink/service.py:755-766 | at most once a second, over a snapshot of the peers |
| ConferenceService.EchoLinkUdpConferenceService.ExpirePeer | app/echolink_ob/echolink/service.py:764-766 | a peer silent for the timeout is counted and disconnected; any other is untouched |
| ConferenceService.EchoLinkUdpConferenceService.PacerActs | app/echolink_ob/echolink/service.py:638-667 | whatever the pacer does between handlers, the service stays consistent and its session as it was: what holds after handlers holds in every state of the two together |
| ConferenceService.EchoLinkUdpConferenceService.IdleMeansUnkeyed | app/echolink_ob/echolink/service.py:854-856 | while nobody has the floor, the radio is unkeyed or an unkey is the last thing it will be told, and no voice is left in line |
| ConferenceService.EchoLinkUdpConferenceService.IdleDrains | app/echolink_ob/echolink/service.py:638-667 | and left alone the pacer has it unkeyed within a bounded number of steps |
| Ambe.BytesToBitsLoop | app/echolink_ob/dmr/ambe.py:52-57 | the shifting loop computes the bits, most significant first |
| Ambe.BitsToBytesLoop | app/echolink_ob/dmr/ambe.py:60-70 | whole bytes only; the accumulating loop computes their values |
| Ambe.BytesSurvive | app/echolink_ob/dmr/ambe.py:52-70 | bytes to bits and back, at every length |
| Ambe.BitsSurvive | app/echolink_ob/dmr/ambe.py:52-70 | bits to bytes and back, at every length of whole bytes |
| Ambe.ExtractFrames | app/echolink_ob/dmr/ambe.py:89-105 | three nine-byte frames that joined are the burst's voice bits; any other payload length is refused |
| Ambe.BuildPayload | app/echolink_ob/dmr/ambe.py:108-136 | accepts exactly three nine-byte frames and a six-byte centre |
| Ambe.BuiltBurstYieldsInputs | app/echolink_ob/dmr/ambe.py:108-146 | extracting frames and centre from a built burst returns the inputs |
| Ambe.RebuiltBurstIsSame | app/echolink_ob/dmr/ambe.py:73-146 | every burst is the one built from its own frames and centre |
| Ambe.BurstLayout | app/echolink_ob/dmr/ambe.py:108-136 | which bit goes where: bits 0 to 107 of a burst are the first of the block, 108 to 155 the centre, 156 to 263 the rest of the block |
| Ambe.ExtractLayout | app/echolink_ob/dmr/ambe.py:73-105 | and from where each bit of block and centre is taken |
| Ambe.BitIs | app/echolink_ob/dmr/ambe.py:52-57 | bit i of the bits of some bytes is bit i modulo 8, counted from the top, of byte i / 8 |
| AmbeStreams.ExtractFromPackets | app/echolink_ob/dmr/ambe.py:149-171 | the loop with its per-stream counters yields three numbered frames per voice packet |
| AmbeStreams.StreamsNumbered | app/echolink_ob/dmr/ambe.py:149-171 | however streams interleave, each one's frames are numbered 0, 1, 2, ... and carry exactly its audio in order |
| AmbeStreams.FramesComeFrom | app/echolink_ob/dmr/ambe.py:149-171 | every frame of a capture is one of the three of the voice packet it names, with that packet's signalling, in the order of packets and of frames in them |
| Dmrd.PackedFields | app/echolink_ob/openbridge/dmrd.py:60-91 | what unpacking a packed flag byte gives, field by field |
| Dmrd.PackedByte | app/echolink_ob/openbridge/dmrd.py:60-91 | where each field is in the flag byte, both ways |
| Dmrd.RawLayout | app/echolink_ob/openbridge/dmrd.py:119-154 | where each field is in the 53 bytes, numbers big-endian |
| Dmrd.RepackedByte | app/echolink_ob/openbridge/dmrd.py:60-91 | packing an unpacked byte changes it only if it is VCSBK, and then only its low nibble, to 3 |
| Dmrd.RoundTripIff | app/echolink_ob/openbridge/dmrd.py:119-154 | a packet survives being written and read exactly if unit; group unless frame type is 2 or 3 with dtype 3 modulo 4; VCSBK with frame type 2 or 3 and dtype 3 |
| Dmrd.RoundTrip | app/echolink_ob/openbridge/dmrd.py:119-154 | and otherwise reads back as exactly this packet |
| Dmrd.GroupBecomesVcsbk | app/echolink_ob/openbridge/dmrd.py:60-91 | a concrete group packet of frame type 2 and dtype 3 comes back as VCSBK |
| Dmrd.RawRoundTrip | app/echolink_ob/openbridge/dmrd.py:119-154 | on raw bytes reading and writing changes at most that nibble, and twice is once |
| Dmrd.ParseRaw53 | app/echolink_ob/openbridge/dmrd.py:136-154 | refuses any other length or magic, accepts everything else |
| Dmrd.ParseSigned | app/echolink_ob/openbridge/dmrd.py:43-57 | accepts exactly packets of the right length and magic whose digest matches |
| Dmrd.SignedRoundTrip | app/echolink_ob/openbridge/dmrd.py:133-160 | a signed packet verifies under its key and reads back exactly when the unsigned one does |
| Analyzer.ReadDmrdFile | app/echolink_ob/openbridge/analyzer.py:29-36 | accepts exactly files of whole records with the magic, and reads them in order |
| Analyzer.CaptureRoundTrip | app/echolink_ob/openbridge/analyzer.py:29-36 | a file written from any number of packets reads back as those packets, each exactly if it survives on its own |
| Analyzer.RewrittenCapture | app/echolink_ob/openbridge/analyzer.py:29-36 | reading and rewriting a file changes at most the low nibbles of VCSBK flag bytes |
| Analyzer.SequenceGaps | app/echolink_ob/openbridge/analyzer.py:106-118 | reports every break in the numbering, and none exactly when packets are consecutive modulo 256 |
| Analyzer.NoGaps | app/echolink_ob/openbridge/analyzer.py:106-118 | no gaps exactly when consecutive, across any number of wraps |
| Analyzer.GapsAre | app/echolink_ob/openbridge/analyzer.py:106-118 | the gaps reported are the breaks in the numbering, all of them and in order, each with the two numbers and the one that was due |
| Analyzer.KindsByFlags | app/echolink_ob/openbridge/analyzer.py:98-103 | what a packet is by the flag byte it was read from: voice has bit 5 clear, a stream end has its low six bits 0x22 |
| StreamBuilder.SplitIs | app/echolink_ob/bridge/runtime.py:64-74 | a template splits exactly when it has voice: all that precedes the first voice packet, the voice, and the first stream end after the last voice packet or failing that the packet right after it |
| StreamBuilder.FirstSelected | app/echolink_ob/bridge/runtime.py:68 | looking the first voice packet up by equality finds its own position |
| StreamBuilder.OpenBridgeStreamBuilder.Rewrite | app/echolink_ob/bridge/runtime.py:105-119 | signalling from the template, identity from the stream, the next sequence number |
| StreamBuilder.OpenBridgeStreamBuilder.StartPackets | app/echolink_ob/bridge/runtime.py:121-125 | the rewritten header, once |
| StreamBuilder.OpenBridgeStreamBuilder.VoicePacket | app/echolink_ob/bridge/runtime.py:127-139 | refuses a wrong length and an ended stream; otherwise the block in the next template's burst |
| StreamBuilder.OpenBridgeStreamBuilder.EndPackets | app/echolink_ob/bridge/runtime.py:141-145 | the rewritten terminator, once |
| StreamBuilder.BuildFromBlocks | app/echolink_ob/analog/tone_openbridge.py:75-144 | succeeds exactly for a source, stream ID, talkgroup, network ID and slot that fit, some blocks all of 27 bytes, and a template with voice; yields the specified stream |
| StreamBuilder.BatchIs | app/echolink_ob/analog/tone_openbridge.py:75-100 | the inputs that fit, in numbers |
| StreamBuilder.LiveEqualsBatch | app/echolink_ob/analog/tone_openbridge.py:75-144 | feeding the live builder block by block gives the very packets of the batch function |
| StreamBuilder.BuildLive | app/echolink_ob/bridge/runtime.py:77-145 | header, one packet per block, terminator |
| StreamBuilder.StreamIsFaithful | app/echolink_ob/bridge/runtime.py:105-145 | however long: no sequence gaps; every packet is a group call from the source ID to the fixed talkgroup under the link's network ID and slot and the stream's ID; header and terminator keep signalling and payload of the template; voice exactly where the blocks are; each block comes back out, in its template's centre and with its signalling |
| StreamBuilder.AllAddressed | app/echolink_ob/bridge/runtime.py:105-119 | every packet rewritten has the addressing of link and stream, the next number, and signalling and payload of its template |
| StreamBuilder.StreamIsNumbered | app/echolink_ob/bridge/runtime.py:118 | consecutive modulo 256 from any start |
| Tlv.Parse | app/echolink_ob/analog/tlv.py:65-107 | tag, two length bytes and value are the datagram; the length is valid exactly if either byte order counts the value |
| Tlv.ExtractDmrAmbeBlocks | app/echolink_ob/analog/tlv.py:110-133 | whatever its header says, a datagram yields its last 27 bytes exactly if it is longer than that |
| Tlv.FramedIsRead | app/echolink_ob/bridge/runtime.py:176-179 | a block under any valid framing is read back as that block |
| Tlv.LearnTlvCodecFormat | app/echolink_ob/bridge/runtime.py:188-228 | last audio header and end datagram, first control datagram; nothing without audio |
| Tlv.InferredEndIs | app/echolink_ob/bridge/runtime.py:212-222 | without an end datagram, one is made up from the tag of audio whose length bytes count 27 in either order; otherwise it is the default |
| Tlv.LearnsExactly | app/echolink_ob/bridge/runtime.py:534-574 | after any traffic, each part of the framing by its position in the traffic: the header of the latest audio, the latest end datagram that came once the framing was known, the start datagram announced most recently, and whether the framing is known at all |
| Tlv.LearnedFormat | app/echolink_ob/bridge/runtime.py:534-574 | so start and end datagrams are ones really received or the initial ones |
| Tlv.StartIsLearned | app/echolink_ob/bridge/runtime.py:534-574 | from the default framing, a control datagram followed by audio becomes the start datagram |
| BridgePacing.Pacer.PaceInterval | app/echolink_ob/bridge/runtime.py:502-518 | no release before its deadline; the next deadline is exactly one interval after the release; k + 1 consecutive releases span at least k intervals |
| BridgePacing.ReleaseKeeps | app/echolink_ob/bridge/runtime.py:518 | the later of the two sums is always the release time plus the interval, which keeps the spacing |
| BridgePacing.Pacer.Reset | app/echolink_ob/bridge/runtime.py:520-524 | a reset makes the next release due at once |
| BridgeRuntime.AnalogOpenBridgeRuntime.SendOb | app/echolink_ob/bridge/runtime.py:526-532 | packets in order, one paced release per voice packet |
| BridgeRuntime.AnalogOpenBridgeRuntime.LearnFromDatagram | app/echolink_ob/bridge/runtime.py:534-574 | format and start candidate afterwards are exactly those of one learning step |
| BridgeRuntime.AnalogOpenBridgeRuntime.TakeBlock | app/echolink_ob/bridge/runtime.py:640-654 | an unstarted builder always holds fewer blocks than the prebuffer, so the header never goes out in the else branch; the threshold flushes header and all blocks held |
| BridgeRuntime.AnalogOpenBridgeRuntime.Flush | app/echolink_ob/bridge/runtime.py:645-649 | the header, then every block held, in order |
| BridgeRuntime.AnalogOpenBridgeRuntime.HearDatagram | app/echolink_ob/bridge/runtime.py:612-654 | audio joins the current stream or opens one, and the time of last audio is noted exactly when there was audio |
| BridgeRuntime.AnalogOpenBridgeRuntime.OnTimeout | app/echolink_ob/bridge/runtime.py:591-604 | the open stream ends exactly when it has been silent for the hang time, whether or not its header was ever sent |
| BridgeRuntime.AnalogOpenBridgeRuntime.OnDatagram | app/echolink_ob/bridge/runtime.py:605-639 | audio is dropped exactly during the startup mute |
| BridgeRuntime.AnalogOpenBridgeRuntime.Finish | app/echolink_ob/bridge/runtime.py:655-658 | the open stream is ended exactly if it had started; blocks still held back are never sent |
| BridgeRuntime.AnalogOpenBridgeRuntime.Listen | app/echolink_ob/bridge/runtime.py:588-654 | the streams are exactly those that the clock readings cut the receptions into, and the framing is what all the datagrams teach |
| BridgeRuntime.AnalogOpenBridgeRuntime.TlvToOpenBridge | app/echolink_ob/bridge/runtime.py:576-659 | over any datagrams and timeouts: given the clock readings, the streams are the groups that silence cuts the unmuted audio into, and each is ended exactly if silence finished it; stream n has the source ID asked for it; the wire is exactly what the streams call for; the streams without a header are exactly those cut short; voice packets of a stream are at least the packet time apart; the forwarded counter is the sum over streams that filled the prebuffer |
| BridgeSegments.StreamsAreWhatWasHeard | app/echolink_ob/bridge/runtime.py:588-654 | however silence cuts them, the streams together are exactly the audio past the startup mute, in order, and none is empty |
| BridgeSegments.StreamsAreGroups | app/echolink_ob/bridge/runtime.py:588-654 | the streams are the audio that was heard, a datagram starting a new one exactly if a silence came between it and the audio before it; the last is finished exactly if a silence has followed its latest audio |
| BridgeSegments.CutIff | app/echolink_ob/bridge/runtime.py:591-616 | two receptions of audio with none between them fall into different streams exactly if a timeout between them finds the hang time elapsed since the earlier of the two |
| BridgeSegments.MuteIsAtTheStart | app/echolink_ob/bridge/runtime.py:606-611 | with a clock that never runs backwards, everything muted comes before everything heard |
| BridgeRuntime.LogCarries | app/echolink_ob/bridge/runtime.py:640-659 | a stream sends each of its blocks once in order if it fills the prebuffer, and no voice otherwise; ended, it is the builder's whole stream or else the terminator alone |
| BridgeRuntime.HeadlessIff | app/echolink_ob/bridge/runtime.py:591-604 | what a stream puts on the wire is nothing, or header then voice then perhaps a terminator, exactly unless silence ended it before its prebuffer was full and the template has a terminator; then it is that terminator alone |
| BridgeRuntime.HeadlessStreams | app/echolink_ob/bridge/runtime.py:588-659 | over a whole run the streams without a header are exactly those finished before they filled their prebuffer |
| BridgeRuntime.HeadlessExample | app/echolink_ob/bridge/runtime.py:591-604 | one audio datagram and one silence with three blocks to prebuffer: only a terminator is sent |
| BridgeRuntime.WireCarries | app/echolink_ob/bridge/runtime.py:576-659 | the voice on the wire is exactly the blocks of the streams that filled their prebuffer, as many as the counter says |
| BridgeRuntime.LogIsAddressed | app/echolink_ob/bridge/runtime.py:105-119 | every packet of a stream carries the addressing of link and stream and is numbered from 0 modulo 256 |
| BridgeRuntime.WireIsAddressed | app/echolink_ob/bridge/runtime.py:576-659 | every packet on the wire carries the addressing of the link and of one of the streams |
| OpenBridgeToTlv.OpenBridgeRelay.HandleVoice | app/echolink_ob/bridge/runtime.py:669-704 | start datagram for a new stream, paced audio datagram, counters |
| OpenBridgeToTlv.OpenBridgeRelay.Loop | app/echolink_ob/bridge/runtime.py:661-710 | over any packets received, the datagrams and the active stream are the specified ones |
| OpenBridgeToTlv.RelayCarries | app/echolink_ob/bridge/runtime.py:263-266 | whatever framing is in force from moment to moment, the audio sent reads back as the voice received |
| OpenBridgeToTlv.RelaysExactly | app/echolink_ob/bridge/runtime.py:661-710 | what is sent, arrival by arrival: the start datagram and the audio for voice that opens a stream, the audio alone for voice that goes on with the latest one, the end datagram for the end of the stream in progress, and nothing for anything else |
| OpenBridgeToTlv.BogusBlocks | app/echolink_ob/analog/tlv.py:130-132 | read back blindly, the datagrams yield the audio sent and one bogus block per overlong control datagram |
| OpenBridgeToTlv.AudioSurvives | app/echolink_ob/bridge/runtime.py:127-139 | OpenBridge voice relayed as TLV and rebuilt into an OpenBridge stream is the same voice, block for block with its template's centre, exactly when no start or end datagram is longer than 27 bytes |
| OpenBridgeToTlv.OverlongStartExample | app/echolink_ob/analog/tlv.py:110-133 | a learned start datagram of 28 bytes ahead of one voice packet comes back as a second block |
| Rtcp.RtcpPacket | app/echolink_ob/echolink/rtp.py:103-107 | well formed with the given count, type and padded body, exactly if the length word fits |
| Rtcp.BuildRtcpBye | app/echolink_ob/echolink/rtp.py:128-129 | a well-formed eight-byte BYE (section 6.6 of RFC 3550) |
| Rtcp.IterRtcpPacketTypes | app/echolink_ob/echolink/rtp.py:132-163 | the loop computes the walk and ends on arbitrary bytes |
| Rtcp.IsRtcpBye | app/echolink_ob/echolink/rtp.py:166-169 | a BYE among the types of a datagram of at least four bytes |
| Rtcp.CompoundWalk | app/echolink_ob/echolink/rtp.py:132-163 | a compound of well-formed packets with any trailing zeros is walked to exactly their types in order |
| Rtcp.ByeInCompound | app/echolink_ob/echolink/rtp.py:166-169 | so a BYE is found exactly if some packet is one |
| Rtcp.WalkOfAnything | app/echolink_ob/echolink/rtp.py:144-163 | arbitrary bytes are well-formed packets and a rest at which the walk stops; only an overlong packet's type is added |
| Sdes.ParseRtcpSdes | app/echolink_ob/echolink/rtp.py:208-240 | refuses anything but a version 2 SDES of eight bytes; otherwise chunk by chunk, item by item |
| Sdes.ChunksParsed | app/echolink_ob/echolink/rtp.py:214-236 | chunks of items, each NUL-terminated and padded, are parsed to the last value stored of each kind |
| Sdes.SdesParsed | app/echolink_ob/echolink/rtp.py:208-240 | for every version 2 SDES of at least eight bytes, with any header count and chunks and anything after them: the parser returns exactly if the text that is to name the station is empty or not all blank, and then yields the last CNAME, NAME and PRIV (section 6.5 of RFC 3550); shorter ones, which have no chunk, are refused |
| Sdes.BlankNameRaises | app/echolink_ob/echolink/rtp.py:237-239 | a well-formed packet whose NAME is one blank makes the parser raise |
| Sdes.StoredIsLast | app/echolink_ob/echolink/rtp.py:231-236 | storing one item after another keeps the last value of each kind |
| Sdes.BuildRtcpSdes | app/echolink_ob/echolink/rtp.py:110-125 | a well-formed SDES packet of one chunk with this source and these items |
| Sdes.SdesRoundTrip | app/echolink_ob/echolink/rtp.py:110-125 | for a non-blank callsign without white space, parsing what was built returns the upper-case callsign as CNAME, callsign and name stripped as NAME, the private text if any, and as callsign the upper-case callsign, each cut to 255 bytes; so all of the callsign exactly if it is no longer |
| Sdes.LongCallsignIsCut | app/echolink_ob/echolink/rtp.py:116-119 | of a callsign of 256 bytes 255 come back |
| Commands.ControlFile.Append | app/echolink_ob/dashboard/control.py:27-38 | one line at the end, creating the file if need be |
| Commands.ControlFile.ReadCommands | app/echolink_ob/dashboard/control.py:41-61 | the commands among the lines, in order |
| Commands.ControlFile.RemoveCommands | app/echolink_ob/dashboard/control.py:79-114 | non-blank lines not identified as processed are kept in order; nothing changes if the rewrite fails |
| Commands.KeptLines | app/echolink_ob/dashboard/control.py:79-114 | removal takes exactly the processed commands; other commands and unreadable lines stay in order |
| Commands.VisitedIds | app/echolink_ob/full_runtime.py:291-314 | a poll marks exactly the identified commands in the file as processed |
| Commands.FullRuntime.HandleCommand | app/echolink_ob/full_runtime.py:261-289 | a reload sets the exit code and stops the process |
| Commands.FullRuntime.PollDashboardCommands | app/echolink_ob/full_runtime.py:291-321 | skips what was met before, ignores stale reloads, carries out the rest, and acknowledges exactly the newly met |
| CommandRestarts.ReloadIsOneShot | app/echolink_ob/full_runtime.py:297-310 | over any history of appends, polls, failed acknowledgements and restarts: each reload is carried out at most once in total, no command twice by one process, and restarts for reloads never exceed the reloads queued |
| CommandRestarts.StillQueuedIff | app/echolink_ob/full_runtime.py:316-321 | in every run, a command once carried out is still queued exactly if its last acknowledgement failed |
| CommandRestarts.PollRepeats | app/echolink_ob/full_runtime.py:291-321 | of all commands carried out before, a poll carries out again exactly those that are no reload, that its process has not met, and whose last acknowledgement failed |
| CommandRestarts.PollCarriesOut | app/echolink_ob/full_runtime.py:291-314 | in every run, a poll carries out exactly those queued commands its process has not met that are no stale reload, and stops the process with status 75 exactly if one of them is a fresh reload |
| CommandRestarts.PollsInOrder | app/echolink_ob/full_runtime.py:291-314 | and in the order in which they are queued |
| CommandRestarts.GarbageStays | app/echolink_ob/dashboard/control.py:79-114 | over any history the unreadable lines written stay in the file for good, in order, and the clock that stamps commands is the latest reading |
| CommandRestarts.RestartRepeats | app/echolink_ob/full_runtime.py:291-321 | in every run, the first poll of a process carries out again exactly the commands, other than reloads, that are still queued |
| CommandRestarts.NoRepeatsIff | app/echolink_ob/full_runtime.py:291-321 | a run carries no command out twice exactly if no poll in it finds one, other than a reload, that an earlier process carried out and whose last acknowledgement failed |
| CommandRestarts.AcknowledgedOnce | app/echolink_ob/full_runtime.py:316-321 | so if no acknowledgement failed, no command of any kind is carried out twice, whatever the restarts |
| CommandRestarts.ForgottenRunsTwice | app/echolink_ob/full_runtime.py:316-321 | a concrete run: after a failed acknowledgement and a restart a command that is not a reload is carried out again |
| CommandRestarts.StepKeeps | app/echolink_ob/full_runtime.py:291-321 | every event keeps the one-shot invariant |
| CommandRestarts.FileStepKeeps | app/echolink_ob/full_runtime.py:291-321 | every event keeps: a command is in the file until an acknowledgement of it succeeds |
| CommandRestarts.VisitKeeps | app/echolink_ob/full_runtime.py:293-314 | every command met keeps it |
| Ports.ChooseAuto | app/echolink_ob/analog/ports.py:211-219 | the first free port of the range |
| Ports.BuildPortPlan | app/echolink_ob/analog/ports.py:191-242 | the loop over the configured ports and the reuse of a matching state file give the specified outcome |
| Ports.PlansAreSafe | app/echolink_ob/analog/ports.py:169-242 | every plan, fresh or reused, has four distinct ports within the range, none reserved or taken by another component, all bindable unless in-use ports are allowed |
| Ports.ReuseIff | app/echolink_ob/analog/ports.py:199-206 | a state file of this host, range and file is planned from exactly if its four ports are distinct and eligible, and then its own plan is returned with a fresh check of each port |
| Ports.NoReuse | app/echolink_ob/analog/ports.py:199-206 | any other state file, and any when no port is automatic, changes nothing |
| Ports.EligibleIff | app/echolink_ob/analog/ports.py:169-189 | which ports are eligible, spelled out |
| Ports.AutoPlan | app/echolink_ob/analog/ports.py:211-242 | with every port automatic and no reuse, planning succeeds exactly if four ports are eligible and takes the four smallest in order |
| Ports.ReplanIsStable | app/echolink_ob/analog/ports.py:199-206 | planning again from the plan just written returns the same plan and checks |
| Ports.PlannedIff | app/echolink_ob/analog/ports.py:191-242 | for every mix of automatic and configured ports without reuse: planning succeeds exactly if the range is sound, four ports are eligible, and every configured port is eligible, configured once, and not what an earlier automatic slot gets; each slot's port is then given in closed form |
| Ports.AutosTakeFirst | app/echolink_ob/analog/ports.py:211-225 | with k automatic slots before it, an automatic slot gets eligible port number k not configured before it |
| Ports.AutoTakesConfigured | app/echolink_ob/analog/ports.py:221-228 | a configured port that any earlier automatic slot gets always defeats planning |
| Ports.TakenExample | app/echolink_ob/analog/ports.py:221-228 | with ports 1 to 8 free, planning auto, auto, 2, auto fails |
| Ports.EligibleFrom | app/echolink_ob/analog/ports.py:212-216 | exactly the eligible ports, ascending |
| LastHeard.LastHeardStore.Read | app/echolink_ob/dashboard/lastheard.py:93-118 | rows of one callsign merged, blank ones dropped, latest first |
| LastHeard.LastHeardStore.Write | app/echolink_ob/dashboard/lastheard.py:142-156 | merged, sorted, and never more than max_records |
| LastHeard.LastHeardStore.Record | app/echolink_ob/dashboard/lastheard.py:158-196 | one event read, applied and written back |
| LastHeard.RecordedFinds | app/echolink_ob/dashboard/lastheard.py:158-196 | while there is room an event changes its own callsign's row and no other |
| LastHeard.StoreAgrees | app/echolink_ob/dashboard/lastheard.py:93-196 | with room for every callsign ever recorded: one row each, whose counts, first and last times, last event, DMR ID, name and source are those of its full event history |
| LastHeard.MergeIsAssociative | app/echolink_ob/dashboard/lastheard.py:120-140 | duplicate rows of a callsign merge to the same row however they are grouped |
| LastHeard.MergeJoinsHistories | app/echolink_ob/dashboard/lastheard.py:120-140 | rows that agree with an earlier and a later history merge to the row that agrees with both together |
| LastHeard.ReadJoinsHistories | app/echolink_ob/dashboard/lastheard.py:93-118 | reading a file with several rows of a callsign, each the outcome of a history of its own, yields one row per callsign: the outcome of those histories one after the other; rows without a callsign are dropped |
| LastHeard.MergeCommutes | app/echolink_ob/dashboard/lastheard.py:120-140 | except for the names, and for the last event of rows last seen together, it does not matter which row comes first, and the last event is that of the row seen later |
| LastHeard.TransmissionsAre | app/echolink_ob/dashboard/lastheard.py:158-196 | heard, tx and transmit events, and no others, count as transmissions |
| LastHeard.SortDescends | app/echolink_ob/dashboard/lastheard.py:114-118 | a permutation of the rows given, latest connection first |
| LastHeard.SortIsStable | app/echolink_ob/dashboard/lastheard.py:114-118 | rows with equal keys keep their order |
| LastHeard.WriteKeepsLatest | app/echolink_ob/dashboard/lastheard.py:142-156 | of more rows than fit, those kept are the first of the sorted ones, so none cut off is later than one kept |

## Left out

- Sockets, `select`, send failures, signals, subprocesses, the directory client, configuration
  loading, logging, HTML and command-line parsing: external I/O.
- libgsm, sine generation and level meters: foreign calls and floating point. A GSM packet is
  the PCM it encodes, in 320-byte frames.
- UsrpSafety.ExitsUnkeyed: assumes that the join in `close()` does not time out; what happens
  when it does is `ExitsKeyedIff`. Starting the service again after `close()` is not modelled.
- UsrpService.UsrpTransmitter.TxLoop: runs a given number of iterations, since a method must
  end; the number is arbitrary.
- UsrpService.UsrpTransmitter.SendPcm: the counter of dropped frames is not modelled; which
  frames were dropped is.
- ConferenceService.EchoLinkUdpConferenceService.ConnectOrUpdatePeer: when the roster is full
  the peer stays filed without a station; the exception ends the service, so no invariant is
  stated for that outcome. Names, locations and reply packets are not modelled.
- ConferenceService.EchoLinkUdpConferenceService.HandleAudio: one clock reading serves the
  whole handler, where the program reads the clock at each use.
- ConferenceService.EchoLinkUdpConferenceService.DmrPcm: the USRP packet parser in front of it
  and the idle flag of DMR audio are not modelled; they touch no session state.
- ConferenceService.EchoLinkUdpConferenceService.SpeakerPcm: when the router last had audio is
  not modelled.
- ConferenceService.EchoLinkPeer.SendBlock: RTP timestamp and marker, which the packet form does
  not carry, are not modelled, nor is the block lost when sending it fails.
- A peer's addresses and time of last packet are kept in a map keyed by the peer object rather
  than in the object; `pending_pcm` and the RTP sequence are fields of the object.
- StreamBuilder.OpenBridgeStreamBuilder.Rewrite: a talkgroup, network ID or slot that does not
  fit the packet makes the constructor raise in the program; here the configuration is assumed
  to fit.
- BridgeRuntime.AnalogOpenBridgeRuntime.TlvToOpenBridge: the source ID asked for at each stream
  is assumed to fit three bytes; the constructor raises on any other. Lengths and times in the
  configuration are whole milliseconds, and the prebuffer is the nearest whole number of packets.
- Calibration by a local tone, voice cycle summaries, signed capture files and JSON captures.
- Sdes.ParseRtcpSdes: values are bytes; replacement of invalid UTF-8 is not modelled.
- Sdes.SdesRoundTrip: callsign, name and private text are ASCII.
- The RTP fixed header, text identities and the heuristics that recognise a goodbye.
- Commands.ControlFile.ReadCommands: a line is classified by what the JSON parser makes of it;
  the parser is not part of this model.
- CommandRestarts.ReloadIsOneShot: appends and rewrites of the queue file do not interleave.
- Commands.FullRuntime.HandleCommand: what commands other than a reload do (disconnecting and
  blocking stations, reloading access rules) is not modelled.
- Ports.BuildPortPlan: a malformed state file or port value is not modelled.
- Ports.ReplanIsStable: the state file is taken to hold the plan; its JSON form is not modelled.
- LastHeard.StoreAgrees: with more callsigns than `max_records` rows are cut off and their
  counts lost, so the agreement is stated while there is room.
- LastHeard.LastHeardStore.Read: rows of the older append-only format and unreadable files are
  not modelled.
