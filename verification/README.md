# Phonowire verification model

A Dafny model of Phonowire's AudioSocket receiver, with proofs of what its parts promise. Verify everything with
`dafny verify dfyconfig.toml`.

The model follows a byte from the peer to the file:

- **Wire, Envelope, Encoder, Framing, Codec**: the three-byte-header framer over caller scratch, strict typed
  conversion, and the encoder, against a parse of the whole stream.
- **Session**: the incoming policy: one UUID, then admitted media and digits, then one end.
- **Records, Meaning, Connection, Receiving**: one connection's task. `Meaning` is the reference reading of a byte
  stream; `Connection` is the task as a step machine whose steps are its suspension points; `Receiving` is the task as
  it runs, with decoder, session and counters changed in place, proved equal to the step machine.
- **Delivery, Traces, Identities, Endings, Causes, EndOnce, Completion**: what every schedule of a connection delivers,
  why that keeps the session policy, whom each record names and what each end says, when a connection ends only once,
  and that it can always come to its end.
- **Orders, ReadySet, Contention, Fairness, TurnOrder**: the linked FIFOs, the scheduler's locked blocks, and one worker
  interleaved with any number of releasing threads: no lost wakeup, no overtaking, turns in order.
- **Handoff, Memory**: the bounded record channel and the byte account, with every interleaving of their blocks.
- **Sharing**: the contended resources are that channel and that account.
- **Controls, Driver, Turns, WorkerLoop, Reports**: close tickets, and the worker. `Turns` is its loop on values, with a
  history of admissions, retirements, attempts and pauses; `WorkerLoop` is the worker as an object whose loops change it
  in place, each proved equal to its part of `Turns`.
- **TurnLaws, ListenerLaws, RunLaws** say what each part of that loop keeps and what the counters add up to; **EntryLaws,
  ServiceLaws, RetireOrder, TurnService, RunService** say what it does for its peers and tasks: who is let in, who is
  polled and when, which calls are honoured, and what each turn and each run delivers.
- **RecorderRules, Recording, Pipeline**: the recorder's rules, the recorder over adversarial, limited writers, and the
  proof that everything a connection can send is acceptable to it.
- **Fleet, FleetProgress**: all connections of a receiver over their one channel, up to the consumer, and that none is
  ever stuck behind the others.
- **Capture, CaptureLoop, CaptureOutcome, Captured**: the capture application's admission, drain, finalization and output
  bound; its loop over recorder objects and limited files; when a run fails or stops, and that it can succeed; and what
  a successful run leaves on disk. **EndToEnd** joins all of it: every call within the limits can be recorded whole.
  **Maps** holds two facts about sizes of maps.

Integers are unbounded in Dafny; 64-bit counters and 32-bit WAVE sizes are checked against `U64_MAX` and `U32_MAX`
where the code checks them. Time, peers, sockets, writers and other threads are nondeterministic: they appear as events,
steps or answers over which the theorems quantify.

One property is false without a precondition. After a refused audio copy `observe` reports success while the identity is
still set, so the decode loop goes on and a second end can follow. `EndOnce.EndsOnceIff` gives the exact condition, and
`EndOnce.BoundEndsOnce` shows that the check made when a receiver is bound implies it.

## Model

| member | source | states |
|---|---|---|
| Delivery.DeliveredIsPrefix | crates/phonowire-receiver/src/connection.rs:24-173 | Over every schedule of reads, polls, waits, refusals and cancellation: raw records concatenate to a prefix of the bytes read, and protocol records (with their frame-end offsets) are a prefix of the one reading of those bytes, whatever arrives later; each comes after raw bytes that cover its offset; an end from outside comes after all the content, at its length |
| Delivery.CompleteDelivery | crates/phonowire-receiver/src/connection.rs:24-173 | A task whose end was accepted told exactly what the peer's whole stream means: parse, type, session policy, and the end |
| Delivery.ScheduleIndependence | crates/phonowire-receiver/src/connection.rs:24-173 | Two schedules of the same peer stream that both reach the peer's end tell the same protocol records |
| Delivery.RunCovers | crates/phonowire-receiver/src/connection.rs:100-143 | In every reachable state the raw bytes handed off before a protocol record cover the offset it names |
| Delivery.RunEndsOutside | crates/phonowire-receiver/src/connection.rs:46-86 | An end that comes from the transport or the counters follows everything the bytes read mean, with the identity and offset that stand |
| Delivery.RunConnectedFirst | crates/phonowire-receiver/src/connection.rs:34-43 | The admission is told first and once |
| Delivery.RunInv | crates/phonowire-receiver/src/connection.rs:24-173 | Every reachable state: counters match histories, the pending and terminal flags are truthful, and sent + decided + undecoded together are the reading of the stream |
| Delivery.NextInv | crates/phonowire-receiver/src/connection.rs:24-173 | Each resumption at a suspension point keeps that invariant |
| Delivery.ReadGrows | crates/phonowire-receiver/src/connection.rs:109-173 | More bytes only extend what a stream means; records already implied never change |
| Identities.EveryRecordNames | crates/phonowire-receiver/src/connection.rs:24-173 | For every setup and schedule, bound or not: each record is of its connection and names the call that a start announced before it; an end names that call, or none if none was announced; a refused copy names the budget that it passes |
| Identities.StopsForGood | crates/phonowire-receiver/src/scheduler.rs:660-684 | A task that is cancelled anywhere, or whose record finds no consumer, tells nothing more and counts nothing more, whatever follows |
| Endings.RecordsNameFrames | crates/phonowire-receiver/src/connection.rs:109-173 | Each protocol record of a stream stands at the end of its own frame and carries what that frame says: a start its UUID, audio its rate and payload, a digit its byte, a peer error its payload, a rejection the frame and its cause; a decode error follows the good frames and names the header that it refuses |
| Endings.WholeNamesEnd | crates/phonowire-receiver/src/connection.rs:59-75 | The end of a stream that no record ended, without `finish`: clean exactly if the stream is the concatenation of its frames; otherwise the missing bytes are counted, fewer leave the frame open and exactly these complete it |
| Completion.NeverStuck | crates/phonowire-receiver/src/connection.rs:24-173 | From every reachable running task, and for everything its peer may still send, however cut, there is a schedule after which exactly what the whole stream means was told |
| Completion.FailureTold | crates/phonowire-receiver/src/connection.rs:76-86 | And one on which the socket fails instead: all content before the failure, then one end at its length |
| Causes.EndHasCause | crates/phonowire-receiver/src/connection.rs:46-106 | Over every schedule of a bound connection: a transport end had a failed read, a clean or truncated end an end of file, an exhausted offset a read that passes 64 bits, and no copy is refused |
| Causes.OverflowIff | crates/phonowire-receiver/src/scheduler.rs:570-605 | A task reports an exhausted counter exactly if a read would have passed the position or a record the count |
| Traces.ReadIsTell | crates/phonowire-receiver/src/connection.rs:109-173 | The reading of a stream is the session trace over the typed frames of its parse, each verdict at the end of its frame, up to the verdict, the untyped frame or the decode error that ends it |
| Traces.ChunksTellReading | crates/phonowire-audiosocket/src/decoder.rs:240-323 | Whatever the chunks, what the raw decoder returns for them tells the one reading of the whole stream |
| Traces.DeliveredIsLegal | crates/phonowire-audiosocket/src/session.rs:193-279 | Over every schedule the protocol records handed over keep the incoming policy: one start first, its own admitted media, one end last with the identity established |
| Traces.TellIsLegal | crates/phonowire-audiosocket/src/session.rs:193-279 | Every reading keeps that policy, and an open one names the identity of its start |
| Fleet.RunFaithful | crates/phonowire-receiver/src/scheduler.rs:635-693 | Many tasks over one channel, interleaved with the consumer and the worker's stop: the channel accepted of each connection exactly what its task handed over, and nothing else |
| Fleet.NextFaithful | crates/phonowire-receiver/src/scheduler.rs:664-688 | Each poll keeps it: an accepted record is counted once, a full channel leaves the task as it was, a missing consumer stops it |
| Fleet.ConsumerSeesPrefix | crates/phonowire-receiver/src/handoff.rs:48-95 | What the consumer has of a connection is raw bytes its peer sent and protocol records that start what the task told, keep the policy and follow the raw bytes they interpret |
| Fleet.ConsumerSeesAll | crates/phonowire-receiver/src/handoff.rs:60-71 | A consumer that reads until no sender is left has everything each task handed over |
| Fleet.ConsumerSeesMeaning | crates/phonowire-receiver/src/handoff.rs:60-71 | And of a connection its peer ended, exactly what the peer's stream means |
| Fleet.DisconnectionIff | crates/phonowire-receiver/src/handoff.rs:65-95 | The consumer is told that no sender is left exactly when the worker stopped and all that was accepted was taken |
| FleetProgress.PeerReachesConsumer | crates/phonowire-receiver/src/scheduler.rs:635-693 | From every reachable receiver with both ends alive, and for everything the peer of a running connection may still send: the run can go on so that the consumer has all that the stream means, and no other connection is disturbed |
| FleetProgress.NewPeerReaches | crates/phonowire-receiver/src/scheduler.rs:635-693 | And every new peer can be admitted and heard to its end |
| FleetProgress.FullThenTaken | crates/phonowire-receiver/src/scheduler.rs:664-688 | A record that finds the channel full stays in the hand of its task, and the first poll after a take hands it over |
| FleetProgress.NoConsumerEnds | crates/phonowire-receiver/src/scheduler.rs:664-688 | Without a consumer the next handoff of a connection is its last step and is told to nobody |
| FleetProgress.StopEndsAll | crates/phonowire-receiver/src/driver.rs:943-951 | After the worker stopped every connection is over, and none is admitted |
| FleetProgress.RemovalsAnnounced | crates/phonowire-receiver/src/handoff.rs:65-95 | Every removal is announced to the worker, once |
| Fleet.ConsumerCanRecord | crates/phonowire-receiver/src/handoff.rs:60-95 | At every moment a recorder of the admitted rate accepts the records the consumer has of a connection, exactly if their audio fits a WAVE file |
| Captured.PeerToFile | apps/phonowire-capture/src/main.rs:409-555 | A capture that reports success left in each directory all raw bytes of the connection (the whole stream if it ended cleanly) and a WAVE file of exactly the audio the stream means, over every interleaving of peers, tasks, worker and capture; the connection ended cleanly or by a terminate frame |
| EndToEnd.CallCanBeRecorded | apps/phonowire-capture/src/main.rs:409-555 | Every call that ends well and fits its limits can be recorded whole, whatever it sends: there is a joint run of peers, tasks, worker and capture that ends good, with the raw bytes and the audio of exactly that call in its files |
| EndToEnd.RunTogether | apps/phonowire-capture/src/main.rs:413-414 | Any run of a receiver and any capture that can hear its records make a joint run |
| Captured.GoodRunIsComplete | apps/phonowire-capture/src/main.rs:456-512 | A drained run that did not fail left, for each directory, a complete recording of what was received of its connection |
| Captured.RunLogged | apps/phonowire-capture/src/main.rs:415-512 | While a run is good, each directory holds exactly what was received of its connection |
| Captured.JointHears | apps/phonowire-capture/src/main.rs:413-414 | The capture hears exactly what it takes from the channel |
| Pipeline.ProducerMeetsConsumer | crates/phonowire-receiver/src/connection.rs:34-173 | Every record sequence a bound connection can send under a profile of exactly the recorder's rate passes the recorder's validation exactly as long as its audio fits a WAVE file; any refusal is `WaveSize` |
| Pipeline.RecordedIsDelivered | crates/phonowire-receiver/src/recording.rs:354-430 | What a recorder accepts from a connection is well formed and holds a prefix of the bytes read |
| Pipeline.RecordedAudioIsMeant | crates/phonowire-receiver/src/recording.rs:288-296 | A recording of a connection its peer ended holds exactly the audio that the peer's stream means |
| Pipeline.NextCoupled | crates/phonowire-receiver/src/connection.rs:109-173 | Each step of the connection keeps the recorder's phase, offset bound and wire count in agreement with the task |
| EndOnce.BoundEndsOnce | crates/phonowire-receiver/src/driver.rs:448-456 | Given the check made at bind: at most one terminal record, last; a pending record implies no terminal was queued; `copy` never sees more than the budget; the decoder consumes only observed bytes |
| EndOnce.EndsOnceIff | crates/phonowire-receiver/src/connection.rs:215-239 | Without the bind check: every schedule ends at most once, except exactly when the scratch holds a UUID, some rate is accepted and the shortest even payload beyond the byte budget fits a frame and the scratch |
| EndOnce.RefusedAudioEndsTwice | crates/phonowire-receiver/src/connection.rs:229-238 | For each such configuration, a stream and schedule on which a refused audio copy is followed by a second end |
| EndOnce.EndsTwice | crates/phonowire-receiver/src/connection.rs:166-168 | After the refusal the identity is still set, so the decode loop goes on and the end of input ends the connection again |
| EndOnce.EndShapeRun | crates/phonowire-receiver/src/connection.rs:200-274 | In every other configuration, every reachable task has sent no record after an end |
| EndOnce.WholeFrame | crates/phonowire-receiver/src/connection.rs:109-145 | A frame that arrives byte by byte leaves the task holding exactly that frame |
| Receiving.ReceiveTask.constructor | crates/phonowire-receiver/src/connection.rs:30-43 | A new task holds the Connected record at offset 0 |
| Receiving.ReceiveTask.Poll | crates/phonowire-receiver/src/connection.rs:24-173 | One poll of the in-place task has exactly the effect of one step of the step machine, for every event |
| Receiving.ReceiveTask.SendRecord | crates/phonowire-receiver/src/scheduler.rs:642-684 | An offered record that is accepted counts itself, its wire bytes and its end, and the task resumes; an exhausted counter stops it |
| Receiving.ReceiveTask.ObserveRead | crates/phonowire-receiver/src/scheduler.rs:570-585 | A read advances the read offset and asks for its copy; an exhausted offset becomes `OffsetExhausted` |
| Receiving.ReceiveTask.EndOfStream | crates/phonowire-receiver/src/connection.rs:59-75 | End of stream: truncation before policy before clean end, with the identity held before it |
| Receiving.ReceiveTask.FinishCopy | crates/phonowire-receiver/src/connection.rs:215-268 | A granted copy becomes the record it was for; an impossible one becomes `ResourceRefused` |
| Receiving.ReceiveTask.FeedOnce | crates/phonowire-receiver/src/connection.rs:116-143 | One decoder call, its consumed bytes counted, its error turned into the end |
| Receiving.ReceiveTask.Interpret | crates/phonowire-receiver/src/connection.rs:144-168 | A frame is typed, put to the session and observed |
| Receiving.RunSchedule | crates/phonowire-receiver/src/connection.rs:45-106 | The loop over any schedule reaches the state of the step machine's run |
| Connection.Next | crates/phonowire-receiver/src/connection.rs:109-173 | Between frames no finished frame is left undelivered in the decoder |
| Connection.Run | crates/phonowire-receiver/src/connection.rs:24-107 | The same in every reachable state |
| Codec.FragmentationInvariance | crates/phonowire-audiosocket/src/decoder.rs:240-323 | Feeding any partition of a stream, empty feeds included, yields the frames, the first error, its position and the unfinished rest of a parse of the whole stream |
| Codec.CutsAgree | crates/phonowire-audiosocket/src/decoder.rs:240-298 | Two partitions of one stream cannot be told apart, by frames, error, position or what `finish` sees |
| Codec.DrainIsParse | crates/phonowire-audiosocket/src/decoder.rs:240-298 | The feed loop over one chunk ends and equals the parse of unfinished bytes and chunk together |
| Codec.ParseAppend | crates/phonowire-audiosocket/src/decoder.rs:240-298 | A parse of a longer stream keeps every frame and error of the shorter one and continues at the unfinished frame |
| Codec.Decode | crates/phonowire-audiosocket/src/decoder.rs:177-195 | One typed call: success gives a typed frame and a settled decoder; a content failure is final |
| Codec.Decoder.Feed | crates/phonowire-audiosocket/src/decoder.rs:177-195 | The decoder object computes that call in place over its scratch and is broken for good after a content error |
| Codec.RoundTrip | crates/phonowire-audiosocket/src/encoder.rs:44-108 | Decoding the concatenated encodings of any valid messages, in any chunks, returns those messages with nothing left over |
| Codec.ParseEncoded | crates/phonowire-audiosocket/src/encoder.rs:44-108 | The same for the stream as a whole |
| Codec.AcceptedReencodes | crates/phonowire-audiosocket/src/envelope.rs:61-116 | Converse: what the strict decoder accepts re-encodes to the very bytes it accepted, up to the unfinished frame or the error |
| Codec.FrontOfFrame | crates/phonowire-audiosocket/src/decoder.rs:246-294 | A frame that is wholly present is delivered as it was written, refused for the length of its known type, or refused for the capacity, whatever follows it |
| Codec.ParseSpells | crates/phonowire-audiosocket/src/decoder.rs:240-298 | The frames of a parse, written out again, are the front of the stream, and an open rest is what follows them |
| Codec.FaultNames | crates/phonowire-audiosocket/src/decoder.rs:177-298 | Why a stream is refused, read off the bytes after its good frames: the length that its type forbids, the capacity that it passes, or a digit that is not ASCII, at that byte |
| Framing.Framer.Feed | crates/phonowire-audiosocket/src/decoder.rs:240-298 | The in-place framer over header and scratch equals one read of the unfinished bytes with the new input; a failed framer refuses and consumes nothing |
| Framing.Framer.FillHeader | crates/phonowire-audiosocket/src/decoder.rs:246-272 | Header bytes are gathered across calls; the complete header decides |
| Framing.Framer.FillBody | crates/phonowire-audiosocket/src/decoder.rs:273-294 | Body bytes are gathered across calls; nothing past the frame is consumed |
| Framing.CopyPrefix | crates/phonowire-audiosocket/src/decoder.rs:326-332 | Copies as much of the input as fits and leaves the rest of the destination alone |
| Framing.Framer.FinishInput | crates/phonowire-audiosocket/src/decoder.rs:308-323 | Nothing is missing exactly between frames, the earlier failure is told exactly after one, and otherwise the counts are those of the bytes held |
| Framing.Advance | crates/phonowire-audiosocket/src/decoder.rs:240-298 | A call consumes no more than it is given, delivers at most one frame, and makes progress when it delivers |
| Framing.FrontStable | crates/phonowire-audiosocket/src/decoder.rs:240-298 | Later bytes never change a frame or error that is already decided |
| Framing.FrontBeyond | crates/phonowire-audiosocket/src/decoder.rs:253-294 | A frame or error decided only by new input ends inside that input |
| Framing.FinishTells | crates/phonowire-audiosocket/src/decoder.rs:308-323 | What the end of input in the middle of a frame lacks: nothing between frames, else the rest of the header or payload; fewer bytes leave the frame open and exactly these complete it |
| Framing.FailsForGood | crates/phonowire-audiosocket/src/decoder.rs:240-323 | A framer that failed consumes nothing more and says so to every call |
| Envelope.ContentFailureIsDtmf | crates/phonowire-audiosocket/src/envelope.rs:61-116 | After the header check the only content failure is a DTMF byte that is not ASCII |
| Envelope.RefusalNames | crates/phonowire-audiosocket/src/envelope.rs:61-101 | Each refusal of a typed body names what is wrong with it |
| Encoder.Encode | crates/phonowire-audiosocket/src/encoder.rs:44-82 | Writes exactly the frame and nothing after it, or reports the needed size and writes nothing |
| Encoder.EncodeRaw | crates/phonowire-audiosocket/src/encoder.rs:86-88 | The same for a raw envelope |
| Encoder.WriteFrame | crates/phonowire-audiosocket/src/encoder.rs:90-108 | Type byte, big-endian length, body, at the front of the destination |
| Encoder.TypedInvertsCarrier | crates/phonowire-audiosocket/src/encoder.rs:44-82 | Typing what a valid message encodes to gives the message back |
| Encoder.CarrierInvertsTyped | crates/phonowire-audiosocket/src/envelope.rs:61-101 | Encoding what typing accepts gives the exact frame back |
| Encoder.EncodedInjective | crates/phonowire-audiosocket/src/encoder.rs:44-108 | Different valid messages have different encodings |
| Encoder.RefusedIff | crates/phonowire-audiosocket/src/envelope.rs:61-101 | Typing refuses exactly the envelopes that no valid message has |
| Session.FromRates | crates/phonowire-audiosocket/src/session.rs:37-46 | The mask accepts exactly the listed rates |
| Session.NamedProfiles | crates/phonowire-audiosocket/src/session.rs:27-34 | The two named profiles accept 8 kHz alone and every known rate |
| Session.IncomingSession.ReceiveMessage | crates/phonowire-audiosocket/src/session.rs:193-215 | The object takes one policy step per message: the event carries the payload of that message, a rejection the cause in it |
| Session.IncomingSession.ReceiveEndOfInput | crates/phonowire-audiosocket/src/session.rs:217-222 | And one for the end of input |
| Session.IncomingSession.End | crates/phonowire-audiosocket/src/session.rs:267-271 | An end carries the identity held before it and is final |
| Session.IncomingSession.Reject | crates/phonowire-audiosocket/src/session.rs:273-279 | A rejection is final |
| Session.TraceIsLegal | crates/phonowire-audiosocket/src/session.rs:193-279 | For every call sequence: at most one Started, media and digits only after it with its UUID and admitted rates and digits, the first end or rejection is terminal, and everything later is `AfterEnd` |
| Session.TraceAnswers | crates/phonowire-audiosocket/src/session.rs:193-279 | While no call has ended the session, each call has the one answer that fits it: an identity starts, media and digits are reported with their own rate, payload and byte, and a rejection names its cause: a second identity, media before any, or the unsupported rate, digit or type |
| Session.OneAnswer | crates/phonowire-audiosocket/src/session.rs:193-279 | No call has two such answers |
| Session.AcceptedAlphabet | crates/phonowire-audiosocket/src/session.rs:261-263 | The accepted digits are the sixteen keys of a keypad |
| Session.Trace | crates/phonowire-audiosocket/src/session.rs:193-222 | One answer per call, in every sequence of calls |
| Session.AfterEndForever | crates/phonowire-audiosocket/src/session.rs:193-222 | An ended session answers `AfterEnd` to everything |
| Session.NeverEndedIff | crates/phonowire-audiosocket/src/session.rs:193-279 | Exactly which call sequences leave a session running |
| RecorderRules.AcceptsExactlyWellFormed | crates/phonowire-receiver/src/recording.rs:354-430 | Validation accepts exactly the sequences described by order, identity, UUID, offset and format rules stated on the sequence alone |
| RecorderRules.ValidateIsFollows | crates/phonowire-receiver/src/recording.rs:354-430 | One validation agrees with the rule for one more record |
| RecorderRules.RefusalNames | crates/phonowire-receiver/src/recording.rs:354-430 | A refusal names the one rule, stated on the sequence alone and in the code's order, that the record breaks, and only that |
| RecorderRules.ReplayNames | crates/phonowire-receiver/src/recording.rs:432-439 | A refused sequence is well formed up to the record that breaks the rule it is refused for |
| RecorderRules.SizeIsAudio | crates/phonowire-receiver/src/recording.rs:407-415 | An accepted sequence has audio that fits a WAVE file, and one refused for its size has more |
| RecorderRules.RefusalStands | crates/phonowire-receiver/src/recording.rs:432-439 | A refused sequence stays refused, for the same reason, whatever follows |
| RecorderRules.HeaderReadsBack | crates/phonowire-receiver/src/recording.rs:489-513 | Read as RIFF chunks, the 44-byte header names the sizes of the file it heads, with the PCM after it |
| RecorderRules.FormatReadsBack | crates/phonowire-receiver/src/recording.rs:501-509 | The format chunk reads back as PCM, mono, the rate, its byte rate, 2-byte blocks, 16 bits |
| RecorderRules.LittleReadsBack | crates/phonowire-receiver/src/recording.rs:498-511 | Little-endian fields read back as the values written |
| Recording.WriteCount | crates/phonowire-receiver/src/recording.rs:457-487 | For every pattern of short writes, interrupts and faults: the counter grows by exactly the bytes accepted, which are a prefix of the data; success means all of it; failure means a full counter, with the writer untouched, or a writer that faulted, took nothing or was full, never an interrupt |
| Recording.Recording.constructor | crates/phonowire-receiver/src/recording.rs:241-267 | A provisional empty header, or a failed recorder that counted what was accepted |
| Recording.Recording.RecordOne | crates/phonowire-receiver/src/recording.rs:276-325 | A refused record writes nothing; a failed recorder touches no writer; an I/O failure leaves accepted prefixes, its stage says whether the payload was complete, and it comes from a failing writer or a full counter; a success appends exactly the payload and the description |
| Recording.Recording.Commit | crates/phonowire-receiver/src/recording.rs:302-323 | Description and state follow a written payload |
| Recording.Recording.Preserve | crates/phonowire-receiver/src/recording.rs:280-301 | Wire and audio payloads go to their own writer and counter |
| Recording.Recording.Finish | crates/phonowire-receiver/src/recording.rs:335-352 | Success leaves the header for exactly the PCM that follows it and three flushed outputs; failure leaves wire, events and PCM as they were and the first patchBytes of the new header before the rest of the old; a recorder that has not failed fails to finish exactly when a writer fails, never for a size |
| Recording.Recording.Patch | crates/phonowire-receiver/src/recording.rs:341-344 | The patch counter is exactly how much of the header was replaced |
| Recording.Recording.FlushAll | crates/phonowire-receiver/src/recording.rs:345-350 | Success flushed wire, PCM and events |
| Recording.Sink.Write | apps/phonowire-capture/src/main.rs:39-47 | A limited writer refuses whole what would pass its limit, so its contents never exceed it; else the reply is that of the file; rewriting in place adds nothing |
| Recording.RecordConnection | crates/phonowire-receiver/src/recording.rs:276-352 | Succeeds exactly when the sequence is well formed, no writer fails and the sizes fit 64 bits: then wire file = concatenated Wire payloads, wave file = header + concatenated audio, counted, with the recorded end; a refusal is the reference verdict on the sequence; wire, PCM and events are prefixes after every error |
| Recording.RecordAll | crates/phonowire-receiver/src/recording.rs:276-325 | The same for the records before finishing: stops at the first refusal or failure, which is the reference verdict or a failing writer or counter |
| Recording.Recording.Describe | crates/phonowire-receiver/src/recording.rs:308-323 | The description is written after the payload; a failure leaves a prefix of it |
| Recording.AcceptedFits | crates/phonowire-receiver/src/recording.rs:407-415 | An accepted audio record fits the WAVE format, so finishing cannot fail on size |
| Recording.OverwrittenTwice | crates/phonowire-receiver/src/recording.rs:467-485 | Successive partial writes equal one write of their concatenation |
| Orders.Order.PushBack | crates/phonowire-receiver/src/scheduler.rs:203-228 | Append if absent, touching at most three links |
| Orders.Order.Remove | crates/phonowire-receiver/src/scheduler.rs:230-248 | Deletion at any position, touching at most three links |
| Orders.Order.PopFront | crates/phonowire-receiver/src/scheduler.rs:250-254 | Removal of the head, touching at most three links |
| Orders.AttachLinked | crates/phonowire-receiver/src/scheduler.rs:203-228 | Linking a new last token represents the longer sequence of distinct tokens |
| Orders.DetachLinked | crates/phonowire-receiver/src/scheduler.rs:230-248 | Unlinking represents the sequence without that token |
| Orders.WithoutAdvances | crates/phonowire-receiver/src/scheduler.rs:230-248 | Removal moves later members up by one and no member back |
| Orders.AppendedKeeps | crates/phonowire-receiver/src/scheduler.rs:203-228 | Appending moves no member |
| Orders.PositionUnique | crates/phonowire-receiver/src/scheduler.rs:186-192 | A member stands at one place only |
| ReadySet.RoomInQueue | crates/phonowire-receiver/src/scheduler.rs:275-278 | The capacity assertion of `enqueue` never fires |
| ReadySet.EnqueueSound | crates/phonowire-receiver/src/scheduler.rs:266-281 | A wake queues a sleeping or running task once and changes nothing else; a retired one has no effect |
| ReadySet.ResumeSound | crates/phonowire-receiver/src/scheduler.rs:291-295 | After a resume the head of the order owns a turn |
| ReadySet.RemoveSound | crates/phonowire-receiver/src/scheduler.rs:297-302 | Removing a request hands the turn to the next head |
| ReadySet.InsertConsistent | crates/phonowire-receiver/src/scheduler.rs:327-343 | Admission keeps: queued exactly when Queued or Notified, waiters live, queue within capacity |
| ReadySet.TakeConsistent | crates/phonowire-receiver/src/scheduler.rs:345-351 | So does taking the next task, which was runnable |
| ReadySet.ParkConsistent | crates/phonowire-receiver/src/scheduler.rs:364-378 | So does parking; a wake during the poll stays a queued turn |
| ReadySet.RequestConsistent | crates/phonowire-receiver/src/scheduler.rs:384-392 | So does joining an order |
| ReadySet.RetireConsistent | crates/phonowire-receiver/src/scheduler.rs:409-419 | So does retirement, which leaves nothing behind and passes both places on |
| ReadySet.BlocksKeep | crates/phonowire-receiver/src/scheduler.rs:384-399 | Any joins and ends of requests within a poll keep the ready set consistent, leave the polled task running and take no turn away |
| ReadySet.BlocksStand | crates/phonowire-receiver/src/scheduler.rs:384-399 | After its poll a task stands in exactly the orders that it joined and did not leave since, and all others stand as before |
| ReadySet.LeaveKeeps | crates/phonowire-receiver/src/scheduler.rs:394-399 | So does the end of one request |
| ReadySet.Scheduler.WakeTask | crates/phonowire-receiver/src/scheduler.rs:266-281 | The linked queues and the state map together perform the enqueue |
| ReadySet.Scheduler.ResumeFirst | crates/phonowire-receiver/src/scheduler.rs:291-295 | And the resume of a head |
| ReadySet.Scheduler.FinishRequest | crates/phonowire-receiver/src/scheduler.rs:394-399 | And the end of a request |
| ReadySet.Scheduler.InsertTask | crates/phonowire-receiver/src/scheduler.rs:327-343 | And admission, whose two assertions hold |
| ReadySet.Scheduler.TakeTask | crates/phonowire-receiver/src/scheduler.rs:345-351 | And the take |
| ReadySet.Scheduler.IoWake | crates/phonowire-receiver/src/scheduler.rs:357-362 | And a network event, which wakes only a task waiting for the kernel |
| ReadySet.Scheduler.ParkTask | crates/phonowire-receiver/src/scheduler.rs:364-378 | And parking |
| ReadySet.Scheduler.JoinRequests | crates/phonowire-receiver/src/scheduler.rs:384-392 | And joining an order |
| ReadySet.Scheduler.RetireTask | crates/phonowire-receiver/src/scheduler.rs:409-419 | And retirement |
| Contention.NextInv | crates/phonowire-receiver/src/scheduler.rs:364-452 | Every interleaved step of worker, releasing threads and outside copies keeps: states, orders and requests agree, and each order is served |
| Contention.ResourceInv | crates/phonowire-receiver/src/memory.rs:258-273 | A release, its later announcement and an outside copy keep it |
| Contention.AttemptInv | crates/phonowire-receiver/src/scheduler.rs:607-693 | An attempt, a grant and a cancellation keep it |
| Contention.ParkInv | crates/phonowire-receiver/src/scheduler.rs:364-378 | Parking after a failed attempt keeps it: the wake cannot fall between attempt and park |
| Contention.RetireInv | crates/phonowire-receiver/src/scheduler.rs:409-419 | Retirement keeps it |
| Contention.FinishInv | crates/phonowire-receiver/src/scheduler.rs:446-452 | The end of a request keeps it |
| Fairness.NoLostWakeup | crates/phonowire-receiver/src/scheduler.rs:364-407 | In every reachable state a sleeping head that would fit has its credit set, about to be announced, or just taken by the worker |
| Fairness.DrainRunsHead | crates/phonowire-receiver/src/driver.rs:719-724 | Then the next drain of the flag gives that head its turn, with no network event and no further release |
| Fairness.OnlyHeadGranted | crates/phonowire-receiver/src/scheduler.rs:607-693 | Only the oldest request of an order is granted, within capacity |
| Fairness.PositionNeverGrows | crates/phonowire-receiver/src/scheduler.rs:384-399 | No step moves a waiting request back; each departure in front moves it up |
| Fairness.OutranksThroughout | crates/phonowire-receiver/src/scheduler.rs:384-452 | A request that is ahead stays ahead over every run while it waits |
| Fairness.NoOvertaking | crates/phonowire-receiver/src/scheduler.rs:384-452 | While an older request waits, no request behind it or later is granted that resource |
| Fairness.PollsSettle | crates/phonowire-receiver/src/scheduler.rs:401-407 | A pending poll never leaves a running task, and a wake always finds room: the internal assertions hold |
| Fairness.FreeRequestGranted | crates/phonowire-receiver/src/scheduler.rs:607-693 | A task that asks for what is free, with nobody before it, has it in the same poll and leaves no request |
| Fairness.FullRequestWaits | crates/phonowire-receiver/src/scheduler.rs:607-693 | One that asks for more than is free takes nothing and sleeps in the order |
| Fairness.GivenUpPassesOn | crates/phonowire-receiver/src/scheduler.rs:446-452 | One that gives up takes nothing and hands the order to the next, which owns a turn |
| TurnOrder.TurnKept | crates/phonowire-receiver/src/scheduler.rs:266-281 | Over every run: a task that owns a turn owns it until it is polled for it or retired; no wake is lost |
| TurnOrder.TurnComes | crates/phonowire-receiver/src/scheduler.rs:345-351 | While a task stands in the run queue every turn that is served moves it up: it is polled after at most as many as stood before it |
| TurnOrder.WakeGivesTurn | crates/phonowire-receiver/src/scheduler.rs:266-281 | A wake gives a live task a turn, also while it is polled |
| TurnOrder.AdmissionGivesTurn | crates/phonowire-receiver/src/scheduler.rs:327-343 | An admitted task owns a turn at once, behind all others |
| TurnOrder.SleepsUntilEvent | crates/phonowire-receiver/src/scheduler.rs:357-378 | A task that waits for its socket sleeps until an event gives it a turn; a wake before that is kept |
| TurnOrder.YieldKeepsTurn | crates/phonowire-receiver/src/scheduler.rs:545-564 | A task that used up its budget owns another turn and keeps its place in every order |
| TurnOrder.EndedIsGone | crates/phonowire-receiver/src/scheduler.rs:409-419 | A task that ended is in no table, queue or order any more |
| TurnOrder.OutsideCopyFits | crates/phonowire-receiver/src/memory.rs:224-244 | Others copy what fits and never more |
| TurnOrder.RetireTellsTurn | crates/phonowire-receiver/src/scheduler.rs:409-419 | A retirement says truly whether it gave another task a turn |
| Fairness.RunInv | crates/phonowire-receiver/src/scheduler.rs:364-452 | The invariant in every reachable state |
| Handoff.RecordChannel.Send | crates/phonowire-receiver/src/handoff.rs:49-57 | Accepted exactly within capacity while the consumer lives, as the last of the queue; else the record is given back and nothing changes |
| Handoff.RecordChannel.Receive | crates/phonowire-receiver/src/handoff.rs:65-95 | The oldest record and one wake while any is left; an empty channel is `NoSender` exactly after the last sender, else `Empty`, and nothing changes |
| Handoff.RecordChannel.Drop | crates/phonowire-receiver/src/handoff.rs:104-110 | The queue goes first, then the worker is told |
| Handoff.AlwaysKept | crates/phonowire-receiver/src/handoff.rs:32-110 | Over every run: received + queued = accepted, queue within capacity, one wake for each removal |
| Handoff.ReadToTheEnd | crates/phonowire-receiver/src/handoff.rs:65-71 | Reading until no sender is left yields everything accepted |
| Handoff.AnswersExactly | crates/phonowire-receiver/src/handoff.rs:65-95 | What the consumer is told, from the run alone: the next accepted record while any is left, then `Empty` while a sender lives and `NoSender` after the last |
| Handoff.NoSenderForGood | crates/phonowire-receiver/src/handoff.rs:65-95 | After `NoSender` nothing is accepted, and every later answer is the same |
| Handoff.EmptyThenSent | crates/phonowire-receiver/src/handoff.rs:49-95 | After `Empty` the next record sent is accepted and is the next that is given |
| Handoff.NothingAfterConsumer | crates/phonowire-receiver/src/handoff.rs:104-110 | After the consumer is gone nothing is accepted and every record is given back |
| Memory.RetentionTracker.Add | crates/phonowire-receiver/src/memory.rs:85-97 | Adds to one connection's entry only |
| Memory.RetentionTracker.Release | crates/phonowire-receiver/src/memory.rs:99-114 | Subtracts, and drops an entry that reaches zero |
| Memory.ByteBudget.Reserve | crates/phonowire-receiver/src/memory.rs:224-244 | Grants exactly what fits; the two refusals are told apart with exact amounts |
| Memory.ByteBudget.Release | crates/phonowire-receiver/src/memory.rs:258-273 | Returns bytes and wakes the subscriber unless nothing was released |
| Memory.ByteBudget.Subscribe | crates/phonowire-receiver/src/memory.rs:246-256 | One subscriber at a time |
| Memory.ByteBudget.Unsubscribe | crates/phonowire-receiver/src/memory.rs:306-310 | A dropped subscription frees the place |
| Memory.AlwaysConserved | crates/phonowire-receiver/src/memory.rs:201-304 | Over every interleaving of reserve, track, untrack and release: used = sum of live charges, at most capacity; each entry = the tracked charges of its connection, never zero; nothing panics |
| Memory.ConservedSafe | crates/phonowire-receiver/src/memory.rs:85-114 | No checked addition or subtraction can fail in a conserved state |
| Memory.NextConserved | crates/phonowire-receiver/src/memory.rs:201-304 | Each locked block keeps the sums |
| Memory.TrackersWithinUsed | crates/phonowire-receiver/src/memory.rs:116-123 | All trackers together never exceed what is in use |
| Memory.ChargeComesBack | crates/phonowire-receiver/src/memory.rs:201-304 | A charge that fits is taken, shown for its connection while tracked, and given back, after which account and tracker are as before |
| Sharing.GrantsAgree | crates/phonowire-receiver/src/scheduler.rs:607-693 | A send is accepted, and a copy fits, exactly when the contention model grants the request |
| Sharing.StepRepresents | crates/phonowire-receiver/src/handoff.rs:49-95 | Every step of senders, consumer and owners of bytes keeps the contended slots equal to the channel's queue and the contended bytes equal to the account |
| Sharing.SystemRunInv | crates/phonowire-receiver/src/scheduler.rs:364-452 | In every reachable state of worker, channel and account together, all three invariants hold |
| Sharing.RoomWakesSender | crates/phonowire-receiver/src/handoff.rs:65-95 | When the oldest sender sleeps although the queue has room, a removal is still to be announced, its credit is set or the worker is using it |
| Sharing.BytesWakeCopier | crates/phonowire-receiver/src/memory.rs:258-273 | The same for the oldest copy whose bytes would fit the account |
| Sharing.RemovalWakesSender | crates/phonowire-receiver/src/handoff.rs:65-95 | In every reachable state: removing one record and announcing it gives the oldest sender a turn |
| Sharing.ReleaseWakesCopier | crates/phonowire-receiver/src/memory.rs:258-273 | And giving back one charge does so for the oldest copy |
| Sharing.SendActs | crates/phonowire-receiver/src/scheduler.rs:635-693 | A send that finds room is last in the queue and leaves its order; one that finds none changes nothing and sleeps |
| Sharing.CopyActs | crates/phonowire-receiver/src/scheduler.rs:607-633 | A copy that fits is charged to its owner; one that does not changes nothing and sleeps |
| Sharing.OwnersAct | crates/phonowire-receiver/src/memory.rs:201-304 | Owners of bytes act on the account alone, and it never panics |
| Controls.TicketsNeverChange | crates/phonowire-receiver/src/driver.rs:226-228 | A ticket result that anyone saw stays the result for all, for ever |
| Controls.RetiredOnlyIfAsked | crates/phonowire-receiver/src/driver.rs:927-941 | `RetiredByRequest` only after an accepted request for that very identity |
| Controls.RefusedCallIsInert | crates/phonowire-receiver/src/driver.rs:293-315 | A close succeeds exactly for a live identity of this receiver; a refused one changes nothing; no call affects another connection |
| Controls.ShutdownCompletesAll | crates/phonowire-receiver/src/driver.rs:358-368 | After shutdown has settled, every ticket ever given has a result |
| Controls.CallAnswers | crates/phonowire-receiver/src/driver.rs:293-315 | What a refused caller is told: that the receiver stops exactly after it did, else that the identity is foreign or not live |
| Controls.ResultIsCause | crates/phonowire-receiver/src/driver.rs:351-368 | The result of a ticket is the one with which its connection ended, over every run |
| Controls.NextInv | crates/phonowire-receiver/src/driver.rs:293-368 | Identities are in one stage each, never forgotten or reused, and completed results stand |
| Controls.RunInv | crates/phonowire-receiver/src/driver.rs:293-368 | The same in every reachable state |
| Driver.MergeKeepsBooks | crates/phonowire-receiver/src/driver.rs:968-1007 | Absorbing a task never fires the `expect`; without exhaustion one connection moves from live to ended or abandoned and the byte equations hold |
| Driver.AdmittedAgree | crates/phonowire-receiver/src/driver.rs:851-900 | Admission keeps live tasks, scheduler states and control entries naming the same fresh tokens; its two assertions hold |
| Driver.RetiredAgree | crates/phonowire-receiver/src/driver.rs:906-925 | Retirement keeps them and completes the ticket |
| Driver.TakenAgree | crates/phonowire-receiver/src/driver.rs:753-759 | A runnable token names a live task |
| Driver.AfterPollAgree | crates/phonowire-receiver/src/driver.rs:756-771 | A whole poll, with the request blocks it makes and any end, keeps the tables, starts no other task and leaves its own gone, waiting or runnable |
| Driver.PendingAgree | crates/phonowire-receiver/src/driver.rs:766-771 | A pending poll keeps the tables and leaves no running task |
| Driver.ResumeGivesTurn | crates/phonowire-receiver/src/driver.rs:719-724 | Drained credit runs the head and takes no turn away |
| TurnLaws.CloseStepSums | crates/phonowire-receiver/src/driver.rs:906-925 | Retiring a task never fires the internal check; unless a counter is exhausted the books grow by exactly its report |
| TurnLaws.SumsBalance | crates/phonowire-receiver/src/driver.rs:968-1007 | The sums over closed connections balance: ended + abandoned = closed, handed off within read, pending records within abandoned |
| TurnLaws.RetireStepGood | crates/phonowire-receiver/src/driver.rs:906-925 | Retirement keeps tables, books and history, removes exactly that task and gives its ticket exactly that result |
| TurnLaws.RetireAskedLeads | crates/phonowire-receiver/src/driver.rs:927-941 | Exactly the live connections whose close was requested go, each ticket with `RetiredByRequest` |
| TurnLaws.CreditLeads | crates/phonowire-receiver/src/driver.rs:719-724 | Drained credit changes nothing but turns, and its head owns one |
| TurnLaws.PollsLead | crates/phonowire-receiver/src/driver.rs:748-774 | A round of at most 128 polls keeps tables, tickets and books and polls live tasks only |
| TurnLaws.PollsSettleAll | crates/phonowire-receiver/src/driver.rs:748-774 | Each polled task is gone, waits or owns another turn when the round is over |
| TurnLaws.DispatchExact | crates/phonowire-receiver/src/driver.rs:737-744 | Network events give a turn to exactly the tasks that wait for a socket with an event |
| ServiceLaws.PollEnds | crates/phonowire-receiver/src/driver.rs:756-771 | A poll ends as it says: its task is gone with its ticket, waits for exactly what it slept for, or owns another turn, with the progress it reported |
| ServiceLaws.RoundInOrder | crates/phonowire-receiver/src/driver.rs:748-774 | A round polls the tasks at the front of the run queue, in its order |
| ServiceLaws.RoundKeepsTurns | crates/phonowire-receiver/src/driver.rs:748-774 | Whoever owned a turn was polled, owns one, or is gone; nobody comes back |
| ServiceLaws.RoundReports | crates/phonowire-receiver/src/driver.rs:748-774 | Whoever was polled shows the report of its last poll or is gone; all others are as they were |
| ServiceLaws.CallsHonoured | crates/phonowire-receiver/src/driver.rs:927-941 | A look at the request marks retires exactly the live connections that were asked to close by then |
| RetireOrder.RequestedInOrder | crates/phonowire-receiver/src/driver.rs:927-941 | They are closed in the order of their admission, each once with its own report, all of them unless a counter fails |
| RetireOrder.AllInOrder | crates/phonowire-receiver/src/driver.rs:943-951 | So is everything that is left at the end of a run, past failed counters |
| TurnService.ServeServices | crates/phonowire-receiver/src/driver.rs:715-726 | A round before the listener honours the requests, polls whom it can, loses no turn and serves each head that had credit |
| TurnService.TurnDelivers | crates/phonowire-receiver/src/driver.rs:706-746 | A turn that goes on did all of that, delivered its network events and made its accept attempts; one that does not go on says why |
| ListenerLaws.AdmitLeads | crates/phonowire-receiver/src/driver.rs:851-900 | An admission enters one fresh token everywhere, or is the exact failure: only an exhausted counter leaves the task entered, as the code does |
| ListenerLaws.AcceptRecords | crates/phonowire-receiver/src/driver.rs:802-838 | One attempt is recorded once with its time and outcome; a lack of resources records a pause and ends the turn, a retry goes on, a drained listener is forgotten, a fatal error is returned |
| ListenerLaws.AcceptBooked | crates/phonowire-receiver/src/driver.rs:802-838 | Unless a counter is exhausted, accepted, refused, retry and pause counters are the numbers of attempts that ended so |
| ListenerLaws.AcceptTurnRecords | crates/phonowire-receiver/src/driver.rs:792-849 | A turn within 100 ms of a pause, or of a listener that is not ready, does nothing; any other makes at most min(turn steps, 128) attempts, in order, says why it stopped, and records one pause after the last exactly when it succeeded and met a lack of resources or a full quota of nothing but retries |
| ListenerLaws.AcceptTurnLeads | crates/phonowire-receiver/src/driver.rs:792-849 | An accept turn keeps tables, books, the limit on live connections and the pace |
| ListenerLaws.PausesSeparateAttempts | crates/phonowire-receiver/src/driver.rs:776-849 | Attempts with a pause between them are at least 100 ms apart |
| EntryLaws.AcceptFates | crates/phonowire-receiver/src/driver.rs:802-838 | What becomes of a peer: it is turned away exactly if the limit is reached; else, under a fresh token and if it registers, it is live, known to the registry, owns a turn and is the last admission; nobody else changes |
| EntryLaws.AcceptTurnFates | crates/phonowire-receiver/src/driver.rs:792-849 | The same for every peer of an accept turn: each is turned away exactly when those before it filled the last place |
| EntryLaws.FirstPeerEnters | crates/phonowire-receiver/src/driver.rs:540-559 | A new worker is ready: the first peer that it meets enters at once |
| RunLaws.TurnLeads | crates/phonowire-receiver/src/driver.rs:706-746 | A whole turn of the loop keeps tables, tickets, books and pace |
| RunLaws.DriveLeads | crates/phonowire-receiver/src/driver.rs:706-746 | So does the loop over any turns |
| RunService.DriveInOrder | crates/phonowire-receiver/src/driver.rs:706-746 | The loop makes its turns one after the other, up to the first that does not go on |
| RunService.EveryTurnDelivers | crates/phonowire-receiver/src/driver.rs:706-746 | Every turn that the loop comes to, and that goes on, does its work |
| RunService.RunEnds | crates/phonowire-receiver/src/driver.rs:527-578 | How a run ends: whoever is still live is told of the stop, every earlier result stands, and the outcome is a stop exactly if the loop stopped with complete counters; a failure has its cause in some turn |
| RunLaws.RunKeeps | crates/phonowire-receiver/src/driver.rs:527-578 | A whole run over any turns: nothing left live, every ticket with its one result, all attempts at their pace, and complete counters are the exact sums over closed connections and counts of attempts |
| RunLaws.BooksBalance | crates/phonowire-receiver/src/driver.rs:968-1007 | Such books balance: accepted = ended + abandoned + live, read = handed off + undelivered, undelivered records at most abandoned |
| WorkerLoop.Worker.constructor | crates/phonowire-receiver/src/driver.rs:540-559 | A new worker: nothing live, empty balanced books, listener ready |
| WorkerLoop.Worker.Absorb | crates/phonowire-receiver/src/driver.rs:953-959 | The summary becomes the merge with this progress; a failed merge marks the counters incomplete |
| WorkerLoop.Worker.CloseBooks | crates/phonowire-receiver/src/driver.rs:917-924 | The requested-close counter, then the absorbed progress |
| WorkerLoop.Worker.RetireWith | crates/phonowire-receiver/src/driver.rs:906-925 | One connection leaves every table, its ticket is completed and its progress absorbed, once |
| WorkerLoop.Worker.RetireRequested | crates/phonowire-receiver/src/driver.rs:927-941 | The loop over requested connections computes their retirement in token order up to the first failure |
| WorkerLoop.Worker.Shutdown | crates/phonowire-receiver/src/driver.rs:943-951 | The shutdown loop retires every live connection and stops the controls |
| WorkerLoop.Worker.CloseCall | crates/phonowire-receiver/src/driver.rs:293-315 | A caller's request between two locked blocks |
| WorkerLoop.Worker.ResumeCredit | crates/phonowire-receiver/src/driver.rs:719-724 | Drained credit gives each head its turn |
| WorkerLoop.Worker.PollOne | crates/phonowire-receiver/src/driver.rs:756-771 | One poll: its request blocks, the counter check, and retirement, park or another turn, in all tables |
| WorkerLoop.Worker.RunReady | crates/phonowire-receiver/src/driver.rs:748-774 | The bounded poll loop computes the polls of the run queue in its order |
| WorkerLoop.Worker.Dispatch | crates/phonowire-receiver/src/driver.rs:737-744 | The loop over events readies the listener and wakes the tasks that wait for them |
| WorkerLoop.Worker.Admit | crates/phonowire-receiver/src/driver.rs:851-900 | A fresh token in all tables, or the exact failure with what it leaves |
| WorkerLoop.Worker.AcceptOne | crates/phonowire-receiver/src/driver.rs:802-838 | One attempt, with its counter, its mark, its pause and its failure, and with the fate that is due to its peer |
| WorkerLoop.Worker.Enter | crates/phonowire-receiver/src/driver.rs:803-814 | A connected peer is turned away exactly at the limit; else it is at work in every table |
| WorkerLoop.Worker.Miss | crates/phonowire-receiver/src/driver.rs:815-838 | A failed attempt by its class: drained, retry, pause or fatal |
| WorkerLoop.Worker.AcceptReady | crates/phonowire-receiver/src/driver.rs:792-849 | The accept loop computes the accept turn, with every attempt and pause in the history, and gives every peer its fate |
| WorkerLoop.Worker.RetireLate | crates/phonowire-receiver/src/driver.rs:726-726 | Requested closes after the polls |
| WorkerLoop.Worker.RetireFirst | crates/phonowire-receiver/src/driver.rs:715-718 | Requested closes before the polls, and again when control was signalled |
| WorkerLoop.Worker.ServeTasks | crates/phonowire-receiver/src/driver.rs:715-726 | One round before the listener: retirements, credit, polls, retirements, each with its calls |
| WorkerLoop.Worker.RunTurn | crates/phonowire-receiver/src/driver.rs:708-744 | One turn of the loop, in the code's order, with its exits |
| WorkerLoop.Worker.Drive | crates/phonowire-receiver/src/driver.rs:706-746 | The loop over any turns reaches exactly what those turns make, up to the first exit |
| WorkerLoop.Worker.RunWith | crates/phonowire-receiver/src/driver.rs:527-578 | A whole run reaches exactly the run of its turns: nothing left live, every ticket completed once, attempts paced, and counters reported complete are exact |
| Reports.TasksReportSanely | crates/phonowire-receiver/src/scheduler.rs:570-605 | Every task of a bound receiver, stopped anywhere, reports handed-off bytes within read bytes and no pending record after an end |
| Reports.AbsorbingNeverPanics | crates/phonowire-receiver/src/driver.rs:968-1007 | So absorbing any such task never panics, and unless a counter is exhausted the books grow by what it read, the raw bytes and records it sent, the record left in its hand and its end |
| Capture.OutputWithinBound | apps/phonowire-capture/src/main.rs:268-282 | Over every record sequence and failure pattern: reservations within N, active entries within their limit, and all logical bytes within the computed bound; `CaptureLoop.RunCapture` shows that real recorders on limited files meet its assumptions |
| Capture.BoundExact | apps/phonowire-capture/src/main.rs:268-282 | For an admissible configuration the check refuses exactly the bounds N*(3C+S)+R that do not fit 64 bits |
| Capture.OneSummaryEach | apps/phonowire-capture/src/main.rs:415-555 | Each created directory has no summary attempt while it is owned and exactly one after |
| Capture.GoodMeansComplete | apps/phonowire-capture/src/main.rs:480-512 | A drained run that is not failed recorded every connection to an observed end and wrote every summary |
| Capture.StopIsFinal | apps/phonowire-capture/src/main.rs:415-432 | After a stop nothing more is reserved or created, and no failure is taken back |
| CaptureOutcome.OutcomeIff | apps/phonowire-capture/src/main.rs:415-555 | A run fails exactly if one of its events spoils it, and admits nothing more exactly after one that stops it |
| CaptureOutcome.CanSucceed | apps/phonowire-capture/src/main.rs:415-555 | A capture can succeed: every connection that a recorder accepts to a good end, with files within their limits, has a good run that leaves exactly its files and one summary |
| Capture.RunTidy | apps/phonowire-capture/src/main.rs:415-555 | The invariant behind them, in every reachable state |
| Capture.NextTidy | apps/phonowire-capture/src/main.rs:415-555 | Each step keeps it |
| CaptureLoop.Open | apps/phonowire-capture/src/main.rs:441-470 | A first record gets new limited files and a recorder object; a failure leaves no recorder |
| CaptureLoop.Give | apps/phonowire-capture/src/main.rs:473-510 | A later record goes to the recorder of its connection, which finishes after an end; the files stay within their limit |
| CaptureLoop.ArriveFirst | apps/phonowire-capture/src/main.rs:417-471 | A first record is one step of the step machine, and the new recorder stands for the new entry |
| CaptureLoop.ArriveLater | apps/phonowire-capture/src/main.rs:472-518 | So is a later one; other recorders and files are untouched |
| CaptureLoop.Finalize | apps/phonowire-capture/src/main.rs:519-555 | So is the finalization of what is left |
| CaptureLoop.RunCapture | apps/phonowire-capture/src/main.rs:409-555 | The capture over real recorders and limited files: it is a run of the step machine that heard exactly the records that arrived, and all it leaves is within the bound computed before |
| Capture.Document.Kept | apps/phonowire-capture/src/main.rs:333-337 | A JSON file never exceeds its limit |
| Capture.WrittenWhole | apps/phonowire-capture/src/main.rs:333-337 | What reaches the disk is at most what was taken, and nothing if the file was not created or is too large; an attempt is complete exactly if all of it is there and flushed |
| Capture.BytesOfOne | apps/phonowire-capture/src/main.rs:268-282 | The sum of directory bytes does not depend on the order of directories |

## Left out

- Sockets, Mio polling, error numbers and `classify_accept`: an accept attempt is one of success, drained, retry, pause
  and fatal; a read is a chunk, nothing yet, an error or the end.
- Wakers, `Arc`, `Weak`, `Mutex` and `Condvar` as objects, and mutex poisoning: each locked block and each flag store or
  swap is one atomic step.
- Rust's lowering of futures: program counters with cancellation at suspension points replace it. The copy of bytes
  into a record is a value, so aliasing of the read buffer is not modelled.
- The turn budget (`permit`, `reset_turn`): a task may suspend before any step, which covers every quota.
- `poll_timeout`, wall-clock latency and true fairness: the receiver does not promise progress against outside users of
  the byte budget; credit and turns are shown to reach the head, not when.
- Scheduler, registry and live map are values inside `WorkerLoop.Worker`, updated in place as fields; that the linked
  scheduler object computes those values is proved in `ReadySet.Scheduler`. The worker and other threads meet there only
  at the points of its loop where close calls can be seen; finer interleavings are those of `Controls` and `Contention`.
- One shared ticket cell per identity is a map entry, so its identity as an object is not captured.
- The waking system call, its remembered failure and which stop cause is reported.
- `observed_at` clock readings, peer addresses, and the text of diagnostics, errors and JSON beyond its size.
- Command-line parsing, signals, directories and process exit of the capture application, except as inputs to its steps;
  its drop counters and receipts. A recorder left behind by a failure is dropped and its files keep what they hold.
- In `Sharing` the consumer stays; without it every send is given back and its task stops (`Fleet`, `Handoff`).
- WorkerLoop.Worker.RunWith: the counters are exact if the run reports `counters_complete`; after an exhausted counter
  the code itself reports them incomplete.
- A worker's turn takes the outcome of its polls, accepts and clock readings from outside; clock readings do not run
  backwards, and the progress that a task reports is sane, which `Reports` proves of every task.
- Receiving.ReceiveTask.SendRecord: the turn for the slot order is a step of `Contention`, and the full channel that
  leaves the record in hand is a step of `Fleet`; the method is the accepted attempt.
- Receiving.ReceiveTask.FinishCopy: the turn for the byte order and the retry after a full budget are steps of
  `Contention`; the method is the attempt that is granted or can never be.
- Contention.NextInv: a task holds one request at a time, as each operation awaits its own.
