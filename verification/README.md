# Verified models of the voice firmware

Dafny models of the stream and protocol machines of the voice device, with proofs of what they keep over
whole runs. `dafny verify dfyconfig.toml` checks everything.

Each component has a specification on values (a FIFO, a grammar, a state machine of steps) and, where the
firmware changes state in place, a class whose methods keep its invariant and are proved to follow it; the
main results are lemmas about the specification that hold for every input, run or interleaving.

- **Upload** (`RingBuffer`, `PreRoll`, `HttpChunk`, `HttpSession`, `Upload`, `UploadLaws`): the capture ring, the
  pre-roll, chunked bodies, the session and transport under them, and the interleaving of main loop and upload
  worker.
- **MP3** (`Pcm`, `Resampler`, `Mp3Stream`, `Mp3Player`, `Mp3Laws`): a byte-at-a-time stream machine with its
  accepted language, the resampler's closed form, and the player with its back-pressured queue.
- **Responses** (`JsonGrammar`, `JsonParser`, `JsonTheorems`, `JsonReader`): the bounded reader of the stream
  flags against the grammar of RFC 8259.
- **Cue generations** (`CueStore`, `CueFlash`, `CueCache`): durable staging, the manifest switch, cleaning and
  space, with the power failing at any step.
- **Cue playback** (`CueOpus`, `CuePlayback`, `CueLease`, `CueBank`, `CueWorld`): the Opus container, exact trimming,
  leases on buffers, and players and bank together.
- **Turns** (`TurnClient`, `TurnLaws`, `TurnMachine`): the timed client of a voice turn.
- **Updates** (`OtaProtocol`, `OtaBoard`): installation and rollback across boots.
- **Small machines** (`Clock32`, `WakePolicy`, `ActivityGate`, `ConfigForm`, `FormLaws`): wake timing, the activity
  gate, the settings form.

The modules whose names end in `Laws`, and the lemmas named after outcomes (`…Iff`, `…Means`, `…Outcome`), say what
each operation comes to by its inputs and results alone, apart from the functions that compute it.

Where the code falls short of what one would expect of it, the code is modelled as it is and the exact
condition is proved:

- An overflow of the capture ring in the tick that ends a recording leaves the upload worker waiting. A
  released recording can complete if and only if the ring did not overflow
  (`Upload.ReleasedRecordingCompletesIff`), and runs in which it does exist
  (`Upload.OverflowedReleaseHappens`).
- A turn that ends cancelled, by the user or by the server, asks for IDLE from PROCESSING, which
  `firmware/src/state_machine.c:28-29` refuses, and a turn that ends ready without any sound asks for nothing.
  Once the worker has gone the device can leave PROCESSING if and only if the turn's ids could not be saved or
  cleared, or the user did not cancel it and it failed or its audio has started and it was not cancelled
  (`Upload.TurnLeavesIff`); runs that get stuck exist for all three (`Upload.CancelledTurnHappens`,
  `Upload.ServerCancelledTurnHappens`, `Upload.SilentTurnHappens`).
- A manifest of exactly 8191 bytes is committed but can never be loaded; shorter ones always can
  (`CueCache.CommitInstalls`, `CueCache.Cache.Refresh`).
- Cleaning destroys the installed cues when the cache does not know their generation, as after a load that
  failed for a passing reason; it keeps them if and only if it is told the right one
  (`CueStore.CleanKeepsInstalledIff`).
- The space check leaves out every file under the candidate's name. The store stays within its limit if the
  files there fit at every peak of the staging, and a successful installation does so only if they fit
  (`CueCache.Cache.Install`, with the peaks of `CueStore.Peak`). Complete cues of the candidate's own always fit
  (`CueStore.DemandCovers`), and after a cleaning the sum of all sizes decides (`CueStore.CleanedFitsIff`). A
  foreign file under that name, which survives cleaning, can break the limit (`CueCache.StrangerOverfills`,
  `CueCache.LimitExceeded`), and so can the candidate's own temporary files when cleaning is skipped or its
  deletions fail (`CueCache.LeftoversOverfill`).
- A rolled-back release can return after a power cut between selecting the boot partition and writing the
  marker, after a marker and a restoration that both fail, and, on a platform where selecting the running
  partition puts it on trial again, after a failed marker alone; every other outcome is safe
  (`OtaProtocol.SafeOutcomesAreCareful`).
- The bank's release goes by name and only counts, so one release too many would free a buffer in use
  (`CueBank.ReleaseTooMany`); no run of the players makes one (`CueWorld.NothingFreedInUse`).
- The deadline of a turn bounds its ticks, not retries through the cancel call: when a request leaves the turn
  waiting does not depend on it (`TurnClient.CancelWaitsIff`, `TurnClient.CancelPastDeadline`).
- The guard at `firmware/src/voice_listening_cue.c:92` against a part that ends before it starts never acts
  (`CuePlayback.WindowGrows`), so `CuePlayback.OpusCue.DecodeNext` does without it.

## Model

| member | source | states |
|---|---|---|
| Bits.MaskIsModulus | firmware/src/ring_buffer.c:6-7 | AND with capacity - 1 is the remainder modulo the capacity, for every power of two and every index |
| Bits.PowerOfTwoTest | firmware/src/ring_buffer.c:9-11 | the bit test for a legal capacity accepts exactly the powers of two |
| RingBuffer.RunConserves | firmware/src/ring_buffer.c:23-67 | over every run of pushes, pops and flag operations since a reset, the bytes accepted are the bytes popped followed by the bytes stored, in order |
| RingBuffer.FlagMeansLoss | firmware/src/ring_buffer.c:30-35 | the overflow flag is set exactly when some non-empty push since it was last cleared stored less than it was given |
| RingBuffer.TakesAllItCan | firmware/src/ring_buffer.c:23-35 | a push stores as much as there is room for, from the front of what it is given |
| RingBuffer.MaskWraps | firmware/src/ring_buffer.c:45 | advancing a cursor with the mask wraps it at the end of the storage |
| RingBuffer.CopyExtends | firmware/src/ring_buffer.c:36-47 | a block copied into the free space behind the stored bytes extends them and disturbs none |
| RingBuffer.FrontOfWindow | firmware/src/ring_buffer.c:60-65 | the front of the stored bytes is read in at most two runs and the rest starts right after it |
| RingBuffer.CopyKeepsFree | firmware/src/ring_buffer.c:36-47 | a block copied in takes the front of the free run and leaves the rest of it as it was |
| RingBuffer.Ring.Push | firmware/src/ring_buffer.c:23-50 | the circular storage follows the FIFO: accepted count, contents and flag, with the free part beyond the new bytes untouched |
| RingBuffer.Ring.CopyIn | firmware/src/ring_buffer.c:44-47 | one block up to the wrap point is appended to the contents and the write cursor moves past it |
| RingBuffer.Ring.Pop | firmware/src/ring_buffer.c:52-67 | the popped bytes are the oldest stored ones and the rest stay in order |
| RingBuffer.Ring.Clear | firmware/src/ring_buffer.c:89-93 | the flag is cleared and nothing else changes |
| RingBuffer.Ring.Reset | firmware/src/ring_buffer.c:95-103 | a reset ring is an empty FIFO without the flag |
| PreRoll.Buffer.WindowStep | firmware/src/main.c:556-561 | writing one byte slides the window of kept bytes by one once it is full |
| PreRoll.Buffer.AppendByte | firmware/src/main.c:558-559 | after each byte the buffer holds the last 9600 bytes heard |
| PreRoll.Buffer.Append | firmware/src/main.c:556-561 | after any pieces the buffer holds the last 9600 bytes heard |
| PreRoll.Buffer.Flatten | firmware/src/main.c:628-631 | the two runs pushed into the ring are together the last at most 9600 bytes heard, in order |
| HttpChunk.HexRoundTrip | firmware/src/voice_http_chunk.c:19-21 | the chunk size written in hexadecimal is read back as the same number |
| HttpChunk.DecodeOneChunk | firmware/src/voice_http_chunk.c:16-25 | a decoder by section 7.1 of RFC 9112 reads one written chunk back as its data, whatever follows |
| HttpChunk.CutChunkIncomplete | firmware/src/voice_http_chunk.c:16-25 | a chunk cut anywhere before its end never makes a body complete |
| HttpChunk.ClosedBodyDecodes | firmware/src/voice_http_chunk.c:16-29 | all chunks and the terminator decode to exactly the bytes the chunks carried, with nothing left over |
| HttpChunk.OpenBodyIncomplete | firmware/src/voice_http_chunk.c:27-29 | chunks without the whole terminator never decode to a complete body |
| HttpChunk.WriteAll | firmware/src/voice_http_chunk.c:5-14 | for any partial writes, success means every byte went out once and in order; failure means a proper prefix did |
| HttpChunk.WriteChunk | firmware/src/voice_http_chunk.c:16-25 | success means the whole encoded chunk was appended to the socket; an empty chunk is refused |
| HttpChunk.Finish | firmware/src/voice_http_chunk.c:27-29 | success means the terminator was appended to the socket |
| HttpSession.LegalNote | firmware/src/voice_transport.c:3-41 | adding a call keeps the log legal: body bytes and body ends only inside an open request, no request inside another |
| HttpSession.NothingAfterEnd | firmware/src/voice_transport.c:13-41 | between a finished or aborted request and the next successful begin no body byte reaches the network |
| HttpSession.Transport.BeginRequest | firmware/src/voice_transport.c:3-11 | a request is begun only when none is open; a used transport is aborted first |
| HttpSession.Transport.WriteBody | firmware/src/voice_transport.c:13-19 | bytes are passed on only inside an open request |
| HttpSession.Transport.FinishRequest | firmware/src/voice_transport.c:21-27 | only an open request can be finished, and a refused end leaves it open |
| HttpSession.Transport.AbortRequest | firmware/src/voice_transport.c:38-41 | after an abort no request is open |
| HttpSession.Session.OpenSession | firmware/src/http_session.c:26-38 | opening succeeds exactly when no session is active, no request is open underneath and the network agrees |
| HttpSession.Session.WriteSession | firmware/src/http_session.c:40-51 | bytes are taken only while open, and the session's count is what the request carried |
| HttpSession.Session.CloseSession | firmware/src/http_session.c:53-66 | a clean close ends the request with all counted bytes in it; a refused one leaves the session closing |
| HttpSession.Session.AbortSession | firmware/src/http_session.c:74-83 | an aborted session is closed and its request is no longer open |
| Upload.TerminatorMeansWholeRecording | firmware/src/main.c:334-379 | in every interleaving of main loop and upload worker, a decoder of the socket has a complete body exactly when the terminator went out, and it is the kept pre-roll followed by every byte captured |
| Upload.TerminatedIsFinal | firmware/src/main.c:362-378 | once the terminator is out no later step of the turn changes the socket or the recording |
| Upload.NextKeepsInv | firmware/src/main.c:663-716 | every step of either task keeps all bytes accounted for: chunks sent, bytes in the worker's hands, stream buffer, ring and pre-roll in order make up what was captured |
| Upload.MainStepEffect | firmware/src/main.c:1141-1214 | a step of the main loop only raises flags, and adds no bytes but those just read; what each step leads to is said by the laws that follow |
| Upload.WireKeepsInv | firmware/src/main.c:343-358 | a step of the worker that moves bytes keeps the socket equal to whole chunks and a cut of the next |
| Upload.ControlKeepsInv | firmware/src/main.c:343-378 | the worker's tests of the flags lead to the terminator only after everything was sent |
| Upload.OverflowNeverCompletes | firmware/src/main.c:685-716 | with the ring overflowed no later step of the turn sends the terminator |
| Upload.ReleasedCompletes | firmware/src/main.c:1206-1214 | a released recording whose ring did not overflow can always be sent whole |
| Upload.ReleasedRecordingCompletesIff | firmware/src/main.c:1206-1214 | a released recording can still be completed if and only if the ring did not overflow in the tick that ended it |
| Upload.OverflowedReleaseHappens | firmware/src/main.c:1170-1214 | such an overflow happens: some run from the start releases a recording whose ring overflowed in its last tick |
| Upload.StuckForever | firmware/src/main.c:1222-1239 | a turn whose worker has gone and that the flags do not let out stays in PROCESSING whatever happens, because the state machine refuses the move to IDLE |
| Upload.TurnLeavesIff | firmware/src/main.c:1222-1239 | once the worker has gone a turn can leave PROCESSING if and only if its ids could not be saved or cleared, or the user did not cancel it and it failed or its audio has started and it was not cancelled |
| Upload.CancelledTurnHappens | firmware/src/main.c:1222-1226 | some run from the start gets stuck after the user cancelled |
| Upload.ServerCancelledTurnHappens | firmware/src/main.c:1230-1233 | some run gets stuck after the server cancelled, with no button pressed |
| Upload.SilentTurnHappens | firmware/src/main.c:1234-1239 | some run gets stuck after a turn that ended ready without any sound |
| UploadLaws.OverflowStopsRecording | firmware/src/main.c:727-745 | a tick of a recording whose ring has overflowed leads to ERROR within eight steps of the main loop, with any steps of the worker between them: the upload is failed, finished and cancelled, and no byte is captured on the way |
| UploadLaws.ErrorStopsWorker | firmware/src/main.c:1152-1159 | every other error of the main loop leads to ERROR within six of its steps, captures nothing on the way, and tells a worker still there to stop by every flag |
| UploadLaws.RecordingEndsIff | firmware/src/main.c:1141-1199 | a recording ends in ERROR exactly on an overflow, a failed turn without a worker, a failure of the recording or a missing worker, ends in PROCESSING exactly when it was finished with the worker there, and otherwise goes on; what is read in a tick is captured as it is |
| UploadLaws.ProcessingEndsIff | firmware/src/main.c:1202-1242 | a turn in PROCESSING goes to ERROR exactly when its ids could not be saved or it failed and was not cancelled to its end, goes on to PLAYING exactly when its audio may be heard, and is cancelled by the button or by an error |
| UploadLaws.ResultMeansUploaded | firmware/src/main.c:362-378 | a turn is reported ready or cancelled only after its whole recording was sent, and one whose recording was not sent whole is reported failed once the worker has gone |
| UploadLaws.BodyIsWhatWasHeard | firmware/src/main.c:626-676 | in every turn of every run, a receiver of the socket has a complete body exactly when the terminator went out, and it is the last 9600 bytes heard before the turn followed by every byte captured in it |
| Resampler.OutputPrefix | firmware/src/voice_mp3_player.c:105-131 | an output sample depends only on the inputs up to its position, so later frames never change it |
| Resampler.OutputsExtend | firmware/src/voice_mp3_player.c:98-132 | more inputs continue the outputs made so far and leave them alone |
| Resampler.OutCountIs | firmware/src/voice_mp3_player.c:113-130 | after N inputs floor((N - 1) * 24000 / rate) + 1 outputs are due: the last lies at or before the last input and the next after it |
| Resampler.OutCountUnit | firmware/src/voice_mp3_player.c:101-104 | at 24 kHz the count is the number of inputs |
| Resampler.FrameFits | firmware/src/voice_mp3_player.c:121 | a frame of at most 1152 samples yields at most 1729 outputs at any accepted rate, so the overflow guard is never reached |
| Resampler.HistoryStep | firmware/src/voice_mp3_player.c:105-109 | the circular history always holds the last 32 inputs in the slots the filter reads |
| Resampler.Converter.OutputAt | firmware/src/voice_mp3_player.c:115-119 | an output lies between the previous input, exclusive, and the current one: its fraction is in (0, 1] |
| Resampler.Converter.Filter | firmware/src/voice_mp3_player.c:105-109 | the filtered value is the full convolution at this input |
| Resampler.Converter.Interpolate | firmware/src/voice_mp3_player.c:115-120 | the sample is the linear interpolation at its exact rational position |
| Resampler.Converter.Emit | firmware/src/voice_mp3_player.c:114-130 | one input writes exactly the outputs that became due, or fails exactly when the buffer is too small |
| Resampler.Converter.Feed | firmware/src/voice_mp3_player.c:98-132 | feeding one sample at a time gives the outputs of the whole signal, at 24 kHz a copy |
| Resampler.Converter.SetRate | firmware/src/voice_mp3_player.c:41-54 | installing the filter leaves an empty history |
| Pcm.BytesRoundTrip | firmware/src/voice_mp3_player.c:26-39 | 16-bit samples read back from their bytes, the low byte first, are those samples |
| Mp3Laws.NothingToResample | firmware/src/voice_mp3_player.c:101-104 | at 24 kHz every input is output as it is |
| Mp3Laws.ImpulseResponse | firmware/src/voice_mp3_player.c:105-109 | the filter answers a single sample with its taps, one after another, and then with silence |
| Mp3Laws.FilterAdds | firmware/src/voice_mp3_player.c:105-109 | and two signals together with the sum of its answers |
| Mp3Laws.OutputAtInput | firmware/src/voice_mp3_player.c:115-119 | at the position of an input the output is the filtered input itself |
| Mp3Laws.OutputBetween | firmware/src/voice_mp3_player.c:115-119 | between two inputs it lies between them, on their line, at the share of the way its position is |
| Mp3Laws.SampleMeans | firmware/src/voice_mp3_player.c:122-124 | a sample is cut off at the ends of 16 bits and otherwise rounded towards zero |
| Mp3Stream.FrameBounds | firmware/src/voice_mp3_player.c:5-24 | every accepted frame is 24 to 1441 bytes long, at 16 kHz or more and one or two channels; what its length is, `Mp3Laws.HeaderMeans` says |
| Mp3Laws.HeaderMeans | firmware/src/voice_mp3_player.c:5-24 | four bytes are a header if and only if their fields are those of Layer III of MPEG-1 or MPEG-2 with no reserved value; rate, channels and version are what the fields say, and without padding the length times the rate is the greatest that is no more than 144000 (72000 for MPEG-2) times the bit rate |
| Mp3Laws.PaddingIsOneByte | firmware/src/voice_mp3_player.c:21-22 | two headers that differ only in the padding bit differ by one byte of length and in nothing else |
| Mp3Laws.NoSync | firmware/src/voice_mp3_player.c:5-10 | bytes that are not fields after a sync are no header, and any others are fields |
| Mp3Laws.TagMeans | firmware/src/voice_mp3_player.c:172-184 | a tag header is good exactly when it is of version 2.3 or 2.4, has no unknown flag and is short enough; what is skipped is its synchsafe size, and a footer |
| Mp3Laws.NotSynchsafe | firmware/src/voice_mp3_player.c:174-177 | a size byte with its top bit set is no tag |
| Mp3Stream.RunAppend | firmware/src/voice_mp3_player.c:147-220 | feeding two pieces is feeding their concatenation |
| Mp3Stream.CopyBlock | firmware/src/voice_mp3_player.c:162-169 | a block copied at once is the same as its bytes one by one |
| Mp3Stream.SkipBlock | firmware/src/voice_mp3_player.c:156-161 | a block of a tag skipped at once is the same as its bytes one by one |
| Mp3Stream.PcmOnlyGrows | firmware/src/voice_mp3_player.c:91-133 | sound already produced is never changed by later bytes |
| Mp3Stream.PcmClosedForm | firmware/src/voice_mp3_player.c:91-133 | for any frame boundaries the sound is the filter and interpolation at every output position of the whole decoded signal, in the closed-form number |
| Mp3Laws.StreamIsFrames | firmware/src/voice_mp3_player.c:147-232 | the body of a stream taken whole is its frames one after another, each with its own header and length, and the signal that is resampled is what the decoder makes of them in turn, mixed down |
| Mp3Laws.TooLongFails | firmware/src/voice_mp3_player.c:152-155 | every byte taken is counted, and a stream longer than 16 MiB fails |
| Mp3Laws.DecodeFailsIff | firmware/src/voice_mp3_player.c:91-97 | a frame fails exactly when the decoder does, gives more than fits, or gives sound of another rate, number of channels or an incomplete pair, or when the resampled sound does not fit |
| Mp3Laws.MeanMeans | firmware/src/voice_mp3_player.c:99-100 | the mean of a pair lies between them, is the same either way round and with both signs changed, and is rounded towards zero |
| Mp3Laws.EqualChannels | firmware/src/voice_mp3_player.c:99-100 | a stereo pair of equal samples mixes to that sample, and one channel is left alone |
| Mp3Stream.FramesAccepted | firmware/src/voice_mp3_player.c:191-217 | from a frame boundary the machine accepts exactly a sequence of whole frames with equal parameters |
| Mp3Stream.TagAccepted | firmware/src/voice_mp3_player.c:170-187 | a stream with a tag is accepted exactly when the tag is a good ID3v2.3 or 2.4 header of bounded size and frames follow it |
| Mp3Stream.WindowIsHarmless | firmware/src/voice_mp3_player.c:170-190 | opening with a window of ten bytes ends where reading four-byte headers from the start would |
| Mp3Stream.AcceptedIffLayout | firmware/src/voice_mp3_player.c:147-232 | a stream of at most 16 MiB is taken to its end with nothing left over if and only if it is an optional tag followed by one or more whole frames of equal rate, channels and version |
| Mp3Player.Player.Drain | firmware/src/voice_mp3_player.c:26-39 | one call of the sink: what it took, then what is pending, is what was produced; a faulty reply fails the player |
| Mp3Player.Player.Enqueue | firmware/src/voice_mp3_player.c:95-132 | a decoded frame is mixed, resampled and queued as the closed form says, or refused exactly when it does not fit |
| Mp3Player.Player.Decode | firmware/src/voice_mp3_player.c:91-133 | decoding the buffered frame does what the byte-at-a-time machine does with it |
| Mp3Player.Player.OpenStream | firmware/src/voice_mp3_player.c:170-190 | the opening window is read as a tag header or left as the start of the first frame |
| Mp3Player.Player.LearnHeader | firmware/src/voice_mp3_player.c:191-209 | a header fixes the parameters once, must agree with them afterwards, and says how many bytes are needed, which are those of `Mp3Laws.HeaderMeans` |
| Mp3Player.Player.Examine | firmware/src/voice_mp3_player.c:170-217 | acting on a full buffer is one completion of the byte-at-a-time machine |
| Mp3Player.Player.Feed | firmware/src/voice_mp3_player.c:147-220 | the player is the byte-at-a-time machine run over exactly the bytes it says it took; it stops early only on failure or with sound still unsent; a sink that takes everything gets everything |
| Mp3Player.Player.Finish | firmware/src/voice_mp3_player.c:222-232 | finishing succeeds only with nothing left over, at least one frame and one sample, and everything delivered, and with a speaker that takes everything then always |
| Mp3Player.PlayAtOnce | firmware/src/voice_mp3_player.c:147-232 | one feed into a sink that takes everything delivers all the sound, and finishing succeeds exactly for audible streams of the accepted layout |
| Mp3Player.Playback.Tick | firmware/src/voice_listening_cue.c:65-81 | re-feeding from the returned offset, in pieces of any size and with any sink, keeps the delivered sound a prefix of what one feed would give; a tick goes wrong only if the speaker or the stream is at fault, and with a speaker that takes everything it takes all it may and is done exactly at the end of an audible stream, once the speaker is dry |
| Mp3Player.Playback.Heard | firmware/src/voice_listening_cue.c:65-81 | what the sink has is a prefix of the stream's sound, and all of it once the cue is done |
| JsonTheorems.SoundValue | firmware/src/voice_turn_follow_up.c:44-58 | whatever the reader takes as a value is a value of RFC 8259 with white space before it, nested no deeper than allowed |
| JsonTheorems.CompleteValue | firmware/src/voice_turn_follow_up.c:44-58 | every value of RFC 8259 nested no deeper than allowed is taken, up to its last byte |
| JsonTheorems.SoundItems | firmware/src/voice_turn_follow_up.c:31-43 | whatever is taken as the inside of a container is a list of members or elements of the grammar |
| JsonTheorems.CompleteItems | firmware/src/voice_turn_follow_up.c:31-43 | every such list is taken |
| JsonTheorems.SoundChars | firmware/src/voice_turn_follow_up.c:10-29 | whatever is taken as a string is one, and what is kept of it is its characters with escapes made unmatchable |
| JsonTheorems.CompleteChars | firmware/src/voice_turn_follow_up.c:10-29 | every string of the grammar is taken |
| JsonTheorems.CompleteNumber | firmware/src/voice_turn_follow_up.c:51-57 | every number of the grammar is taken to its end |
| JsonTheorems.SoundNumber | firmware/src/voice_turn_follow_up.c:51-57 | whatever is taken as a number is one |
| JsonTheorems.AfterAllMeans | firmware/src/voice_turn_follow_up.c:118-123 | going through the members one by one accepts exactly a flag that occurs at most once and as a boolean, and yields its value |
| JsonTheorems.FlagsSound | firmware/src/voice_turn_follow_up.c:111-128 | an accepted response is an object of the grammar with short root keys, bounded nesting and the flag rules met, and the two outputs are those of its root members |
| JsonTheorems.FlagsComplete | firmware/src/voice_turn_follow_up.c:111-128 | every such response of at most 1024 bytes is accepted with those outputs |
| JsonTheorems.FlagsIff | firmware/src/voice_turn_follow_up.c:111-128 | a text is accepted if and only if it spells an acceptable response; nested or quoted decoys never matter |
| JsonReader.Reader.Str | firmware/src/voice_turn_follow_up.c:10-29 | the string loop equals the string parser, keeps the text in a buffer it never overruns, and reads no byte past the terminator |
| JsonReader.Reader.Number | firmware/src/voice_turn_follow_up.c:51-57 | the number scan equals the number parser |
| JsonReader.Reader.Value | firmware/src/voice_turn_follow_up.c:44-58 | the recursive reader equals the value parser and restores the depth |
| JsonReader.Reader.Container | firmware/src/voice_turn_follow_up.c:31-43 | the container reader with its depth guard equals the container parser |
| JsonReader.Reader.Items | firmware/src/voice_turn_follow_up.c:35-42 | the loop over members or elements equals the recursive parser |
| JsonReader.FlagReader.Member | firmware/src/voice_turn_follow_up.c:116-123 | one root member is taken or refused as the parser says |
| JsonReader.FlagReader.Members | firmware/src/voice_turn_follow_up.c:115-125 | the loop over root members equals the recursive parser |
| JsonReader.StreamFlags | firmware/src/voice_turn_follow_up.c:111-128 | the reader accepts exactly what the parser accepts, with the same two outputs, and never reads past the terminator |
| CueStore.CueFilesDiffer | firmware/src/voice_cue_generation.c:27-31 | no two cues of any generations share a file name |
| CueStore.LoadMeans | firmware/src/voice_cue_generation.c:145-171 | a start loads a set if and only if the manifest, of at most 8190 bytes, names it with 14 cues of legal sizes under a legal name, and every cue file is there with the promised size and hash and decodes with the promised rate and channels |
| CueStore.OneBadCue | firmware/src/voice_cue_generation.c:155-169 | one cue file that is missing, has another size or another hash or does not decode, and nothing is loaded |
| CueStore.DoomedIff | firmware/src/voice_cue_generation.c:203-219 | the cleaner's names are those of every temporary cue file and of every cue file of another generation, whatever the generation |
| CueStore.LoadKeeps | firmware/src/voice_cue_generation.c:145-171 | what a start loads depends only on the manifest and the cue files it names |
| CueStore.PartsDoNotMatter | firmware/src/voice_cue_generation.c:115-127 | temporary files never change what a start loads, whatever is in them |
| CueStore.CleanKeepsInstalledIff | firmware/src/voice_cue_generation.c:199-221 | cleaning keeps the installed set if and only if the cleaner is told the installed generation |
| CueFlash.Flash.WriteFile | firmware/src/voice_cue_generation.c:115-127 | success means the whole file is in place by one rename; every disk on the way is the old one but for the temporary file, or the new one, and at most one file larger |
| CueFlash.Flash.Stage | firmware/src/voice_cue_generation.c:119-124 | filling the temporary file touches no other file |
| CueFlash.Flash.PartMidway | firmware/src/voice_cue_generation.c:115-127 | each stage of a durable write is within the size and content bounds claimed for it |
| CueStore.TracksOneMore | firmware/src/voice_cue_generation.c:115-133 | just before the rename of each cue the disk holds exactly all other files, the cues staged so far with this one, and the files under the candidate's name not yet replaced |
| CueStore.TracksManifest | firmware/src/voice_cue_generation.c:134-144 | and just before the rename of the manifest exactly those and the manifest |
| CueStore.DemandCovers | firmware/src/voice_cue_generation.c:172-198 | when all that bears the candidate's name are its own complete cues, none larger than promised, the room asked for is never exceeded |
| CueStore.CleanedFitsIff | firmware/src/voice_cue_generation.c:172-221 | after a cleaning the whole installation fits if and only if all cues, and the manifest with them, fit beside everything on the disk, strangers under the candidate's name included |
| CueCache.StagingKeeps | firmware/src/voice_cue_generation.c:128-133 | no step of writing a cue of another generation changes what a start loads |
| CueCache.CommitInstalls | firmware/src/voice_cue_generation.c:134-144 | with all cues staged, the renamed manifest installs exactly the new set, except that a manifest of 8191 bytes installs nothing |
| CueCache.CleaningKeeps | firmware/src/voice_cue_generation.c:199-221 | told the installed generation, the cleaner keeps the installed set at every step |
| CueCache.Cache.TornWrite | firmware/src/voice_cue_generation.c:115-127 | a power cut in the middle of filling a temporary file is no worse than one between steps |
| CueCache.WriteCue | firmware/src/voice_cue_generation.c:128-133 | a cue is written only with the promised size and hash |
| CueCache.Commit | firmware/src/voice_cue_generation.c:134-144 | the manifest is put in place only when every cue has its size, and in one step |
| CueCache.LoadSet | firmware/src/voice_cue_generation.c:145-171 | the loader returns the complete set the manifest names or nothing; every cue of a set it returns has the promised size and hash and decodes as promised |
| CueCache.HasSpace | firmware/src/voice_cue_generation.c:172-198 | the check succeeds exactly when two manifests, all cues, the largest cue and all other files fit the limit |
| CueCache.Clean | firmware/src/voice_cue_generation.c:199-221 | only temporary files and cues of inactive generations are deleted, and all of them when no deletion fails |
| CueCache.CleanLeavesStrangers | firmware/src/voice_cue_generation.c:199-221 | after cleaning no cue file or temporary file of the candidate is left |
| CueCache.StrangerOverfills | firmware/src/voice_cue_generation.c:187-188 | a foreign file under the candidate's name survives cleaning and is not counted: for every candidate the check says yes and the first cue goes over the limit |
| CueCache.LeftoversOverfill | firmware/src/voice_cue_generation.c:187-188 | so can the candidate's own temporary files beside its own cues, with no foreign file |
| CueCache.LimitExceeded | firmware/src/voice_cue_cache_esp.c:165-210 | a run in which nothing fails, the cleaner has run and the check says yes passes a disk over the limit |
| CueCache.Cache.constructor | firmware/src/voice_cue_cache_esp.c:33-43 | a start from a bootable flash is in step with what it installs |
| CueCache.Cache.StageOne | firmware/src/voice_cue_cache_esp.c:173-194 | fetching and staging one cue keeps the installed set at every step; the disk is at most at its peak, and has been there when the cue is staged; nothing is written without the store's ownership, an idle device and a cue as promised |
| CueCache.Cache.StageAll | firmware/src/voice_cue_cache_esp.c:173-194 | staging keeps the installed set at every step; it stays within a bound if all peaks do and, once complete, only if; undisturbed it succeeds |
| CueCache.Cache.Switch | firmware/src/voice_cue_cache_esp.c:195-210 | the switch happens only while no cue is leased, and then always if nothing fails; otherwise the flash is left alone; every disk on the way installs the whole old set or the whole new one, and memory follows the flash |
| CueCache.Cache.Prepare | firmware/src/voice_cue_cache_esp.c:165-172 | cleaning and the space check keep the installed set at every step; nothing is deleted without the store's ownership and an idle device; undisturbed, the answer is about the cleaned disk and none of the candidate's own files are on it |
| CueCache.Cache.Install | firmware/src/voice_cue_cache_esp.c:173-210 | whatever fails, the store stays within its limit if the sizes of the files there are fit at every peak, and an installation that succeeds stays within it only if they do; complete cues of the candidate's own always fit; with good cues, no lease and no fault it succeeds |
| CueCache.Cache.Refresh | firmware/src/voice_cue_cache_esp.c:156-220 | after a power cut at any step of a refresh a start finds the complete old or the complete new set, for manifests under 8191 bytes; one of 8191 bytes commits and then cannot be loaded. The new set is what was fetched, each cue as promised; undisturbed the refresh succeeds exactly when another generation is announced, fits the cleaned flash and was fetched as promised with no cue in use, and leaves no other generation behind; without a reason or the store's ownership the flash is not touched |
| CueCache.Cache.RefreshAll | firmware/src/voice_cue_cache_esp.c:156-220 | after a power cut at any step of any number of refreshes a start finds the first set or a complete one announced since |
| CueCache.Lives | firmware/src/voice_cue_cache_esp.c:33-43 | and so over any number of starts, with power cuts and torn temporary files between them; what is found has every cue with the promised size and hash |
| TurnClient.RunKeeps | firmware/src/voice_turn_client.c:210-325 | every run of ticks, cancellations and follow-up calls keeps the invariants behind the safety results |
| TurnClient.ReadyMeansHeard | firmware/src/voice_turn_client.c:210-232 | a turn that ends ready was polled ready and downloaded exactly once with success and valid 24 kHz mono 16-bit data |
| TurnClient.ClearedOnce | firmware/src/voice_turn_client.c:158-173 | the saved ids are cleared exactly once if the turn is over and not at all before |
| TurnClient.OnlySavedTurns | firmware/src/voice_turn_client.c:254-277 | no poll, download or cancel names a turn id that was not saved first |
| TurnClient.FollowUpOnce | firmware/src/voice_turn_client.c:318-325 | a follow-up is handed out at most once and only by a turn that ended ready |
| TurnClient.CancelIsFinal | firmware/src/voice_turn_client.c:302-316 | once cancellation is requested nothing is polled or downloaded again and the turn cannot end ready |
| TurnClient.AtMost179Ticks | firmware/src/voice_turn_client.c:234-242 | without cancellation at most 179 ticks reach the network, for any clock readings |
| TurnClient.Spacing | firmware/src/voice_turn_client.c:175-180 | after a tick that reached the network none does for at least a second |
| TurnClient.DeadlineEnds | firmware/src/voice_turn_client.c:238-241 | a tick 180000 ms or more after the start ends the turn whatever happened before |
| TurnClient.CancelWaitsIff | firmware/src/voice_turn_client.c:302-316 | at any time, past the deadline too, a cancel request leaves a turn waiting if and only if no turn is known, or an earlier request is not due for its retry, or the call-off is to be retried |
| TurnClient.CancelPastDeadline | firmware/src/voice_turn_client.c:302-316 | so a cancel request past the deadline may still call out and keep waiting |
| TurnLaws.TickOutcome | firmware/src/voice_turn_client.c:234-300 | before its deadline a tick ends a turn ready exactly when it was answered OK and READY with its sound there already, or with a good download of a stream not consumed; cancelled exactly when it was called off here or on the other side; it goes on exactly while nothing is decided, and has failed in every other case |
| TurnLaws.NextTime | firmware/src/voice_turn_client.c:175-180 | a turn that goes on is asked about again after the wait for its failed attempts in a row, at once when the user cancelled its download, and after a second otherwise |
| TurnLaws.DelayDoubles | firmware/src/voice_turn_client.c:9-13 | the wait doubles from a second and stays at five |
| TurnLaws.WhomItCalls | firmware/src/voice_turn_client.c:243-277 | a due tick calls off a turn asked to be cancelled, looks up an unknown one, and fetches the sound of a known one that is due, or else its status, under its own id |
| TurnLaws.NotDue | firmware/src/voice_turn_client.c:237-242 | before its time a tick does nothing, and a turn that is over stays as it is |
| TurnLaws.LeftBehind | firmware/src/voice_turn_client.c:266-297 | status and error are those of the last answer, the id found is saved, and a ready turn has the question asked with its answer |
| TurnLaws.FailedWhy | firmware/src/voice_turn_client.c:166-173 | a turn that failed has an error, which past the deadline is the deadline |
| TurnLaws.SoundMeans | firmware/src/voice_turn_client.c:65-96 | sound is good exactly when it is complete, 24 kHz mono of 16 bits and its media type is audio/wav or audio/mpeg in any case, then nothing but blanks, or parameters at once |
| TurnLaws.StartsIff | firmware/src/voice_turn_client.c:190-208 | a turn starts exactly with callbacks and a good id, and with a good saved id or none |
| TurnMachine.Machine.constructor | firmware/src/voice_turn_client.c:190-208 | a client begins with the invariant of a turn and a deadline three minutes on, and waits exactly when it has callbacks and good ids |
| TurnMachine.Machine.Tick | firmware/src/voice_turn_client.c:234-300 | a tick keeps the invariant and the answers decide its outcome: a turn ends ready, ends cancelled and goes on exactly when `TurnLaws` says so, and has failed otherwise; a finished turn stays as it is, the deadline fails one, ready means a ready poll and exactly one good download, nothing is fetched once cancelled, ids are saved before use and cleared once |
| TurnMachine.Machine.RequestCancel | firmware/src/voice_turn_client.c:302-316 | once requested nothing more is fetched and the turn will not end ready; it waits exactly in the three cases above and is cancelled otherwise |
| TurnMachine.Machine.TakeQuestion | firmware/src/voice_turn_client.c:318-325 | a question comes exactly from a ready turn that was played and has one with a valid id that was not handed out before, and is gone afterwards |
| OtaProtocol.RunKeeps | firmware/src/voice_ota_esp.c:105-149 | every boot, confirmation and offer keeps the markers, slots and memory consistent with what was rolled back |
| OtaProtocol.RolledBackNeverReturns | firmware/src/voice_ota_esp.c:363-373 | across any number of boots, with power cuts anywhere but between selecting and noting, no rolled-back release is installed again and each installed one is newer than the running and the rejected one |
| OtaProtocol.RejectedNeverDecreases | firmware/src/voice_ota_esp.c:137-145 | the persistent rejected value never decreases, in any run, power cuts anywhere included |
| OtaProtocol.UnmarkedReturns | firmware/src/voice_ota_esp.c:363-368 | a power cut inside that window, or a note and a restoration that both fail, lets a rolled-back release return |
| OtaProtocol.RenewedReturns | firmware/src/voice_ota_esp.c:364-368 | so does a failed note where selecting the running slot again puts it back on trial |
| OtaProtocol.SafeOutcomesAreCareful | firmware/src/voice_ota_esp.c:363-373 | runs in which an installation may also end in a given way never reinstall a rolled-back release if and only if that way notes the attempt or takes the selection back at no cost |
| OtaProtocol.SettledIffPassed | firmware/src/voice_ota_esp.c:124-136 | a confirmation changes an image only from its trial to settled, and exactly when the main loop is ready, the self-test passed and the mark was made before the power failed |
| OtaProtocol.FailedTrialRollsBack | firmware/src/voice_ota_esp.c:124-136 | a trial boot without a passed self-test before the next reset always ends with that release rolled back and the one before it running, whatever else is tried meanwhile |
| OtaProtocol.ResetStarts | firmware/src/voice_ota_esp.c:105-117 | a reset of any other device starts what is selected, on trial if it is new, and gives up nothing |
| OtaProtocol.ReadyIff | firmware/src/voice_ota_esp.c:105-149 | a device becomes free to take offers exactly when its trial passed, a rolled-back attempt was rejected and a noted attempt was cleared, each before the power failed |
| OtaProtocol.InstalledWasWorth | firmware/src/voice_ota_policy.c:3-13 | in every run, whatever was installed came from an offer that was signed, compatible, of fitting size, newer than the running and the rejected release, and made on USB power while the device was idle and connected |
| OtaProtocol.WorthIff | firmware/src/voice_ota_policy.c:3-13 | an offer is installed exactly when all of that holds, and put off exactly when only the moment is wrong |
| OtaBoard.Board.ConfirmBoot | firmware/src/voice_ota_esp.c:105-149 | a confirmation keeps the invariant and never lowers the rejected value; an image goes from its trial to settled exactly when the records are readable, the main loop is ready, the self-test passed and the mark was made before the power failed, and no image changes otherwise; a device ready for offers runs a settled release with nothing noted, and what it found rolled back is rejected for good |
| OtaBoard.Board.TakeOffer | firmware/src/voice_ota_esp.c:363-373 | an offer is installed exactly when the device is ready and the offer is signed, compatible, fitting, newer and made at the right moment; what is then in the two slots, selected and noted is said for every outcome; whatever the outcome, what is installed is newer than every rolled-back release, and careful outcomes keep the invariant |
| CueOpus.DurationIsStandard | firmware/src/voice_cue_opus.c:5-12 | the duration test accepts exactly the packets that last 20 ms by sections 3.1 and 3.2 of RFC 6716 |
| CueOpus.TakenTile | firmware/src/voice_cue_opus.c:13-18 | packets taken one after another tile the bytes between the two cursors |
| CueOpus.TiledTaken | firmware/src/voice_cue_opus.c:13-18 | packets that tile the rest of the data are the packets taken |
| CueOpus.Parse | firmware/src/voice_cue_opus.c:19-29 | a file is accepted if and only if it is a good header followed by exactly the promised number of 20 ms packets tiling bytes 32 to its end; they are unique |
| CueOpus.ContainerIsFile | firmware/src/voice_cue_opus.c:19-29 | the files accepted are exactly those written field by field with counts in range, and the counts and packets read from one are those it was written with |
| CuePlayback.WindowGrows | firmware/src/voice_listening_cue.c:87-92 | one more decoded frame adds exactly its part of the window; the part is never backwards |
| CuePlayback.OpusCue.NextIsThere | firmware/src/voice_listening_cue.c:84-85 | a parsed cue never runs out of packets before its count |
| CuePlayback.OpusCue.DecodeNext | firmware/src/voice_listening_cue.c:83-93 | decoding a packet queues exactly its part of the window |
| CuePlayback.OpusCue.Offer | firmware/src/voice_listening_cue.c:94-99 | whatever the speaker takes, bytes taken and bytes queued make up the window so far |
| CuePlayback.OpusCue.Tick | firmware/src/voice_listening_cue.c:82-104 | every tick keeps that; when the cue is done the bytes written are exactly decoded samples preskip to preskip + samples, out of 480 for each packet; it is done exactly when all is decoded, taken and the speaker is dry, goes wrong only if the decoder or the speaker does, and with a speaker that takes everything decodes a packet with every tick |
| CuePlayback.OpusCue.AllHeard | firmware/src/voice_listening_cue.c:101-103 | with every packet decoded and every byte taken the speaker has all those samples and no others |
| CuePlayback.HeardLength | firmware/src/voice_listening_cue.c:89-90 | the window of a whole file is never cut short: it is samples preskip to preskip + samples |
| CueLease.RunBalanced | firmware/src/voice_listening_cue.c:5-63 | every start, tick and cancellation keeps leases and decoders balanced |
| CueLease.LeasesReleasedOnce | firmware/src/voice_listening_cue.c:5-63 | each lease handed in is given back exactly once, rejected starts included, but for the one a playing cue holds; decoder opens and closes balance |
| CueLease.CueEnds | firmware/src/voice_listening_cue.c:110-115 | any tick eight seconds or more after the start ends the cue, across clock wrap-around |
| CueLease.ListeningCue.LetGo | firmware/src/voice_listening_cue.c:5-9 | afterwards every lease handed in is back and every decoder closed |
| CueLease.ListeningCue.StartLeased | firmware/src/voice_listening_cue.c:19-28 | a start takes the lease over exactly when it may; otherwise the lease is back at once and the cue is as it was |
| CueLease.ListeningCue.StartOpusCue | firmware/src/voice_listening_cue.c:29-42 | the same, with one decoder opened exactly when the start succeeds |
| CueLease.ListeningCue.StartMp3Cue | firmware/src/voice_listening_cue.c:47-64 | the same, with one player opened |
| CueLease.ListeningCue.TickCue | firmware/src/voice_listening_cue.c:110-134 | a tick leaves the cue playing and untouched or nothing owed; within eight seconds it plays on exactly while its audio does and is done exactly when its audio is, and later it has failed |
| CueLease.ListeningCue.CancelCue | firmware/src/voice_listening_cue.c:105-109 | whatever was going on, a cancelled cue owes no lease and has no decoder open |
| CueBank.ReleaseTooMany | firmware/src/voice_cue_cache.c:16 | releases go by name and only count: one too many while somebody reads lets the next publication free the buffer in use |
| CueBank.SwapWhenUnused | firmware/src/voice_cue_cache_esp.c:198-210 | the bank changes as a whole exactly when no lease is out, and what it leaves behind is freed, or else what was loaded |
| CueWorld.PlayHanded | firmware/src/main.c:216-226 | a cue that is handed a lease just acquired holds it, or has given it back by name and the bank counts as before |
| CueWorld.PlayOn | firmware/src/voice_listening_cue.c:105-134 | a tick or a cancellation gives back the player's own lease or none |
| CueWorld.LocalStartKeeps | firmware/src/main.c:213-228 | acquiring, starting, being turned down and falling back to the tone keep the bank's count equal to the leases held |
| CueWorld.StartOutcome | firmware/src/main.c:216-228 | a playing cue goes on with what it plays; any other plays the slot's audio on a lease exactly when that can be played, and failing that the tone without one, except that plain samples of a bad size start nothing; nobody else's lease is touched |
| CueWorld.GiveUpKeeps | firmware/src/voice_cue_cache_esp.c:65-68 | so does the reading of a cue by the worker that stores it |
| CueWorld.ReadOutcome | firmware/src/voice_cue_cache_esp.c:272-285 | a free reader is handed the buffer of a filled slot, of plain samples if it takes no others, and nothing else; what it returns is the lease it holds |
| CueWorld.NothingFreedInUse | firmware/src/voice_cue_cache_esp.c:198-210 | over every run of starts, ticks, cancellations, readings, publications and swaps by any number of players and readers, a slot's readers are the leases in somebody's hands, each player's leases came back exactly once but for the one it holds, and no buffer in use is freed or replaced; only new memory is assumed to be new |
| CueBank.Slots.AcquireAudio | firmware/src/voice_cue_cache.c:31-36 | a lease of a filled slot is one more reader of its buffer, which is alive; readers stay the outstanding leases |
| CueBank.Slots.ReleaseNamed | firmware/src/voice_cue_cache.c:16 | a holder's release ends exactly its own lease, lowers the readers by one and frees nothing |
| CueBank.Slots.PublishCodec | firmware/src/voice_cue_cache.c:23-30 | a slot is replaced exactly when the data is of legal size and no lease is out, and no leased buffer is freed |
| Clock32.SinceIsElapsed | firmware/src/voice_wake_policy.c:38 | the 32-bit difference of two clock readings is the time between them, across wrap-around |
| WakePolicy.RunShape | firmware/src/voice_wake_policy.c:27-66 | from activation every run emits nothing, then a cancellation, or a start, nothing and at most one finish, then nothing for ever |
| WakePolicy.StalledCueEnds | firmware/src/voice_wake_policy.c:36-43 | with ticks at most g apart a run whose cue never completes ends less than 8000 + g ms after activation |
| WakePolicy.CommandEnds | firmware/src/voice_wake_policy.c:44-65 | and one whose cue completed ends less than 150 + max(10000, longest recording) + g ms later |
| WakePolicy.HoldIgnoresSilence | firmware/src/voice_wake_policy.c:59-65 | in hold mode silence alone never ends a recording |
| WakePolicy.SilenceEnds | firmware/src/voice_wake_policy.c:59-63 | otherwise a whole pause of silence does |
| WakePolicy.TickMeans | firmware/src/voice_wake_policy.c:27-66 | a tick starts a recording exactly on speech after the cue and its settling, within ten seconds and with nothing against it; finishes one exactly when the user is done, it is full, or it is automatic and a pause went by; cancels exactly on a failed or stalled cue, ten seconds without speech, or when called off |
| WakePolicy.VoiceWake.TickOnce | firmware/src/voice_wake_policy.c:27-66 | all that is ever said is one cancellation, or one start and one finish, and the state, the clock and the inputs say exactly when each comes |
| WakePolicy.VoiceWake.Wakeup | firmware/src/voice_wake_policy.c:16-21 | a run begins only from the armed state, with nothing said before, and never a second time |
| WakePolicy.VoiceWake.CueOver | firmware/src/voice_wake_policy.c:22-26 | the end of a cue matters only while one is playing, and its success decides between settling and failing |
| ActivityGate.OneOwner | firmware/src/voice_activity_gate.c:2-10 | in every interleaving at most one of voice, updater and store owns the gate, none but voice before the boot is confirmed, and between gate calls the main loop's flag is set exactly when the gate is held for voice |
| ActivityGate.ReleaseFindsOwnClaim | firmware/src/voice_activity_gate.c:6-10 | every release finds its own claim: none is refused and none frees another owner's |
| ActivityGate.ConfirmationMustStand | firmware/src/main.c:230-233 | this rests on the boot confirmation never being reset: between the main loop's test and its swap, flag and gate agree afterwards if and only if it still stands |
| ActivityGate.ResetWouldStick | firmware/src/main.c:230-233 | and there is a run in which a reset would leave the gate held with the flag cleared |
| ActivityGate.Feedback.ClaimGate | firmware/src/voice_feedback_policy.c:57-61 | the flag is set exactly while voice has the outstanding claim, after a claim too |
| ActivityGate.Feedback.ReleaseGate | firmware/src/voice_feedback_policy.c:62-64 | and after a release, which does nothing before the boot is confirmed |
| ActivityGate.Gate.Claim | firmware/src/voice_activity_gate.c:2-5 | a claim is granted exactly when nobody has one outstanding |
| ActivityGate.Gate.Release | firmware/src/voice_activity_gate.c:6-10 | a release takes back the caller's own outstanding claim and no other; voice keeps its claim until the boot is confirmed |
| ConfigForm.DecodeInverts | firmware/src/voice_config_form.c:5-24 | decoding inverts every percent and plus encoding of a string without control characters |
| ConfigForm.DecodeOnlyInverts | firmware/src/voice_config_form.c:10-19 | and takes nothing else: what else strtoul would read is never an allowed character |
| ConfigForm.DecodeComponent | firmware/src/voice_config_form.c:5-24 | the loop decodes into its buffer exactly the strings that fit with their terminator |
| ConfigForm.PasswordRule | firmware/src/voice_config_form.c:89-112 | for any fields in any order and number, after a successful form each slot's password is empty, typed in this form for that slot, or the old one under the old name |
| ConfigForm.TokenRule | firmware/src/voice_config_form.c:101-114 | the gateway address changes only together with a non-empty token given in the same form |
| ConfigForm.ReadField | firmware/src/voice_config_form.c:47-55 | one field is split and decoded, or refused |
| ConfigForm.ParseForm | firmware/src/voice_config_form.c:33-118 | the parsing loop gives exactly what the fields in order make of the settings |
| FormLaws.FormMeans | firmware/src/voice_config_form.c:33-118 | a form is accepted if and only if every field is in order, the button mode is given at most once, renamed networks come with a password or need none, a new address comes with a token and the result is valid; then each name, password, switch, time, address and token is the last one given, and what is not given is as it was |
| FormLaws.LastMeans | firmware/src/voice_config_form.c:44-103 | the last value given is that of a field after which no field gives one |
| FormLaws.FieldsRoundTrip | firmware/src/voice_config_form.c:44-55 | the fields that are sent, in any percent and plus encoding, are the fields that are read |
| FormLaws.NumberReads | firmware/src/voice_config_form.c:67-72 | a number reads as what its decimal digits say |

## Left out

- Upload.TerminatorMeansWholeRecording: safety only; that a well-behaved network does get the body out is shown for released recordings (`Upload.ReleasedCompletes`), not under a fairness assumption.
- Upload.NextKeepsInv: the two tasks are steps on values with sequentially consistent flags; the FreeRTOS stream buffer is a FIFO, so weaker memory orders and its internals are not modelled.
- Upload.MainStepEffect: the tests of several flags in one condition of the main loop are one step, so the worker does not run between them; steps that fail before the worker task is to be created are not modelled.
- Upload.TurnLeavesIff: a turn resumed after a restart, which uploads nothing, is not modelled.
- HttpChunk.WriteChunk: the size of the header buffer is not modelled, since the hexadecimal form of any size fits it.
- Resampler.Converter.Filter: samples and taps are reals, so single-precision rounding is not modelled; the filter coefficients are any 32 numbers.
- Mp3Stream.AcceptedIffLayout: the decoder is any deterministic function of the frames so far that takes valid frames, with at most 1152 samples per channel; a failing or overlong decode is modelled and fails the player.
- Mp3Player.Player.Decode: the gapless fields read from a Xing header are not modelled; nothing else reads them.
- JsonReader.StreamFlags: null arguments are not modelled, and the text is a C string without zero bytes.
- The metadata parser at firmware/src/voice_turn_follow_up.c:59-109: the same reader with other keys and a second object of them; its acceptance theorem would have the shape of `JsonTheorems.FlagsIff` over again.
- CueCache.Cache.RefreshAll: the leases there are at each switch are given in advance.
- CueCache.Cache.Refresh: fetching is a reply given in advance and the idle and ownership checks are a list of answers; manifests hold no zero byte; memory allocation does not fail.
- CueStore.LoadKeeps: the manifest parser, hash and trial decoding are deterministic functions; reads that fail for a passing reason are not modelled, only their consequence for cleaning.
- CueFlash.Flash.WriteFile: rename is atomic and steps reach the disk in order; directories and other non-regular files are not modelled.
- Opus and PCM cues kept by firmware/src/voice_cue_store.c are not part of this model.
- TurnClient.RunKeeps: 64-bit times do not overflow; callbacks answer as given and do not call back into the client.
- Making ids and URLs and reading the status and id out of a response (firmware/src/voice_turn_client.c:15-63, 116-156): plain string handling; the client is modelled on what they yield.
- OtaProtocol.RolledBackNeverReturns: a release carries its own sequence number, signatures and digests match, and the bootloader gives a new image one trial boot; whether selecting the running partition again starts a trial is a parameter.
- OtaProtocol.RunKeeps: the 30-second limit of a trial boot is a reset at any time; a flashed image without state counts as confirmed.
- CuePlayback.OpusCue.Tick: the decoder is a deterministic function of the packets so far; a wrong number of samples ends the cue in error.
- CueLease.ListeningCue.TickCue: what the audio of a tick comes to is a parameter; the two players are modelled on their own.
- CueBank.Slots.PublishCodec: buffers are names; the swap of the whole bank is a step on values only.
- CueWorld.NothingFreedInUse: the mutex makes each call on the bank one step; that the players' buffers are read only while leased is what holding means.
- WakePolicy.VoiceWake.TickOnce: times longer than 2^32 ms between two readings are not told apart, as in the code; which button edge finishes a recording is an input.
- ActivityGate.OneOwner: atomics are sequentially consistent single steps.
- ConfigForm.ParseForm: whether the resulting settings are valid as a whole is a parameter; characters are not limited to bytes.
- LCD, fonts, QR codes, web pages, HTTP headers, Wi-Fi, TLS, power, orientation, brightness and diagnostics: interface and plumbing without a protocol to prove.
- The native loopback build of firmware/src/main.c: only the device build is modelled.
