# Verified model of chan_quectel

chan_quectel connects Asterisk to Quectel and SimCom modems. This project models
the parts of it that hold state and have to keep that state right while bytes,
frames, answers and calls come in any order, and proves in Dafny 4.11 what they
are meant to guarantee. `dafny verify dfyconfig.toml` checks everything.

Two layers run through the project. Classes (`Ring`, `Monitor`, `MixBuffer`,
`TtyAudio`, `UacAudio`, `AtQueue`, `Cpvt` and `Pvt`, and the array methods of the
codecs) update their fields in place with the loops and branches of the C code.
Each is proved against a state machine or function on values. What the program
promises over whole runs is proved about those.

- **Ring buffer** (`Ring`, `RingSearch`): the ring is a byte queue at every read
  offset and in both write-cursor conventions; comparison and search over the seam
  give what they give on the queue, with the exact exceptions.
- **Response framing** (`Framing`, `Listings`, `FramingItems`, `FramingRuns`,
  `FramingLists`, `Monitor`): the recursive two-state parser and the drain loop of the monitor
  thread. The responses do not depend on how the bytes were cut into reads or where
  the ring started, but for the end of a listing, for which the exact places of the
  seam that hide it are given.
- **Audio** (`Mixing`, `MixSound`, `MixRepeat`, `MixBuffer`, `TtyAudio`,
  `UacAudio`): the shared mix buffer with cursors for every call, held calls and waiting ones included, the
  timer that drains it, conservation of samples, and the bounded retries towards a
  USB sound card.
- **Text codecs** (`Bits`, `Gsm7Alphabet`, `Gsm7`, `Hex`): 7-bit packing (sections
  6.1.2.1 and 6.2.1 of 3GPP TS 23.038) and in-place hexadecimal.
- **AT command queue** (`AtQueueSpec`, `AtQueueRuns`, `AtQueueCounters`,
  `AtQueueGaps`, `AtQueueJoin`, `AtSms`, `AtQueue`): one unanswered command at a
  time, order on the wire, counters, skipped commands, and the sending protocol of multi-part messages
  (section 4.3 of 3GPP TS 27.005).
- **Calls** (`CallSpec`, `CallRuns`, `CallCounts`, `CallMixer`, `CallMaster`,
  `CallAudio`, `CallDetails`, `Devices`): the call table, its counters and buffers,
  who gets the audio and what becomes of the sound card, and how a disconnect leaves
  nothing behind. `RoundRobin` selects a device for a
  call, and `SharedMarks` says what other requests do to its turns.

`Basics` holds the few datatypes and functions that several of them share.

Some promises of the program turned out not to hold in full. Each is proved with
the exact condition under which it does, mostly with an input that shows the failure:

- the search for a byte across the seam (`UntilCharExactIff`) and for patterns of
  more than two bytes (`UntilMemExactIff`). CR LF CR LF OK CR LF is one of the latter
  (`OkIsNotSeamSafe`): a complete answer to +CMGR or +CNUM is not reported when 3, 5,
  6 or 7 bytes of its end lie behind the seam (`EveryCutGivesTheItemsIff`,
  `MissedListing`), and two messages of a +CMGL list are handed on as one when the
  seam hides the header between them (`ListHandedOnIff`, `MergedEntries`);
- the audio of calls that write while their stream is not attached, because they are
  on hold or waiting: what they write is heard in place if and only if their cursors
  still fit the ring (`InPlaceIff`, `FrameHeardIff`). A held call that has used up its
  room is not heard at all, and drops the audio of the others
  (`HeldCallStarves`, `HeldCallExample`);
- at most one sample of a call at a time: a call that comes back from hold while its
  own samples are still in the buffer starts over in front of them and is mixed onto
  itself (`StepOnceIff`, `RunSingleIff`, `ReturnExample`);
- the overflow counter of the mixer, for frames that overflow by more than is
  buffered (`CounterIsExactIff`);
- the size check of `gsm7_pack`, which does not see escapes (`SizeCheckIff`,
  `SizeCheckMisses`), and the round trip of U+001B (`RoundTripIff`);
- the command counter, for at-once tasks that are charged more than once
  (`StepDriftIff`, `RunKeepsCountersIff`);
- commands that are answered without having been written, by late answers
  (`StepGapIff`, `AnsweredUnsentIff`, `LateAnswer`), and among them a prompt nobody
  asked for (`StepSmsIff`, `StrayPromptIff`);
- the call counters, when a dial is accepted after its call has vanished and its
  task belongs to `sys_chan` (`CountsStayIff`, `CountsDrift`);
- the mixer's stream list, when a call is freed because its dialplan did not start
  (`StepMixedIff`, `StrandedStream`) or is activated before the audio port is open
  (`ActivateMatchedIff`);
- the stop of the sound card with its master, when the dialplan of that call did not
  start (`StepStopsIff`, `AbandonExample`);
- the fairness of the device choice, when requests for overlapping SIM prefixes take
  turns (`TurnKeptIff`, `InTurnIff`, `Starved`).

## Model

| member | source | states |
|---|---|---|
| RingBuffers.SpanGathers | src/ringbuffer.c:44-62 | one or two entries around the end of the buffer hold, in order, the elements from the start position on |
| RingBuffers.SpansSplit | src/ringbuffer.c:245-266 | occupied and free span share no position and miss none |
| RingBuffers.Ring.ReadSlices | src/ringbuffer.c:44-86 | at every read offset the read entries are a prefix of the queue, of the length asked for |
| RingBuffers.Ring.WriteSlices | src/ringbuffer.c:245-266 | the entries offered to readv are the free elements in writing order, exactly the complement of what can be read |
| RingBuffers.Ring.ReadUpd | src/ringbuffer.c:205-231 | drops the oldest elements and no others; an emptied ring starts over; the cursor invariant stays |
| RingBuffers.Ring.WriteUpd | src/ringbuffer.c:268-289 | publishes what was put into the free slices at the end of the queue; the cursor goes on by as much, resting at the size when it gets there exactly |
| RingBuffers.Ring.WriteCore | src/ringbuffer.c:291-318 | accepts as much as is free and combines it with the elements at the write cursor, wherever that stands; on a ring whose cursors agree these are the free elements in writing order |
| RingBuffers.Ring.Write | src/ringbuffer.c:291-318 | the queue grows by exactly the accepted prefix of the data |
| RingBuffers.Ring.Fill | src/at_read.c:53-80 | what the device puts into the offered entries becomes the end of the queue, as far as it fits |
| RingSearch.MemCmp | src/ringbuffer.c:17-40 | the wrapped comparison is the prefix comparison on the queue |
| RingSearch.FindIs | src/memmem.c:37-68 | a first occurrence is determined by: the pattern occurs there and nowhere before |
| RingSearch.MemMem | src/memmem.c:37-68 | finds the first occurrence, or nothing when there is none |
| RingSearch.NpMemChr | src/ringbuffer.c:88-101 | finds the first such byte that only control characters precede |
| RingSearch.ReadUntilChar | src/ringbuffer.c:103-134 | the entries name exactly the positions in front of the byte that the search piece by piece finds |
| RingSearch.UntilCharExactIff | src/ringbuffer.c:103-134 | the search over the seam equals the search of the queue exactly when no printable byte ended the first piece while the second has a hit |
| RingSearch.ReadUntilMem | src/ringbuffer.c:136-203 | the entries name exactly the positions in front of the match over the two pieces and the seam; patterns of no and of one byte as in the source |
| RingSearch.UntilMemFirst | src/ringbuffer.c:136-203 | for every pattern: the first place where the pieces or the straddling comparison show a match is found, and nothing if there is none |
| RingSearch.TwoBytesAreSeamSafe | src/ringbuffer.c:158-181 | CR LF and every two-byte pattern is compared correctly at the seam |
| RingSearch.UntilMemExact | src/ringbuffer.c:136-203 | for a seam-safe pattern the result is the first occurrence in the queue, straddling matches included |
| RingSearch.UntilMemExactIff | src/ringbuffer.c:158-181 | seam-safety is also necessary: otherwise some split of the pattern itself is missed |
| Listings.OkStraddlesIff | src/ringbuffer.c:158-181 | of the straddles of CR LF CR LF OK CR LF, exactly those with 1, 2 or 4 bytes behind the seam are compared with the pattern's end |
| Listings.OkIsNotSeamSafe | src/at_read.c:204-212 | the pattern that ends a listing is not seam-safe |
| Listings.OkSearch | src/at_read.c:204-212 | of a listing without zeros and bare LF, the search finds the end as soon as all of it has arrived, unless 3, 5, 6 or 7 bytes of it lie behind the seam; it finds nothing too early |
| Listings.HeaderStraddlesIff | src/ringbuffer.c:158-181 | of the straddles of CR LF +CMGL: exactly that with 4 bytes behind the seam is compared with the pattern's end |
| Listings.HeaderSearch | src/at_read.c:213-224 | behind a message of a +CMGL list the search finds the next one's header as soon as all of it has arrived, unless 1, 2, 3, 5, 6 or 7 bytes of it lie behind the seam; it finds nothing too early, and no OK |
| Listings.LastSearch | src/at_read.c:213-224 | in the last message of a list and right behind it no header is found |
| Framing.ReadResult | src/at_read.c:152-245 | the recursion ends on every content; a wait keeps a valid ring, a result lies within the bytes that are there and consumes at least one |
| Framing.Drain | src/monitor_thread.c:287-303 | draining ends on every content |
| FramingItems.LineEnd | src/at_read.c:228-236 | of a partly arrived line, the first line end found ends exactly that line |
| FramingItems.NoiseIsDropped | src/at_read.c:184-200 | a line of control characters in front of an item is dropped up to its LF, wherever the seam falls |
| FramingItems.ResultStep | src/at_read.c:152-245 | one call waits and loses nothing, or reports the first item and stands in front of the next; a hidden end of a listing excepted |
| FramingRuns.DrainStep | src/monitor_thread.c:287-303 | one drain pass reports the next items of the stream and no others |
| FramingRuns.EveryCutGivesTheItemsIff | src/at_read.c:126-245 | for every list of lines, with and without CR LF in front, prompts, two-line items, listings and +CMGL lists, every cut into reads and every ring offset: the non-empty results are exactly the items if and only if no call meets a complete listing or message whose end the seam hides, or the end of a list with a later list's header in sight |
| FramingRuns.EveryPrefixGivesAPrefix | src/monitor_thread.c:284-303 | before all bytes have arrived the results of such runs are a prefix of the items |
| FramingRuns.ClearWithoutListings | src/at_read.c:194-241 | without listings and lists the condition holds for every cut and offset |
| FramingRuns.MissedListing | src/at_read.c:204-212 | a run from an empty ring: a complete answer to +CMGR, three bytes of its end behind the seam, of which only the prompt in front is ever reported |
| FramingLists.ListHandedOnIff | src/at_read.c:213-224 | for every +CMGL list, every cut and every ring offset: exactly the messages are handed on, in order, and then OK, if and only if no call meets a hidden end |
| FramingLists.DrainsList | src/monitor_thread.c:287-303 | with all messages arrived and no hidden end, draining hands on exactly these, in order, then OK |
| FramingLists.EntryCall | src/at_read.c:213-224 | a call inside a message reports this message, and leaves a queue that starts with +CMGL: or is OK CR LF, with the parser inside |
| FramingLists.OnePieceDrains | src/at_read.c:213-224 | a list that does not reach around the end of the ring always comes out message by message |
| FramingLists.MergedEntries | src/at_read.c:213-224 | a run from an empty ring in which two messages are handed on as one |
| MonitorThread.Monitor.AtRead | src/at_read.c:53-80 | as many bytes as fit are appended to the queue; -1 on a full ring or a device error |
| MonitorThread.Monitor.SecondEolPos | src/at_read.c:126-150 | the offset of the second line end of the queue, 0 without one |
| MonitorThread.Monitor.AtReadResultIov | src/at_read.c:152-245 | in place on the ring: the outcome, state and remaining queue of the parser, and entries that hold the reported bytes |
| MonitorThread.Monitor.InsideIov | src/at_read.c:194-241 | the inner state of the parser, in place |
| MonitorThread.Monitor.Take | src/at_read.c:110-124 | the combined entries are the first bytes of the queue, which then leave it |
| MonitorThread.Monitor.DrainLoop | src/monitor_thread.c:287-303 | hands on what the drain specification hands on, in order, and leaves the rest in the ring |
| MonitorThread.Monitor.Turn | src/monitor_thread.c:274-304 | one turn of the main loop is one read followed by one drain of the model |
| Mixing.MixIsExactIff | src/mixbuffer.c:31-42 | every mix on the way equals the plain sum if and only if no partial sum leaves the 16-bit range |
| Mixing.NearestSample | src/mixbuffer.c:31-42 | the saturated sum is the one sample nearest to the sum |
| MixSounds.WriteSound | src/mixbuffer.c:72-100 | a write of any stream, its cursors up to date or not, mixes its first samples into the live ones at its write cursor, loses those that fall on free positions, and appends the rest |
| MixSounds.WriteMoves | src/mixbuffer.c:72-100 | how far a write moves the cursors of the stream and the ring; all other cursors stay |
| MixSounds.InPlaceIff | src/mixbuffer.c:72-100 | what a write accepts stands in order where the used count says and later than all the stream wrote before, if and only if its cursors agree with the ring or it stands behind the last sample, and nothing of the stream is buffered from there on; the first holds for an attached stream, the last unless it came back early |
| MixSounds.ListSound | src/mixbuffer.c:12-27 | attaching and detaching are silent |
| MixSounds.AdvanceSound | src/mixbuffer.c:104-125 | reading removes the oldest samples and leaves the others as they were; only the cursors of attached streams follow |
| Mixing.RunKeepsInv | src/mixbuffer.c:12-125 | over every run of attached and detached writers every live position has a sample, and the cursors of attached streams lie on the ring |
| Mixing.StepOnceIff | src/mixbuffer.c:12-19 | no stream can write onto live samples of its own; a step ends this if and only if it attaches a stream some of whose samples are still in the buffer |
| MixRepeats.WriteSingleIff | src/mixbuffer.c:72-100 | a write gives a stream a second sample at some position if and only if one of its mixed samples falls on a live sample of the stream |
| MixRepeats.RunSingleIff | src/mixbuffer.c:12-125 | over every run of attached and detached writers a stream has at most one sample at a position if and only if no write did so |
| MixRepeats.RunKeepsOnce | src/mixbuffer.c:12-125 | no write does over every run in which streams are attached only when nothing of theirs is buffered |
| MixRepeats.ReturnExample | src/cpvt.c:236-241 | a run that comes to this: attach, write, hold, attach again and write before the timer; both samples go out at the same time, mixed |
| MixBuffers.MixBuffer.constructor | src/mixbuffer.h:27-32 | an empty ring without streams |
| MixBuffers.MixBuffer.Create | src/cpvt.c:55-96 | the zeroed stream of a new call, not attached |
| MixBuffers.MixBuffer.Attach | src/mixbuffer.c:12-19 | the same stream starts over at the read position, whatever it has in the buffer; the others keep their cursors |
| MixBuffers.MixBuffer.Detach | src/mixbuffer.c:23-27 | removes this stream only, and leaves its cursors as they are |
| MixBuffers.MixBuffer.MixWrite | src/mixbuffer.c:46-68 | with its cursors swapped into the ring the stream writes where its own cursor stands, and the ring's own cursors come back unchanged |
| MixBuffers.MixBuffer.Write | src/mixbuffer.c:72-100 | refines the mixer's write, for attached streams and for detached ones with stale cursors, the unsigned difference of the used counts included: the buffer holds the saturated sums in write order, and the returned count is the room of the stream |
| MixBuffers.MixBuffer.MoveCursors | src/mixbuffer.c:111-122 | every attached stream keeps used_s <= used and write_s = (read + used_s) mod size; detached streams are not visited |
| MixBuffers.MixBuffer.ReadUpd | src/mixbuffer.c:104-125 | refines the mixer's read, also when the ring empties and starts over at 0 |
| TtyAudios.WriteIsLater | src/channel.c:725-735 | no write, wherever its cursor stands, reaches a position that has gone out |
| TtyAudios.RunKeepsInv | src/channel.c:442-483 | over every run of attached and detached writers each position written was sent, dropped or is buffered, and every sample sent is the mix of all that was written to its place |
| TtyAudios.FrameIsSent | src/channel.c:455-464 | a frame carries, in order, exactly the samples entered as sent, and silence behind them, only when the buffer is empty |
| TtyAudios.RunCarries | src/channel.c:442-483 | over every run the frames without their silence are, one behind the other, the samples entered as sent |
| TtyAudios.FrameFits | src/channel.c:725-735 | a frame is taken whole if and only if it is no longer than the buffer, when the stream is attached, or than its room, when it is not |
| TtyAudios.FrameHeardIff | src/channel.c:725-735 | a frame is taken whole and heard in place if and only if nothing of the stream is buffered from its used count on, and it is attached and the frame no longer than the buffer, or it has room for it and cursors that fit the ring |
| TtyAudios.EventOnceIff | src/cpvt.c:236-241 | an event lets a stream reach its own samples if and only if it activates a call some of whose samples are still in the buffer |
| TtyAudios.RunHearsAttached | src/channel.c:725-735 | over every run without such an event, every frame of an active call no longer than the buffer is heard whole and in place |
| TtyAudios.HeldCallStarves | src/cpvt.c:163-189 | of a held call whose room is used up nothing is taken, nothing about it changes, and each of its frames drops as much of the audio of others |
| TtyAudios.HeldCallExample | src/channel.c:725-735 | a run that comes to this: fill the buffer, hold, drain, and the other call's frame is dropped by the held one's |
| TtyAudios.CounterIsExactIff | src/channel.c:728-733 | over every run the overflow counter is what was dropped if and only if every frame overflowed by no more than was buffered |
| TtyAudios.AttachedIsCovered | src/channel.c:728-733 | frames of attached streams no longer than the buffer meet that condition |
| TtyAudios.TtyAudio.WriteTty | src/channel.c:725-735 | refines the model's frame write for any call with a channel: oldest samples dropped first, then the frame mixed |
| TtyAudios.TtyAudio.TimingWrite | src/channel.c:442-483 | each tick sends exactly one frame: the oldest buffered samples, which are entered as sent, then silence; the frame statistics match |
| UacAudios.UacAudio.Write | src/channel.c:763-825 | the card hears a prefix of the frame without gap or repetition, all of it if and only if it can take it within 8 writes and one underrun; the statistics tell what was heard |
| UacAudios.UacAudio.Attempts | src/channel.c:780-809 | what was taken until the frame was complete, given up, or out of attempts |
| BitStrings.ValueOfBits | src/char_conv.c:152-166 | the bits of a number give the number back |
| BitStrings.BitsJoin | src/char_conv.c:158-160 | shifting a unit above the waiting bits appends its bits |
| BitStrings.StreamAt | src/char_conv.c:141-176 | unit k of a bit stream stands right behind the k units before it |
| Gsm7Alphabet.EncodingMeansIt | src/gsm7_luts.h:294-307 | the encoding tables and the decoding tables are inverse: every encodable character but U+001B is what its encoding means |
| Gsm7Alphabet.BasicIsEncodable | src/gsm7_luts.h:6-16 | every septet of the basic table has an encoding again |
| Gsm7Alphabet.ExtensionIsEncodableIff | src/gsm7_luts.h:294-307 | every assigned septet of the extension table has its encoding again; of the others only the last of each row, for the filler |
| Gsm7Alphabet.EscapeIsUnique | src/gsm7_luts.h:6-16 | only septet 27 reads as the escape |
| Gsm7.TextRoundTripIff | src/char_conv.c:119-139 | text comes back from its septets if and only if it has no U+001B |
| Gsm7.NeverReadsEscape | src/char_conv.c:205-228 | decoding never yields U+001B |
| Gsm7.CountsSeptets | src/char_conv.c:119-139 | the number of septets is one per character and one more per escape |
| Gsm7.Encode | src/char_conv.c:119-139 | -1 exactly for text with a character without encoding; otherwise the elements, also in place, and the number of septets |
| Gsm7.Pack | src/char_conv.c:141-176 | the bytes are padding bits, then the septets lowest bit first, then zeros; the result is the number of nibbles used; -1 exactly when the size check fails |
| Gsm7.UnpackDecode | src/char_conv.c:178-233 | writes the text of the septets that lie in the given nibbles; -1 exactly when it has no room left before the last nibble |
| Gsm7.SlackIsSmall | src/char_conv.c:172-175 | the reported nibbles leave at most 4 bits, too few for a septet |
| Gsm7.UnpackPacked | src/char_conv.c:141-233 | unpacking what was packed gives the septets and no spurious one, for every padding |
| Gsm7.RoundTripIff | src/char_conv.c:119-233 | encode, pack, unpack and decode give the message back if and only if it has no U+001B, for every padding from 0 to 6 |
| Gsm7.SizeCheckIff | src/char_conv.c:147-150 | what the size check lets through fits if and only if seven bits for every element with a high byte fit into what the check leaves over |
| Gsm7.SeptetsByEscapes | src/char_conv.c:154-165 | the number of septets is the number of elements and of those with a high byte |
| Gsm7.SizeCheckMisses | src/char_conv.c:147-150 | eight euro signs pass the check for 8 bytes and need 14 |
| Hex.Hexify | src/char_conv.c:94-103 | the text of the original bytes, also when both share one array |
| Hex.Unhex | src/char_conv.c:77-92 | the bytes and nibble count of the original text, also when both share one array; -1 exactly for a text with a non-digit |
| Hex.ParsesIff | src/char_conv.c:77-92 | a text is accepted if and only if it consists of digits |
| Hex.RoundTrip | src/char_conv.c:77-103 | unhex of hexify returns the bytes, with two nibbles each |
| Hex.LowerReads | src/char_conv.c:26-34 | lower-case digits are read like upper-case ones |
| Hex.TextIsUpper | src/char_conv.c:94-103 | only the digits 0 to 9 and A to F are written |
| AtQueueRuns.AddKeepsInv | src/at_queue.c:67-107 | priority insertion or not, the head stays the head and the order on the wire is kept |
| AtQueueRuns.RunKeepsInv | src/at_queue.c:41-230 | over every run cindex < cmdsno for queued sequential tasks, at_tasks is the queue length, only the head has been written, and each task's writes are its commands in order, each once, uninterrupted by others |
| AtQueueRuns.OneUnanswered | src/at_queue.c:168-230 | a written and unanswered command is the head task's current one |
| AtQueueRuns.WritesTogether | src/at_queue.c:168-230 | between two writes of a task there is no write of another |
| AtQueueCounters.RunKeepsCounters | src/at_queue.c:41-141 | over every run of sequential tasks at_tasks is the queue length and at_cmds the sum of cmdsno - cindex |
| AtQueueCounters.StepDriftIff | src/at_queue.c:109-155 | a step keeps at_cmds right if and only if no response, timeout or failed write charges an at-once task that was charged before |
| AtQueueCounters.RunKeepsCountersIff | src/at_queue.c:41-230 | over every run, at-once tasks included, at_cmds stays right if and only if no step does so |
| AtQueueGaps.AnsweredUnsentIff | src/at_response.c:183-193 | a command counts as answered without having been written if and only if it stands unwritten at the head and expects a result that the response stands for |
| AtQueueGaps.StepGapIff | src/at_queue.c:109-230 | a step leaves a gap in what is written of a task if and only if the next command is written after such an answer, or a command whose failure is ignored could not be written |
| AtQueueGaps.RunKeepsNoGap | src/at_queue.c:109-230 | over every run without such a step, what is written of each sequential task is all its commands up to some one |
| AtQueueGaps.LateAnswer | src/monitor_thread.c:77-95 | a run that comes to this: the answer of an expired command is taken for the first command of the next task, which is never written |
| AtQueueGaps.AtOnceLeavesIff | src/at_queue.c:109-155 | an at-once task leaves the queue with a result if and only if it is expected, errors are ignored, or it is a timeout, and with a failed write if and only if errors are not ignored |
| AtQueueJoin.JoinedIff | src/at_queue.c:176-191 | behind AT the pieces between the semicolons are the commands of the task if and only if no command has a semicolon |
| AtQueueJoin.AtOnceLine | src/at_queue.c:176-200 | an at-once task goes out as one line that begins with AT, holds its commands and ends with CR |
| AtSms.BuildMessage | src/at_command.c:509-539 | the command array is, for each part in order, AT+CMGS= with the length as a decimal number and CR, then a text that unhexes to the octets of the part, ended by Ctrl-Z |
| AtSms.DecimalIff | src/at_command.c:462-466 | the length is written in the one usual way: digits that read, from the left in base ten, as the number, and no leading zero |
| AtSms.MessageIsSms | src/at_command.c:440-469 | announcements expect the prompt, texts expect OK, none is ignored on error |
| AtSms.RunKeepsSms | src/at_queue.c:109-230 | over every run without a stray prompt what was written of each message is a contiguous prefix of CMGS 1, text 1, CMGS 2, text 2, ... |
| AtSms.StepSmsIff | src/at_response.c:1799-1805 | a step keeps all messages in order if and only if it is no prompt that finds a message with an unwritten announcement at the head and is followed by a write that works |
| AtSms.SmsWriteCause | src/at_response.c:1770-1810 | in every step: a text is written only by the prompt, a further announcement only by an OK |
| AtSms.GoneForever | src/at_queue.c:41-65 | a message that left the queue never writes again |
| AtSms.EndsForGood | src/at_response.c:564-574 | an error, a timeout, a disconnect or any failed write, at an insertion or after a prompt or an OK, lets no later command of the message out, whatever follows |
| AtSms.StrayPromptIff | src/at_response.c:1799-1805 | a prompt for an announcement that is not written breaks the order if and only if the text can then be written |
| AtSms.LastPartIff | src/at_response.c:1426-1440 | with a text in flight, partno equals partcnt if and only if the whole message has been written |
| AtSms.Completes | src/at_response.c:183-193 | answered by prompt and OK in turn, the whole message goes out |
| AtQueues.AtQueue.Add | src/at_queue.c:67-107 | refines insertion: behind the head with priority, else at the tail |
| AtQueues.AtQueue.RemoveCmd | src/at_queue.c:109-141 | refines the result step, for sequential and at-once tasks |
| AtQueues.AtQueue.RemoveTaskAtOnce | src/at_queue.c:143-155 | refines the failed write of an at-once task |
| AtQueues.AtQueue.Run | src/at_queue.c:168-230 | refines the write step: one write at most, data released after it, a failure treated as a result |
| AtQueues.AtQueue.Flush | src/at_queue.c:317-322 | empties the queue |
| AtQueues.AtQueue.AtResponse | src/at_response.c:2765-2862 | only expected answers, errors, timeouts and prompts move the queue |
| AtQueues.AtQueue.ResponseTask | src/at_response.c:3054-3072 | one response followed by one run of the queue is one step of the model |
| AtQueues.AtQueue.CmdTimeout | src/monitor_thread.c:77-95 | a written head command times out; an unwritten one is left alone |
| CallMaster.CaptureRuns | src/pcm.c:300-333 | starting capture, with its repetition, succeeds if and only if the stream ends up RUNNING, from every state and with every answer of the library |
| CallAudio.CaptureIff | src/pcm.c:300-333 | starting capture works if and only if the first attempt does, or is interrupted and the second one works; from closed, paused and draining streams it never does |
| CallAudio.CaptureRetried | src/cpvt.c:251-254 | an interrupted first attempt followed by a working second one ends RUNNING |
| CallMaster.Takeover | src/cpvt.c:191-277 | taking over ends with exactly this call as master on a running capture, with the descriptors of the card and the timer, or returns -1 with no master; no other channel keeps a descriptor |
| CallMaster.StepStopsIff | src/cpvt.c:147-277 | a step drops the streams exactly when it deposes the current master, and then once, if and only if it does not free a master whose dialplan could not start |
| CallMaster.AbandonExample | src/at_response.c:929-931 | a run that comes to this: an incoming call takes the card and is freed, and capture runs on for a device without calls |
| CallAudio.StepStreams | src/cpvt.c:147-277 | a step that deposes a master leaves each open and connected stream whose drop works in SETUP, capture to be started from there if another call takes it; any other step leaves both streams, but for a capture that is started, an unplugged device and what the card does itself |
| CallAudio.AudioGoesTo | src/cpvt.c:345-411 | after a change to DIALING, ALERTING, INCOMING or ACTIVE a call with a channel and an open port is active, master and polls the audio descriptor, if and only if capture runs; in TTY mode always |
| CallAudio.AudioLeaves | src/cpvt.c:163-189 | after ONHOLD it is neither active nor master; in UAC mode its channel polls nothing |
| CallAudio.AudioStays | src/cpvt.c:345-411 | the other states change nobody's audio |
| CallAudio.RunKeepsHeld | src/cpvt.c:345-411 | over every run no live call on hold is active or master |
| CallAudio.TakeoverInTty | src/cpvt.c:205-273 | in TTY mode the new master reads the port and has the timer, the other active calls read their pipes |
| CallAudio.NewCallWaits | src/channel.c:1009-1078 | the channel of a new call that is not heard yet reads the serial port but not the sound card |
| CallMaster.LateHold | src/cpvt.c:163-189 | a late hold, release or hangup of a call that is not master leaves the card and the master with its descriptors untouched |
| CallMaster.RunKeepsOwner | src/cpvt.c:191-277 | over every run there is at most one master, it is activated, and in UAC mode a channel polls the PCM descriptor if and only if its call is master |
| CallRuns.ChangeStateKeeps | src/cpvt.c:322-442 | a state report changes the state of this call only; a release removes this call only |
| CallRuns.OwnedRelink | src/cpvt.c:112-122 | freeing a call leaves no task that refers to it |
| CallRuns.RunKeepsInv | src/cpvt.c:55-145 | over every run: chansno is the number of calls, no live call is RELEASED, buffers exist iff a call is live, every task has a live call or sys_chan, flags and descriptors agree |
| CallRuns.DisconnectKeeps | src/chan_quectel.c:97-182 | disconnecting leaves no call, no task, no buffer, no open audio, and resets the dialing, ring and waiting flags |
| CallDetails.StepFlags | src/cpvt.c:291-320 | dialing, ring and cwaiting are reset in exactly the steps that answer or end a call that was being set up, rang or waited, or unplug the device |
| CallDetails.StepTimer | src/chan_quectel.c:442-459 | a device that mixes has, with its first call, the timer it got |
| CallDetails.RunKeepsTimer | src/chan_quectel.c:442-459 | and keeps it over every run as long as it has calls |
| CallDetails.HangupAsks | src/channel.c:314-350 | a hangup that is wanted is queued behind the head task, and wanted on unless it was accepted |
| CallDetails.NoChannelAsks | src/cpvt.c:322-343 | a call without a channel is hung up through sys_chan in every state but ACTIVE and RELEASED |
| CallDetails.OrphanAsks | src/at_response.c:326-328 | so is a dial that is accepted when its call has vanished |
| CallCounts.RunKeepsCounts | src/cpvt.c:291-320 | over every run chan_count[s] is the number of live calls in s, up to the one-off shift after an orphaned dial |
| CallCounts.CountsStayIff | src/at_response.c:326-328 | a step keeps the counters equal to the live calls if and only if it does not accept a dial owned by sys_chan |
| CallCounts.CountsDrift | src/at_response.c:326-328 | a run of two steps after which a device without calls has one counted as dialing |
| CallMixer.RunKeepsMixed | src/cpvt.c:163-277 | over every run that strands no stream, the mixer's list is exactly the activated calls, without duplicates, and attached is its length |
| CallMixer.StepMixedIff | src/at_response.c:929-931 | a step breaks this if and only if it frees an activated call after ast_pbx_start failed, with other calls in the mixer |
| CallMixer.StrandedStream | src/at_response.c:929-931 | a run that comes to this: two incoming calls, the dialplan of the second does not start, and its stream stays in the mixer |
| CallMixer.ActivateMatchedIff | src/cpvt.c:236-244 | activation keeps the match if and only if the audio port is open or the call needs no attaching |
| Basics.Unlinked | src/mixbuffer.c:23-27 | detaching removes exactly this stream |
| Devices.Cpvt.GiveUpMaster | src/cpvt.c:205-234 | what another call loses at a takeover |
| Devices.Pvt.TakeFromOthers | src/cpvt.c:205-234 | the traversal demotes every other call, leaves this one, and notices a former master |
| Devices.Pvt.StartCard | src/cpvt.c:249-254 | the card's state and result after at most two attempts |
| Devices.Pvt.CallActivate | src/cpvt.c:191-277 | refines the model's takeover on the call objects in place |
| Devices.Pvt.CallDisactivate | src/cpvt.c:163-189 | refines the model's deactivation |
| Devices.Pvt.RelinkTasks | src/cpvt.c:112-122 | every task of the call, and no other, goes to sys_chan |
| Devices.Pvt.DecreaseCounters | src/cpvt.c:98-110 | removes exactly this call and counts it out |
| Devices.Pvt.FreeCall | src/cpvt.c:124-145 | refines the model's removal, with buffers and timer gone after the last call |
| Devices.Pvt.AllocCall | src/cpvt.c:55-96 | refines the model's insertion, with buffers and mixer set up by the first call |
| Devices.Pvt.UpdateStateFlags | src/cpvt.c:291-320 | counters and device flags of a state change |
| Devices.Pvt.CallChangeState | src/cpvt.c:413-442 | refines the model's state change |
| Devices.Pvt.ChannelHangup | src/channel.c:314-350 | refines the model's local hangup; the need-hangup flag stays when the hangup could not be queued or written |
| Devices.Pvt.ChannelNew | src/channel.c:1009-1078 | refines the model's creation of a call, also when there is no channel for it |
| Devices.Pvt.DisconnectPvt | src/chan_quectel.c:97-182 | refines the model's disconnect, whose loop frees calls while it walks over them |
| Devices.Pvt.IsDialPossible | src/chan_quectel.c:509-553 | a call may be placed if and only if no call is being set up, active and held calls do not mix, and any of them comes with call waiting |
| RoundRobin.Pick | src/chan_quectel.c:758-774 | the choice is the first usable candidate in probing order, none only if none is usable |
| RoundRobin.LastUsedOfOne | src/chan_quectel.c:741-756 | a single mark is found again |
| RoundRobin.ProbesDiffer | src/chan_quectel.c:758-774 | a request probes no device twice |
| RoundRobin.ChosenWithin | src/chan_quectel.c:733-775 | a device that stays available is chosen within its distance from the last used one by requests that follow each other |
| RoundRobin.Fairness | src/chan_quectel.c:733-775 | among c candidates a device that stays available is chosen in any c requests that follow each other, whatever happens to the others |
| RoundRobin.EveryoneInTurn | src/chan_quectel.c:733-775 | with all available, c requests that follow each other choose every candidate, the last used one last |
| RoundRobin.CandidatesDistinct | src/chan_quectel.c:741-756 | no device is listed twice |
| RoundRobin.CandidatesAre | src/chan_quectel.c:733-756 | the candidates are the first 128 devices of the group, of the provider, or whose IMSI begins as asked |
| RoundRobin.Collect | src/chan_quectel.c:737-756 | lists the first 128 selected devices and takes their marks away |
| RoundRobin.Probe | src/chan_quectel.c:758-774 | probes in cyclic order from the one behind the last used, and marks the chosen one |
| RoundRobin.Find | src/chan_quectel.c:733-855 | for groups, providers and SIMs: the device found is usable and of the group, of the provider, or begins with the IMSI asked for, and none is found only if none of the first 128 such is usable; each candidate is probed at most once and in order; of all marks of all devices, those of the candidates go and the chosen one's is set |
| SharedMarks.MarksBetween | src/chan_quectel.c:815-855 | what a request in between does to the marks of another request's candidates |
| SharedMarks.OnlyPrefixesOverlap | src/chan_quectel.c:733-855 | only requests by SIM prefix touch the candidates of another one |
| SharedMarks.TurnKeptIff | src/chan_quectel.c:815-855 | such a request leaves the turn where it was if and only if it marks no later candidate and takes the last mark only to give it back |
| SharedMarks.FairnessAmong | src/chan_quectel.c:815-855 | with requests in between that leave the turn where it was, fairness holds as without them |
| SharedMarks.InTurnIff | src/chan_quectel.c:815-855 | with all available, the candidates are chosen in turn if and only if no request in between moves the turn |
| SharedMarks.SecondOnly | src/chan_quectel.c:815-855 | requests for s:2 and s:22 overlap on devices with numbers 21... and 22... |
| SharedMarks.Starved | src/chan_quectel.c:815-855 | when these take turns, those for s:2 always choose the first device |

## Left out

- Threads and locks: each function that runs under the device lock is one atomic step.
- PDU building and parsing (src/pdu.c) and the message database (src/smsdb.c): a message is a list of parts with given PDUs.
- UTF-8 and UCS-2 conversion by iconv, and opening and configuring the sound card (pcm_init): foreign libraries.
- src/tty.c, src/eventfd.c, src/cli.c, src/app.c and the parsing of single answers in src/at_parse.c: system calls, user interface, and functions of one line of text.
- Asterisk channels beyond their two descriptors, JSON reports, dialplan calls and log output.
- The other language tables of src/gsm7_luts.h: only the default alphabet and its extension are modelled.
- FramingRuns.EveryCutGivesTheItemsIff: the text of a listing or message has no zero byte and no LF without a CR in front, its OK follows it, and no line of a message begins with +CMG+C or +CMCMG, which the search across the seam may take for a header.
- Framing assumes a ring that never fills; a full ring ends the main loop, as `Monitor.AtRead` says.
- `char` is signed: bytes from 128 on are not printable to the search for a byte.
- Framing.Image: the memory behind a pattern is a parameter, because the seam search reads past the pattern's tail.
- MixBuffers: buffers shorter than 2^64 samples, the range of the unsigned difference in `mixb_write`.
- Mixing: whole 16-bit samples; a write with an odd number of bytes, whose last byte the sum leaves out, is not modelled, and neither is the volume adjustment in front of the mixer.
- TtyAudios: what the serial port accepts of a frame is a parameter that only the frame counter uses.
- UacAudios: playback with several channels repeats the same samples; only one is modelled, and a negative sample count is not.
- Gsm7.Pack: demands room for the escapes, which the size check of the source does not ensure (`SizeCheckIff`), and takes numbers where the source shifts and masks a 32-bit accumulator that never overflows.
- Gsm7.UnpackDecode: nibble counts below 2 return early as in the source; shift tables other than the default are not modelled.
- Counters are unbounded integers; wrap-around after 2^32 steps is not modelled.
- Failed memory allocations, except that a new call may get no channel.
- AtSms.RunKeepsSms: for runs without a stray prompt; `StepSmsIff` says exactly which steps break the order, and the queue invariants need no such assumption.
- AtQueueSpec.Respond: when a prompt for +CNMA makes it insert an escape, the run of the queue inside that insertion is taken to work.
- at_queue_run_immediately, whose output no later step reads.
- AtQueueCounters.RunKeepsCounters: sequential tasks only; `RunKeepsCountersIff` is exact for at-once tasks too.
- AtQueueGaps.RunKeepsNoGap: for runs without a gap; `StepGapIff` says exactly which steps leave one.
- CallSpec: task owners and mixer streams are named by call number instead of address, and of a queued task only its owner is kept; whether at_queue_run after an insertion fails is the step TaskDone.
- CallSpec: a failing dial of sys_chan itself, pvt_try_restate, the device flags set by handle_clcc, and reopen_audio_port, which replaces the descriptor under live calls, are not modelled.
- MixRepeats.RunKeepsOnce: for runs in which no stream comes back early; `RunSingleIff` is exact for every run.
- SharedMarks.FairnessAmong: for requests in between that leave the turn where it was; `InTurnIff` says when that is needed.
- CallMixer.RunKeepsMixed: for runs without a stranded stream and with an open port; the iff lemmas give both conditions.
- RoundRobin: groups, provider names and SIM numbers do not change between the requests of the fairness theorem, and devices beyond the first 128 of a selection are never candidates, as in the source.
