# psplay: the transmit codec and the playback protocols

A Dafny model of the two cores of psplay, and proofs about it.

**The transmit codec** (`bitstream.c`, `x8b10b.c`, `x8b10b_tables.h`, `framer.c`, `fsk.c`).
Bytes are numbers below 256, memory is `array<Byte>`, and every shift, mask, merge and truncation
of the C code is written out bit by bit in `Bits.dfy`.  `bitwise_copy` keeps its two nested loops
and its 16-bit register, and is proved against a copy of one bit at a time.  The bit stream, the
framer and the transmitter are classes with the fields of the C structures; each method is proved
against a bit list with a cursor.  Above them the line code is studied as a function from bytes to
bits, over every sequence of bytes: running disparity, run length, the comma, decodability, and
finally a receiver that recovers header and payload from the symbols sent.

**The protocols** (`ping_pong_buf.c` and `bitbang_player.c`, `ftimer.c` and `multi_tone_gen.c`,
`cpu_spinner.c`).  Each is a state machine with one step per statement: a program counter per
thread (the comment beside each value is its source line), the owner of every mutex and the wait
set of every condition variable.  Threads interleave freely, and a waiting thread may wake
spuriously at any time.  A theorem about `Run(Init(...), acts)` with `Legal(..., acts)` speaks of
every reachable state, because `acts` ranges over every interleaving.  `Playback.dfy` puts the
player on the real ping-pong buffer, every call carried out statement by statement, and shows the
result to be a run of the player over a queue of two blocks; the timers of `MultiTone.dfy` are
those of `FTimer.dfy`, and `OnAir.dfy` puts the sending loop of fsk.c on those and on a symbol
timer.

| file | about |
|---|---|
| `Bits.dfy`, `BitCopy.dfy`, `BitStream.dfy` | machine words, `bitwise_copy`, the bit stream |
| `Tables.dfy`, `X8b10b.dfy`, `Runs.dfy`, `LineCode.dfy` | the 8b/10b tables, encoder and decoder; scanning for runs and commas; whole streams |
| `Framer.dfy`, `Fsk.dfy`, `Receiver.dfy` | the frame, the symbols, end to end |
| `PingPong.dfy`, `Player.dfy`, `Playback.dfy`, `Stop.dfy` | the buffer, the player over a queue, the player on the buffer, when stop stops it |
| `FTimer.dfy`, `MultiTone.dfy`, `OnAir.dfy` | the timer, the generator that lets one of n timers run, and a stream sent with them |
| `Spinner.dfy` | the core spinner |

## What the code does not do

Three properties one would expect are false of the code.  Each has a concrete counterexample, and
the exact condition under which it does hold.

- *A frame that passes the capacity test fits.*  The ten bits of the delimiter are missing from
  `len` (framer.c:71-73 against framer.c:93), so the length returned is ten bits short and the
  test ten bits too weak.  `Framers.PreCheckTooWeak` shows a message that passes and then aborts
  half way; `Framers.Framer.Frame` says exactly when that happens: only with a header, and only
  when the room exceeds the test by less than ten bits.
- *Every accepted control symbol can be told apart.*  K.x.2 has the entry 0x8a at positive
  disparity (x8b10b_tables.h:83), that of K.x.5, so K28.2 and K28.5 collide
  (`X8b10b.ControlsCollide`); and K23, K27, K29 and K30 are accepted with any y (x8b10b.c:70) and,
  unless y is 7, have the symbol of a data byte.  `X8b10b.ControlToldApart` says exactly which
  control bytes can be told apart.  Data bytes and K28.1, which is all the framer sends, always
  can (`X8b10b.DataDecodes`, `X8b10b.DelimiterDecodes`).
- *`bitbang_player_stop` stops the play.*  It looks at the state twice without the mutex; when a
  tick turns PLAYING into STALLED in between, it returns having done nothing
  (`Stop.StopCanMiss`).  `Stop.StopExactly`: it is known to stop the play exactly when it is called
  with the player STALLED and both slots of the buffer free; from every other state some
  interleaving makes it miss.

## Model

| member | source | states |
|---|---|---|
| BitCopy.BitwiseCopy | bitstream.c:9-48 | in place, min(count, src_cap - src_offset) bits are copied as if one at a time, or the destination is left alone and E2BIG returned; both loops terminate |
| BitCopy.StoreChunk | bitstream.c:32-45 | one masked store of the inner loop is that many single-bit stores |
| BitCopy.LoadRegister | bitstream.c:24-29 | what the outer loop puts into the 16-bit register is the next slice of the source, nothing truncated |
| BitCopy.MoveChunk | bitstream.c:31-44 | one pass of the inner loop moves the low register bits on and leaves the others in order |
| BitCopy.StoredBits | bitstream.c:35-37 | of memory after a copy: bits below the offset kept, the next equal to the source bits, the rest of the last byte zero |
| BitCopy.StoredBytes | bitstream.c:35-37 | bytes past the last bit copied are untouched |
| BitStreams.BitStream.constructor | bitstream.c:50-60 | an empty bit list of the given capacity, cursor at its start |
| BitStreams.BitStream.Write | bitstream.c:66-74 | the bits are appended whole, or the stream and its memory stay as they were and E2BIG is returned; 0 <= pos_read <= len = pos_write <= cap is kept |
| BitStreams.BitStream.WriteN | bitstream.c:76-79 | appends the low min(64, n) bits of a number, least significant first |
| BitStreams.BitStream.Read | bitstream.c:81-87 | delivers the bits ahead of the cursor, at most up to len, into the caller's memory and advances past them |
| BitStreams.BitStream.Seek | bitstream.c:89-95 | the cursor moves to the position asked for, or to the end |
| BitStreams.BitStream.WriteStr | bitstream.c:110-119 | appends one bit a character up to the first that does not fit |
| BitStreams.Appended | bitstream.c:66-74 | copying bits in at the write position appends them to the bits already held, at any offset |
| BitStreams.ReadIntoZeros | bitstream.c:81-87 | a read into zeroed memory leaves the bits delivered and then zeros |
| BitStreams.RunKeepsWrites | bitstream.c:66-95 | over any run of writes, reads and seeks the stream holds the accepted writes in order |
| BitStreams.ReadsInOrder | bitstream.c:81-87 | reads of any sizes deliver the bits in order and stop exactly at len |
| BitStreams.WriteSeekRead | bitstream.c:66-95 | after any run, seek(0) and reads of any sizes return the accepted writes |
| BitStreams.SeekThenRead | bitstream.c:81-95 | reads after a seek deliver the bits from that position on, and nothing after a seek past the end |
| BitStreams.TextBits | bitstream.c:110-119 | writing the text of a bit string appends that bit string; any other character counts as a one |
| X8b10b.Enc | x8b10b.c:41-93 | the imperative encoder computes the encoding function; a rejected byte leaves code and disparity alone |
| X8b10b.AcceptedBytes | x8b10b.c:49-50 | every data byte is accepted, and exactly the control bytes K23, K27, K28, K29 and K30 with any y |
| X8b10b.CodeSpellsGroup | x8b10b.c:81 | the code word spells abcdei then fghj, a in the highest bit |
| X8b10b.GroupDisparity | x8b10b.c:49-79 | for data and K28.1: rd stays at plus or minus one, changes by the symbol's ones minus zeros, and every bit-by-bit sum stays within three |
| X8b10b.AlternateSeven | x8b10b.c:60-70 | for every D.x.7 and disparity, which of the two codes is sent: 0111 or 1000 exactly when the other would follow two bits equal to its first |
| X8b10b.NeutralBlocks | x8b10b_tables.h:25-87 | the balanced sub-blocks with two forms: 000111 and 0011 only at positive disparity, 111000 and 1100 only at negative |
| X8b10b.DataDecodes | x8b10b.c:41-93 | a data byte is decoded to itself whichever disparity produced it |
| X8b10b.DelimiterBits | x8b10b_tables.h:25-87 | K28.1 starts with the comma, at either disparity, and flips it |
| X8b10b.DelimiterDecodes | x8b10b_tables.h:25-87 | K28.1 is decoded as the delimiter at either disparity |
| X8b10b.ControlsCoincide | x8b10b_tables.h:25-87 | two accepted control bytes share a symbol exactly when they are K.x.2 and K.x.5 of the same x, at negative disparity |
| X8b10b.ControlAgainstData | x8b10b_tables.h:25-87 | exactly which data byte, at which disparity, has the symbol of a control byte: none for K28.y and K.x.7, one for the others |
| X8b10b.ControlReadsAsData | x8b10b_tables.h:25-87 | an accepted control byte shares its symbol with some data byte exactly when it is no K28.y and no K.x.7 |
| X8b10b.ControlToldApart | x8b10b.c:41-93 | exactly which accepted control bytes have a symbol that nothing else accepted has at that disparity: every K28.y but K28.2 and K28.5 at negative disparity, and of the others K.x.7 |
| X8b10b.ControlsCollide | x8b10b_tables.h:83 | a concrete collision: K28.2 and K28.5 at negative disparity |
| Runs.SymbolRuns | x8b10b.c:60-68 | a data symbol begun at a symbol boundary adds no run of six and no comma, boundaries and alternate 7 included, and ends at a symbol boundary |
| Runs.ScanMeaning | x8b10b.c:41-93 | the scanner's state is the last run of the bits scanned, and whether the run before it was longer than one |
| Runs.SixEqualScan | x8b10b.c:41-93 | six equal bits end where the scanner's run is six or more |
| Runs.CommaScan | x8b10b.c:41-93 | a comma ends where the run is exactly five after a run of two or more |
| LineCode.EncodeJoin | framer.c:39-48 | the disparity threads from one chunk into the next: encoding a concatenation is concatenating the encodings |
| LineCode.ChunkDisparity | framer.c:39-48 | after any chunk rd is its start value plus the imbalance of all bits emitted, and plus or minus one |
| LineCode.StreamBalance | framer.c:91-109 | after every single bit of the delimiter and any data, the sum from the starting disparity is within three of zero, and at the end it is rd |
| LineCode.RunLength | framer.c:91-109 | no six consecutive bits of the delimiter and any data are equal |
| LineCode.CommaOnce | framer.c:91-109 | the comma occurs in them exactly once, at the start |
| LineCode.DecodeEncoded | framer.c:39-48 | any chunk encoded from any disparity and padded with any number of zeros is decoded to the chunk |
| Framers.Rev10SpellsGroup | framer.c:21-37 | rev10b makes the word whose bits, least significant first, are the symbol, a first |
| Framers.Write8b10b | framer.c:32-37 | appends the symbol or nothing; rd advances either way |
| Framers.Write8b10bChunk | framer.c:39-48 | appends the encoding of the whole chunk and threads rd through it, or changes neither stream nor rd |
| Framers.Framer.Frame | framer.c:60-114 | which sizes are refused with which error and nothing written; otherwise the whole frame is appended and the promised length returned exactly when the frame fits; otherwise the call aborts, only with a header and less than ten bits of slack |
| Framers.Framer.WritePreamble | framer.c:86-89 | appends exactly the preamble, never failing after the capacity test |
| Framers.Framer.WriteHeader | framer.c:91-98 | appends delimiter and header and leaves rd for the payload; fails exactly when they do not fit |
| Framers.Framer.WritePayload | framer.c:100-109 | appends the payload raw or line-coded from the header's rd; fails exactly when it does not fit |
| Framers.FrameLength | framer.c:68-80 | a frame has as many bits as promised, plus ten exactly when it has a header |
| Framers.FrameContents | framer.c:60-109 | what each of the four kinds of frame contains after its preamble: delimiter and header encoded from negative disparity and the payload threaded on, or without a header the payload encoded from negative disparity; a raw payload is its own bits |
| Framers.PreCheckTooWeak | framer.c:71-93 | with the program's stream of 2620 bits, its default preamble and 16 tones, a 255-byte message passes the test and does not fit |
| Fsk.SymbolsSpellStream | fsk.c:35-42 | the symbols' bits are the stream and then less than one symbol of zeros; every symbol is below 2^m_exp |
| Fsk.SymbolCount | fsk.c:35-42 | there are ceil(remaining / m_exp) symbols |
| Fsk.Transmitter.ReadSymbol | fsk.c:36-37 | the unsigned integer read holds the bits ahead of the cursor and is below 2 to their number |
| Fsk.Transmitter.SendSequence | fsk.c:30-47 | sends the symbols of everything ahead of the cursor, in order, returns the number of bits, and leaves the cursor at the end; with m_exp 0 sends nothing |
| Receiver.PreambleNoPair | framer.c:86-89 | a preamble has no two adjacent ones |
| Receiver.FrameComma | framer.c:86-109 | in a frame with header and line-coded payload the comma occurs exactly once, where the delimiter starts |
| Receiver.PreambleSymbols | framer.c:86-89 | a preamble comes out as the symbols 0, 1, 0, 1, ... for every m_exp, and what follows starts on a symbol boundary |
| Receiver.PreambleFirst | framer.c:86-89 | the first symbols of every frame are 0, 1, 0, 1, ..., two for each unit of its preamble |
| Receiver.EndToEnd | framer.c:86-109 | a receiver that spells the symbols, looks for the first comma and decodes recovers exactly the encoded header and payload of every frame, for every preamble length, m_exp from 1 to 32 and contents |
| Receiver.Transmit | psplay.c:313-328 | stream, frame, rewind, send: a frame is accepted exactly when its true length fits; then what was sent is received as sent, starts with the alternating preamble, and is the whole frame |
| PingPong.InvStep | ping_pong_buf.c:35-83 | every statement of either thread and every spurious wake-up keeps the invariant: mutex ownership, slot ownership, ring order, pending signals, contents |
| PingPong.StepRefines | ping_pong_buf.c:35-75 | every statement is a put into, a get from, or no step of a queue of at most two blocks |
| PingPong.ReadyMeansRoom | ping_pong_buf.c:77-83 | a thread at its place finds its slot ready exactly when the queue has room, or a block |
| PingPong.Exchange | ping_pong_buf.c:57-75 | over every run the blocks handed over are those the writer stored, computed from the run's stores; they are taken in that order, each once, at most two behind; the threads never own the same slot, the gap before an index flips included |
| PingPong.Available | ping_pong_buf.c:50-55 | available() answers for the queue, and a yes stays true until the asking thread gives a slot away: the begin that follows does not sleep |
| PingPong.Progress | ping_pong_buf.c:35-48 | the two threads are never both in the wait set, a sleeper whose slot is ready has its signal still to come from the holder of the mutex, and a busy thread can move, or the other holds the mutex and can |
| PingPong.BeginSleepsOrReturns | ping_pong_buf.c:35-41 | a begin on a slot that is not ready leaves the thread in the wait set and the mutex free; on a ready one it returns owning the slot |
| Player.InvStep | bitbang_player.c:25-104 | every statement of the tick and of stop keeps the player's invariant over a queue of two blocks |
| Player.PlayedIsPrefix | bitbang_player.c:67-75 | under the invariant the samples played are a prefix of the blocks handed over |
| Player.ModeStep | bitbang_player.c:39-60 | under the invariant a step changes the state only as designed |
| Player.StoppedIsDrained | bitbang_player.c:46-53 | STOPPED means that every block handed over was played in full and given back |
| Playback.Refines | bitbang_player.c:25-104 | every step of the player on the ping-pong buffer, calls carried out statement by statement, is one step of the player over the queue, or none |
| Playback.InvStep | bitbang_player.c:25-104 | every such step keeps the buffer's invariant, the player's, and where the reader stands in the call that the tick is making |
| Playback.PlaybackIsPrefix | bitbang_player.c:28-75 | in every interleaving the samples passed to the spinner are a prefix of the blocks that the feeding thread stored, joined in order |
| Playback.TickNeverSleeps | bitbang_player.c:35-36 | the tick is never in the buffer's wait set; it waits only for a mutex that the feeding thread holds and can go on to release |
| Playback.ModeChanges | bitbang_player.c:34-102 | only STALLED to PLAYING and back, either to STOPPING, and STOPPING to STOPPED occur; STOPPED only when everything handed over was played and given back |
| Playback.ModeMeansPlaying | bitbang_player.c:34-64 | between ticks the state is PLAYING or STOPPING with a block in hand, and STALLED, STOPPING or STOPPED without |
| Stop.StopExactly | bitbang_player.c:89-103 | of every reachable state in which stop can be called: every way of going on in which it returns ends in STOPPING or STOPPED exactly when the player is STALLED and both slots of the buffer are free |
| Stop.Misses | bitbang_player.c:89-98 | from any other such state, an interleaving in which stop returns and the state is STALLED |
| Stop.Turns | bitbang_player.c:25-76 | while stop has not gone on, the tick by itself turns PLAYING into STALLED, and STALLED with a block waiting into PLAYING, in finitely many statements |
| Stop.StopCanMiss | bitbang_player.c:89-98 | a concrete case from the start of a play |
| FTimer.InvStep | ftimer.c:56-152 | every statement of worker, controlling thread and waiting thread, and every spurious wake-up, keeps the invariant |
| FTimer.PausedMeansPaused | ftimer.c:121-136 | from the return of a waiting pause until pausing is cleared the worker is inside its pause region |
| FTimer.NoCallbackWhilePaused | ftimer.c:56-79 | after any waiting pause returns, as long as pausing stays set, in every interleaving the worker is inside its pause region, starts no callback and adds no tick |
| FTimer.TicksMatchExpirations | ftimer.c:82-93 | over every run: between two loops the worker has added one tick for every expiration that its reads delivered, or with FTIMER_COMPENSATE_MISSES for every read, and started one callback for every tick |
| FTimer.ReadIsServed | ftimer.c:82-93 | a read of n expirations, for every n, is served by the worker by itself with n ticks and n callbacks, or one of each with FTIMER_COMPENSATE_MISSES, before it looks at pausing again |
| FTimer.TicksAndWakeUps | ftimer.c:88-91 | over every run outstanding_ticks is the ticks added minus the waits served, never negative; a sleeper on any of the three condition variables whose condition holds has its wake-up as some thread's next statement |
| FTimer.NoDeadlock | ftimer.c:56-152 | in every reachable state: unless paused and asleep, the worker can move or the thread it waits for can; inside a control call the controlling thread can, or the worker, or the waiting thread when the worker waits for its mutex; the waiting thread can unless it sleeps for want of ticks, or the worker that holds its mutex can |
| FTimer.CallReturns | ftimer.c:121-144 | from every reachable point of a pause or unpause the threads can finish it by themselves in finitely many statements, and a waiting pause ends with the worker confirmed in its pause region |
| FTimer.ReturnsAtOnce | ftimer.c:121-144 | with control_mutex free, a pause that does not wait and an unpause return by the calling thread's own statements, having told the worker |
| FTimer.PausedSleeps | ftimer.c:58-68 | a worker told to pause is by itself asleep in finitely many statements |
| MultiTone.InvStep | multi_tone_gen.c:14-49 | every statement of the n workers and the calling thread keeps: each timer's invariant, and every timer but the current one paused or on its way to noticing that it was created paused |
| MultiTone.SingleTone | multi_tone_gen.c:35-49 | only the worker of the current tone can be inside toggle, and none between the pause of the old tone and the unpause of the new |
| MultiTone.OnlyCurrentToneStarts | multi_tone_gen.c:38-43 | whatever step any thread takes, no callback starts on another tone: the old one starts none once the new one is current |
| MultiTone.SwitchTakesEffect | multi_tone_gen.c:35-49 | over every run, between calls the current tone is the argument of the last call in range, silence included, and exactly the other timers are told to pause |
| MultiTone.SwitchProceeds | multi_tone_gen.c:35-49 | inside a call the calling thread or the worker it waits for can move |
| MultiTone.SwitchReturns | multi_tone_gen.c:35-49 | from every reachable point of a switch the calling thread and the workers of the old and the new tone can finish it by themselves in finitely many statements |
| MultiTone.HeardInOrder | multi_tone_gen.c:7-49 | in every interleaving the callbacks that start are of the tones asked for, in order: each of the tone last made current, none of an earlier one again; between calls the tones made current are those asked for in range |
| MultiTone.CurrentToneSounds | multi_tone_gen.c:42-43 | from every reachable state between calls the worker of the last tone asked for gets by itself into its callback in finitely many statements |
| OnAir.InvStep | fsk.c:15-47 | every statement of the sending thread and of all the timers' workers keeps both timers' invariants and the account of symbols made current against ticks waited for |
| OnAir.Paced | fsk.c:20-47 | over every run a symbol's tone is made current only when the ticks of all symbols before it have been waited for, each tick a read of the symbol timer; a finished send has made every symbol current, in order, for one tick each |
| OnAir.SymbolsSound | fsk.c:20-47 | in every interleaving every callback that starts is of the tone of the symbol that the ticks waited for say, or of the one before while the generator is switched; the symbols sound in order |
| OnAir.HeardIsSent | fsk.c:20-47 | of a frame every symbol of which sounds, one sound of each symbol is received as exactly the header and payload encoded |
| OnAir.SendCompletes | fsk.c:30-47 | from every reachable point of a send the threads can finish it by themselves in finitely many statements, every symbol made current in order |
| Spinner.DetectEdges | cpu_spinner.c:103-117 | the loop finds whether some core rises and whether some core falls; with neither, the words agree on all cores |
| Spinner.InvStep | cpu_spinner.c:13-46 | every statement of workers and caller keeps the invariant, although falling edges and shutdown flags are written without the mutex |
| Spinner.AgreesOnReturn | cpu_spinner.c:102-129 | over every run, between calls the shared word agrees on every core with the argument of the last cpu_spinner_spin, although a request without an edge is not stored |
| Spinner.NoLostWakeUp | cpu_spinner.c:21-46 | outside the window from the store of a rising edge to its broadcast no worker sleeps with its bit set; a worker told to shut down sleeps at most until the broadcast that follows; both broadcasts wake it |
| Spinner.OffCoreIdles | cpu_spinner.c:28-32 | over any stretch of a run in which a core is off or told to shut down, its worker completes at most the one kernel round it had begun |
| Spinner.KernelRuns | cpu_spinner.c:21-30 | from every reachable state between calls the workers by themselves bring a core that the last request turned on to its kernel in finitely many statements |
| Spinner.IdleSleeps | cpu_spinner.c:21-32 | from every reachable state between calls the workers by themselves bring a core that the last request left off into the wait set |
| Spinner.CallProceeds | cpu_spinner.c:38-46 | inside a call the caller can move, or the worker that holds the mutex can, or the worker being joined can: a join never waits for a worker that sleeps |
| Spinner.CallReturns | cpu_spinner.c:38-46 | from every reachable point of a spin or a destroy the caller and the workers can finish it by themselves in finitely many statements, and a destroy ends with every worker ended |

## Left out

- Reed-Solomon coding: a foreign library; a function parameter of known output length, so recovery of the raw payload is not claimed.
- Floating point: the parity length `ceil(ratio * in_len)`, and gain and rounding in the tick, are inputs; samples reach the spinner unrounded.
- Symbol tracing in x8b10b.c, `bitstream_dump`, messages, `perror`; `abort` is an outcome of `Frame` after which nothing is said of the stream.
- Real time: `timerfd`, priorities, affinity; a timer read is any positive count, and that every thread is eventually scheduled is not stated.
- The branch of `ftimer_run` for systems other than Linux, which gives FTIMER_COMPENSATE_MISSES another meaning (ftimer.c:92 against ftimer.c:101).
- `ftimer_exit`, `ftimer_destroy`, `multi_tone_gen_destroy`: `ftimer_run` returns holding `control_mutex` (ftimer.c:75-78); nothing is claimed once they start, and so nothing about `bitbang_player_stop` waiting for the queue to drain.
- The protocols are state machines on values, not classes: a step is one statement, memory is sequentially consistent, and what unsynchronised reads may do beyond that is not modelled.
- One writer and one reader, one controlling and one waiting thread for each timer, one caller of the spinner and of the tone generator, as in the program.
- Playback is the first play on a fresh buffer, with the block pointer NULL before it: bitbang_player.c:9-18 leaves it uninitialised; a further play on the same buffer is not modelled.
- `toggle`'s status and its mutex, and `multi_tone_gen_switch_phase`.
- Creation of the spinner's workers and its failure path; the kernels the workers spin on.
- Line code and end-to-end claims are for frames with a header and a line-coded payload; `Frame` itself covers all four flag combinations.
- Control symbols other than K28.1 in the disparity, run-length and comma claims.
- Big-endian hosts: `write_n` and the symbol read are little-endian.
- Memory allocation failure; wrap-around of `size_t`; more than 64 cores, the width of the word of active cores.
- BitCopy.BitwiseCopy: source and destination are distinct arrays and the offsets lie within the capacities, as every caller guarantees.
- Framers.Framer.Frame: m_exp is at most 30, the range in which `1 << m_exp` is defined for a 32-bit int.
- Framers.Write8b10b: the byte must be one that the encoder accepts; for any other the source goes on with an uninitialised word, and may index outside the table of `rev10b` with it.
- Fsk.Transmitter.SendSequence: m_exp likewise; the wait for the symbol timer is in OnAir, which takes the symbols as given.
- OnAir.HeardIsSent: that every symbol sounds is a premise, since whether a tone's timer expires within a symbol is a matter of real time; so is the wave that the callbacks make.
- More than 64 tones, the size of the generator's table of timers (multi_tone_gen.h:11).
- dbpsk.c, simple_tone_gen.c, option parsing and sound files in psplay.c.
