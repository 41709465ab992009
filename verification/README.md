# spcplay-rs core in Dafny

A Dafny model of the sample-delivery core of spcplay-rs, an SPC (SNES sound
processor snapshot) player, and of the player glue around it:

- **The DSP's stereo ring buffer** (`3rdparty/snes-apu/src/dsp/ring_buffer.rs`).
  `RingModel` describes the buffer as a value: two backing sequences of
  capacity `BUFFER_LEN`, a write cursor, a read cursor and `sample_count`.
  It gives the pure meaning of `write_sample`, `read` and `read_interleaved`,
  and proves the cursor invariant `write_pos == (read_pos + sample_count) mod BUFFER_LEN`
  and the FIFO laws. `RingBuffers.RingBuffer` is the imperative buffer: a class
  with two arrays updated in place and the source's `for` loops. Each method is
  proved to take `old(State())` to the state the `RingModel` functions give.
- **End-of-track timing** (`SpcPlay.EndStateOf`). This is the `SpcEndState`
  that `SpcPlayer::new` derives from the optional ID666 tag, using i32
  arithmetic and a division truncated toward zero.
- **`SpcPlayer`**. `render` reports `out.len() / 2` frames and changes no
  timing state. `get_spc_info` builds its text one line at a time.
- **Output configuration selection** (`CpalDriver`). The driver takes the first
  2-channel / I16 range. It fails if that range does not admit 32000 Hz, and it
  never falls back to a later range.
- **The example player's argument check** (`SpcPlayerExample.SelectPath`).

`3rdparty/snes-apu/examples/spc_player.rs` repeats `src/spcplay.rs` nearly word
for word:
- the end state at lines 100-112;
- `render` at lines 117-121;
- config selection at lines 142-159;
- the emulator names at lines 70-74.

These are modelled once, and the rows below cite the `src/spcplay.rs` copy
unless the example has its own code.

Constants:
- `BUFFER_LEN` is the constructor's `bufferLen`: any positive value. Its
  definition is not part of this model.
- `SAMPLE_RATE` is 32000, the rate the driver hard-codes.

Behaviour of the code that the model keeps as written:
- `write_sample` has no capacity check. Past BUFFER_LEN unread frames it
  overwrites the oldest one and `sample_count` exceeds BUFFER_LEN
  (`3rdparty/snes-apu/src/dsp/ring_buffer.rs:22-27`;
  `RingModel.WriteIntoFullOverwritesOldest`).
- Selection never falls back to a later stereo I16 range
  (`src/spcplay.rs:140-157`; `CpalDriver.NoFallbackToLaterRange`).
- There is no fade-out, pause or end-of-track logic: `render` only forwards to
  the APU (TODO at `src/spcplay.rs:117`) and `sample_pos` never advances.

The integer types (`I16`, `I32`) and the facts about Euclidean remainder that
the cursor and timing proofs need live in the module `Numeric`.

## Model

| member | source | states |
|---|---|---|
| RingModel.New | 3rdparty/snes-apu/src/dsp/ring_buffer.rs:12-20 | a new buffer of the given capacity satisfies the cursor invariant and has no unread frames |
| RingModel.Write | 3rdparty/snes-apu/src/dsp/ring_buffer.rs:22-27 | a write keeps both cursors in [0, BUFFER_LEN) and keeps `write_pos == (read_pos + sample_count) mod BUFFER_LEN`; the count grows by one and the read cursor stays |
| RingModel.Read | 3rdparty/snes-apu/src/dsp/ring_buffer.rs:29-42 | a read of n frames keeps the cursor invariant, returns n frames, reduces the count by n and leaves the slots and the write cursor as they were |
| RingModel.Interleave | 3rdparty/snes-apu/src/dsp/ring_buffer.rs:51-60 | the interleaved layout has twice the frames' length, with `out[2i]` the left and `out[2i+1]` the right sample of frame i |
| RingModel.InterleavedRead | 3rdparty/snes-apu/src/dsp/ring_buffer.rs:51-60 | samples placed left at 2i and right at 2i+1 for the i-th oldest unread frame are exactly the interleaving of the frames `read` returns |
| RingModel.WriteEnqueues | 3rdparty/snes-apu/src/dsp/ring_buffer.rs:22-27 | while the buffer is not full, a write appends its frame to the unread frames and disturbs none of them |
| RingModel.WriteIntoFullOverwritesOldest | 3rdparty/snes-apu/src/dsp/ring_buffer.rs:22-27 | with no capacity check, writing into a full buffer replaces the oldest unread frame, the next read returns the new frame, and sample_count exceeds BUFFER_LEN |
| RingModel.ReadDequeues | 3rdparty/snes-apu/src/dsp/ring_buffer.rs:36-41 | a read returns the oldest n unread frames, in order, and what remains unread is the rest, in order |
| RingModel.Run | 3rdparty/snes-apu/src/dsp/ring_buffer.rs:22-42 | any sequence of writes and reads that the read assertions allow: reads receive exactly as many frames as they ask for, and the count is initial + written - read |
| RingModel.RunIsFifo | 3rdparty/snes-apu/src/dsp/ring_buffer.rs:22-42 | FIFO round-trip law: when no write finds the buffer full, the frames read, followed by those left unread, equal the frames unread at the start followed by all frames written, in write order |
| RingModel.RoundTripFromNew | 3rdparty/snes-apu/src/dsp/ring_buffer.rs:12-42 | on a new buffer, writing up to BUFFER_LEN frames and then reading them all returns exactly those frames in order |
| RingBuffers.RingBuffer.constructor | 3rdparty/snes-apu/src/dsp/ring_buffer.rs:12-20 | `new`: two fresh arrays of BUFFER_LEN zeros, cursors and count 0; the state is RingModel.New |
| RingBuffers.RingBuffer.WriteSample | 3rdparty/snes-apu/src/dsp/ring_buffer.rs:22-27 | stores left/right at slot write_pos and no other slot, leaves read_pos, and moves to RingModel.Write of the old state, keeping the invariant |
| RingBuffers.RingBuffer.Read | 3rdparty/snes-apu/src/dsp/ring_buffer.rs:29-42 | requires equal lengths and length <= sample_count (the source's asserts); `left[i]`/`right[i]` hold the frame of slot (read_pos + i) mod BUFFER_LEN and the new state is RingModel.Read's |
| RingBuffers.RingBuffer.ReadInterleaved | 3rdparty/snes-apu/src/dsp/ring_buffer.rs:44-61 | requires an even length and len/2 <= sample_count; `out` is the interleaving of the frames `read` would return and the new state is the same as after `read` |
| RingBuffers.RingBuffer.GetSampleCount | 3rdparty/snes-apu/src/dsp/ring_buffer.rs:63-65 | returns the number of unread frames, without changing anything |
| Display.NatToString | src/spcplay.rs:23-29 | the `{}` rendering of an unsigned register value: decimal digits only, no leading zero |
| Display.IntToString | src/spcplay.rs:38-43 | the `{}` rendering of an i32 tag field: starts with '-' exactly when negative |
| Display.NatToStringRoundTrip | src/spcplay.rs:23-29 | reading the rendered digits back gives the value, so the info text loses nothing |
| Display.IntToStringInjective | src/spcplay.rs:38-43 | different i32 fields render differently |
| SpcFile.EmulatorName | src/spcplay.rs:50-58 | the dumping emulator is shown under its own name: "Unknown" exactly for Unknown, "ZSnes" exactly for ZSnes, "Snes9x" exactly for Snes9x, and no other text |
| SpcFile.EmulatorNameInjective | 3rdparty/snes-apu/examples/spc_player.rs:68-75 | the mapping is total over the three emulators and gives each a different name |
| SpcPlay.TruncDiv | src/spcplay.rs:92-93 | i32 `/`: the quotient rounds toward zero; q*b lies between 0 and a, less than one divisor away from a |
| SpcPlay.EndStateOf | src/spcplay.rs:89-101 | `end_state` is present exactly when the ID666 tag is; it starts at sample_pos 0 and, under the no-overflow requires, both sample marks fit i32 (same code: 3rdparty/snes-apu/examples/spc_player.rs:100-112) |
| SpcPlay.EndStateTiming | src/spcplay.rs:90-98 | fade_out_sample = seconds * 32000; end_sample - fade_out_sample = 32 * fade_out_length, because the division by 1000 is exact at 32000 Hz; a non-negative fade length gives end_sample >= fade_out_sample |
| SpcPlay.TwoSecondsOneSecondFade | src/spcplay.rs:90-98 | 2 s before fading and a 1000 ms fade give fade_out_sample 64000 and end_sample 96000 |
| SpcPlay.InfoLines | src/spcplay.rs:21-61 | layout: "SPC: <path>", then 7 register lines; then " ID666 tag present:" and 10 field lines ending in the emulator name, or the single line " No ID666 tag present." |
| SpcPlay.TextAppend | src/spcplay.rs:17-68 | the text of two runs of lines written one after the other is the two texts concatenated, so the writeln! calls can be split into the register and tag parts |
| SpcPlay.WriteRegisterLines | src/spcplay.rs:18-29 | a new buffer followed by the first eight lines, in order |
| SpcPlay.WriteTagLines | src/spcplay.rs:31-61 | appends the tag header and fields, or the no-tag line, in order |
| SpcPlay.WriteSpcInfo | src/spcplay.rs:17-68 | `get_spc_info` returns each info line in order, each followed by a newline |
| SpcPlay.SpcPlayer.constructor | src/spcplay.rs:80-109 | keeps the path and the snapshot; `end_state` is EndStateOf of the snapshot's tag |
| SpcPlay.SpcPlayer.GetSpcInfo | src/spcplay.rs:111-113 | the text for the player's own path and snapshot |
| SpcPlay.SpcPlayer.Render | src/spcplay.rs:115-119 | `out` holds what the APU rendered; the result is the number of whole stereo frames in `out`; `end_state` is unchanged (same code: 3rdparty/snes-apu/examples/spc_player.rs:117-121) |
| CpalDriver.FindStereoI16 | src/spcplay.rs:140-145 | `find` stops at the first range with 2 channels and I16 samples, and finds none exactly when there is no such range |
| CpalDriver.SelectConfig | src/spcplay.rs:134-158 | on success the stream config is 2 channels, I16, exactly 32000 Hz |
| CpalDriver.SelectConfigSpec | src/spcplay.rs:140-157 | selection succeeds if and only if the first stereo I16 range admits 32000 Hz; it fails with "no supported config" exactly when there is no stereo I16 range; when the first stereo I16 range excludes 32000 the result is exactly an invalid-range failure with that range's bounds, and every invalid-range failure arises this way (same code: 3rdparty/snes-apu/examples/spc_player.rs:142-159) |
| CpalDriver.NoFallbackToLaterRange | src/spcplay.rs:140-157 | when the first stereo I16 range is 44100-48000, selection fails even though the second range, 8000-96000, admits 32000 |
| CpalDriver.NegotiateConfig | src/spcplay.rs:128-158 | a missing output device and a failed configuration query are errors; a device that reports its ranges gets exactly the SelectConfig outcome for them, so every success is 2 channels, I16, 32000 Hz |
| CpalDriver.ErrorMessage | src/spcplay.rs:130-155 | the context strings of the four failures, as a table; each fixed text belongs to exactly one kind of failure |
| CpalDriver.ErrorMessageIdentifiesError | src/spcplay.rs:130-155 | different failures are reported with different messages; the range message names the rejected bounds, which can be read back from it |
| CpalDriver.RangeMessageInjective | src/spcplay.rs:149-154 | "invalid sampling range {min} to {max} does not include 32000" is equal for two bound pairs only when the bounds are equal |
| SpcPlayerExample.SelectPath | 3rdparty/snes-apu/examples/spc_player.rs:25-31 | 0 or 1 arguments give "No file specified"; exactly 2 give `args[1]` as the path; more give "Only one file argument can be specified" |
| SpcPlayerExample.Message | 3rdparty/snes-apu/examples/spc_player.rs:27-31 | the two argument errors' texts, as a table: "No file specified" exactly for a missing argument, "Only one file argument can be specified" exactly for extra ones |

## Left out

- Loading and parsing the SPC file (`Spc::load`): not part of this model. The player's constructor takes an already loaded snapshot, so the load error path is not modelled.
- The APU: `Apu::from_spc`, `clear_echo_buffer` and `render_interleaved` are code outside this model. `SpcPlayer.Render` takes the APU's output as its `rendered` parameter.
- Audio device I/O: `build_output_stream`, `play`, the error callback, the real-time callback thread and `thread::park`. The device appears only as the list of ranges it reports. Concurrency is not modelled.
- Console output and process exit: `print_spc_info`, `main`, `println!`/`eprintln!`. Only the emulator-name mapping of `print_spc_info` is modelled. The error texts (`CpalDriver.ErrorMessage`, `SpcPlayerExample.Message`) are modelled as tables from error to text; how `anyhow` chains them and `main` prints them is not.
- `path.display()`: paths are modelled as strings and shown unchanged.
- SpcPlay.EndStateOf: i32 overflow is not modelled. The requires `TimingFitsI32` keeps `seconds * 32000`, `fade_out_length * 32000` and their combination within i32.
- RingBuffers.RingBuffer.WriteSample: `sample_count` is unbounded. The source's i32 would overflow after 2^31 unread writes.
- `read`/`read_interleaved` assertion failures (panics) are modelled as requires clauses, not as an error result.
- Fade-out, pausing and end-of-track handling: the source leaves them as a TODO (`src/spcplay.rs:117`) and never advances `sample_pos`, so the model has none of them.
- The example player's `SpcPlayer` holds only the APU and the end state. It is modelled by the same `SpcPlay.SpcPlayer`.
