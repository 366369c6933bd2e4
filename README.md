# Organya playback core in Dafny

A model of the sequential core of `organya.js`, the browser player for
Organya (".org") tracker songs, with proofs about it:

- **the song decoder** (the `Song` constructor). A little-endian cursor reads:
  - the header;
  - 16 instrument records;
  - for every track, five parallel arrays (pos, key, len, vol, pan), zipped into notes.

  A read past the end makes `DataView` throw. Here that is `Err(Truncated)`.
- **the drum scan** of `initOrganya`. Past the 100 melodic waveforms, the
  wavetable blob is searched byte by byte for RIFF "WAVE" assets. Each
  well-formed mono PCM asset becomes a drum descriptor.
- **the `Organya` player object** (a Dafny `class`). It holds:
  - the constructor state;
  - `update()`, the once-per-tick sequencer: a melodic trigger with its
    integer pitch formula, the pipi loop count, the length countdown and
    the percussion trigger;
  - the tick cursor of `synth()`;
  - the loop-expiry bookkeeping of `synth()`: wrap or stop when the phase
    runs past the waveform or drum sample.

Modules, one per file:

- `Wrappers` (wrappers.dfy): `Option`, `Result`.
- `Bytes` (bytes.dfy): bytes, little-endian readers and writers, and concatenation of chunks.
- `SongFormat` (song.dfy): the container layout and the decoder. It has:
  - `DecodeSong`, the specification function;
  - `ParseSong`, the cursor-and-loops method proved equal to it.
- `SongCodec` (song_codec.dfy): an encoder, and the proof that decoding and encoding are inverse.
- `DrumScan` (drums.dfy): the scan as a function `ScanFrom`, and the loop `ScanDrums` proved equal to it.
- `Sequencer` (sequencer.dfy):
  - the tables and the per-track record;
  - `update()` as functions on values, with its invariants and the note lifetime.
- `Playback` (playback.dfy):
  - JavaScript's `| 0` and `%` on numbers;
  - loop expiry;
  - the tick clock.
- `Engine` (engine.dfy): the class `Organya`. Its methods update the fields in
  place and are proved equal to the functions of `Sequencer` and `Playback`.

Environment inputs are parameters:
- `Organya.Synth` receives the drum table produced by the scan.
- `Organya.Play` receives the sample rate of the audio context.

## Model

| member | source | states |
|---|---|---|
| SongFormat.ParseSong | organya.js:9-70 | The constructor's cursor walk reads the header, the 16 instrument records and the five arrays of each track. It yields exactly `DecodeSong(data)`: the song, or the error that makes it throw. |
| SongFormat.ReadInstruments | organya.js:29-38 | The instrument loop fails exactly when the buffer is shorter than 114 bytes. Otherwise record i is the six bytes at 18 + 6i: i16 freq, u8 wave, u8 pipi, u16 note count. |
| SongFormat.ReadTracks | organya.js:40-69 | The track loop fails exactly when the buffer ends before the last track's arrays. Otherwise track i is read at the offset that follows the earlier tracks. |
| SongFormat.ReadTrack | organya.js:42-66 | The five array loops of one track produce `TrackAt`. Note j takes the j-th entry of the pos, key, len, vol and pan arrays, in that order. |
| SongFormat.ReadPositions | organya.js:48-50 | The position loop sets note k's pos to the i32 at off + 4k. It changes no other field. |
| SongFormat.ReadBytes | organya.js:52-66 | Each byte-array loop sets note k's field to the byte at off + k. It changes no other field. |
| SongFormat.DecodeOutcome | organya.js:13-43 | A buffer is accepted if and only if it has magic "Org-", version "02", and room for all instrument records and track arrays. A readable wrong magic gives BadMagic, and a readable wrong version gives BadVersion. |
| SongFormat.DecodedLayout | organya.js:24-69 | In an accepted song:<br>- wait is at offset 6, meas at bytes 8-9, start at 10, end at 14;<br>- instrument i is at 18 + 6i;<br>- track i has exactly `notes` notes, zipped from the five arrays;<br>- the cursor ends at 114 + 8 * (total notes), within the buffer. |
| SongFormat.TrackOffsetTotal | organya.js:40-69 | The cursor before track k stands at 114 + 8 * (the note counts of the earlier tracks). |
| SongCodec.EncodeDecode | organya.js:9-70 | Decoding the encoding of any well-formed song gives that song back. |
| SongCodec.DecodeEncode | organya.js:9-70 | An accepted buffer, cut after the last byte the decoder reads, is exactly the encoding of its song. Every decoded song is well-formed. |
| SongCodec.DecodeIgnoresTail | organya.js:9-70 | Bytes past offset 114 + 8 * (total notes) are never read: the cut buffer decodes to the same song. |
| DrumScan.StepAt | organya.js:273-308 | One candidate offset:<br>- a miss exactly when there is no "WAVE" signature;<br>- a hit exactly when a well-formed mono PCM asset is there, with its descriptor;<br>- a wrong chunk id resumes at i + 13, and a wrong format, channel count or data id at i + 13 + the declared chunk length;<br>- a short read exactly when the signature is present and a read the source makes before deciding runs past the end: the chunk header (12 bytes), then, for a "fmt " chunk, the format (14), then, for PCM, the channel count (16), then, for mono, the fields up to the data length (36). |
| DrumScan.Examine | organya.js:273-308 | The reads of one scan iteration, in the source's order, give exactly `StepAt`. |
| DrumScan.ScanFrom | organya.js:272-310 | Every descriptor found from offset i describes a well-formed asset whose signature is at or past i. Descriptors are separated by at least their sample bytes. An error means a signature too close to the end to read. |
| DrumScan.ScanDrums | organya.js:272-310 | The scan loop from offset 25600, with its resume rules and its pushes, yields exactly `ScanFrom(blob, 25600)`. |
| DrumScan.ScanFindsDrum | organya.js:272-308 | A well-formed asset that the scan reaches, with no "WAVE" signature between the start and the asset, is found. Its descriptor comes first, and the scan resumes one byte past its samples. |
| DrumScan.SeparatedIncreasing | organya.js:300-308 | The drum descriptors come out in strictly increasing `filePos`. |
| DrumScan.NoSignatureNoDrums | organya.js:272-273 | With no "WAVE" signature at or after offset i, the scan finds no drums from i on, and no error. |
| Sequencer.FindNote | organya.js:184-184 | `find` by position gives the first note whose pos is the play position. It gives none exactly when no note has that pos. |
| Sequencer.MelodicTriggerSets | organya.js:186-215 | A note with a key:<br>- sets octave = key / 12, playing, looping, and length = note length;<br>- sets the frequency to `freqTable[key%12]*octTable[key/12] + freq - 1000`, except for the untuned first key 0;<br>- arms `num_loops = (octave+1)*4` exactly for a pipi instrument on a silent track;<br>- copies vol and pan unless 255. |
| Sequencer.FirstKeyZeroUntuned | organya.js:186-200 | The constructor's key 0 is not the 255 sentinel. So a key-0 note met by the first update of a fresh player (position 0) is not retuned and keeps frequency 0, where its pitch would be 7352 + freq. After an update with no note, the countdown has set the stored key to 255, and a key-0 note then gets its pitch. |
| Sequencer.MelodicRestKeepsNote | organya.js:212-215 | A note with key 255 changes only vol and pan. It changes nothing while the track's stored key is 255. Otherwise it copies each of vol and pan unless that value is 255. |
| Sequencer.NoteLifetime | organya.js:218-228 | As far as `update()` is concerned, a note of length L stays playing and looping, with its key, through L - 1 further updates, its length going down by one each time. The L-th update stops it and sets the key to 255. It leaves looping set exactly for a pipi instrument. A pipi note can also be stopped earlier by its loop count, during the sample loop (`Playback.LoopCountRunsOut`). |
| Sequencer.MelodicUpdateInv | organya.js:183-228 | One melodic update keeps the track invariant:<br>- octave in range;<br>- key below 96 or 255;<br>- frequency is the key's pitch, or 0 for the constructor's key 0 (not yet retuned);<br>- a track with key 255 is silent;<br>- a playing track loops;<br>- a non-pipi track never counts loops down to 1. |
| Sequencer.UpdateKeepsInv | organya.js:180-244 | A whole `update()` keeps the invariants of all 16 tracks. |
| Sequencer.DrumTriggerSets | organya.js:231-243 | A drum note with a key restarts the sample: phase 0, frequency key * 800 + 100, playing. Any drum note copies each of vol and pan unless that value is 255. Nothing else changes, and a track without a note is unchanged. |
| Sequencer.SilentInv | organya.js:90-104 | The constructor's 16 track records satisfy the invariants. |
| Sequencer.OctaveDoubles | organya.js:73-76 | For an undetuned instrument (freq 1000), with the tables as given, a key one octave up advances the phase exactly twice as fast, counting frequency times wavetable step. |
| Playback.Trunc | organya.js:124-124 | Rounding toward zero: the integer at most 1 away from x, on the side of 0. |
| Playback.ToInt32 | organya.js:124-124 | `| 0` gives a signed 32-bit value, equal to n modulo 2^32, and the identity on 32-bit values. |
| Playback.FModRange | organya.js:126-126 | For a non-negative phase, `t %= samples` leaves it in [0, samples). |
| Playback.LapsePhase | organya.js:124-135 | For a non-negative phase: after an expiry, a wrapped track's phase is in [0, samples) and a stopped track's phase is 0. |
| Playback.LoopsForever | organya.js:125-128 | A looping track whose count is at most 0 (every non-pipi instrument) wraps on every expiry, for ever, its count going down by one each time. |
| Playback.LoopCountRunsOut | organya.js:125-134 | A looping track with count n >= 1 wraps n - 1 times and is stopped, with phase 0, at the n-th expiry. |
| Playback.OneShot | organya.js:130-134 | A track that does not loop stops at its first expiry with phase 0. Nothing else changes. |
| Playback.SampleTrackInv | organya.js:118-135 | The per-sample advance and expiry keep the sequencer's track invariants. |
| Playback.TickInRange | organya.js:169-176 | The sample counter stays in [0, samplesPerTick). It returns to 0 exactly at the last sample of a tick, and the position then moves by one step. |
| Playback.TicksAdd | organya.js:169-176 | a + b samples of the clock are a samples followed by b samples. |
| Playback.WithinTick | organya.js:169-169 | Inside a tick the counter only counts. |
| Playback.TicksPerRow | organya.js:169-172 | From the start of a tick, every samplesPerTick samples advance the play position by exactly one row. |
| Playback.RowsCycle | organya.js:173-175 | From a position in [start, end), k rows later the position is start + (pos - start + k) mod (end - start). It never skips or repeats a row, and end itself is never played. |
| Playback.RowsRunaway | organya.js:173-175 | The cursor wraps only on equality with end. From a position at or past end it counts up for ever. |
| Playback.StalledClock | organya.js:169-169 | With samplesPerTick <= 0 the counter never comes back to 0. The position and `update()` are stalled. |
| Engine.SampleTracks | organya.js:118-135 | One sample's advance of all 16 tracks keeps their invariants. |
| Engine.SampleStep | organya.js:112-177 | One iteration of the sample loop keeps the invariants and moves the clock by one `Tick`. The sequencer runs only when the counter is 0. |
| Engine.Run | organya.js:111-177 | n samples keep the invariants and move the clock by n ticks. |
| Engine.RunRows | organya.js:169-176 | Played from the start of a tick, samplesPerTick * k samples leave the counter at 0 and the position k rows on. Inside [start, end) the position cycles through the loop. |
| Engine.Organya.constructor | organya.js:82-105 | The fresh player has position 0, no tick length, counter 0, and 16 records with key 0, volume 1, not playing. |
| Engine.Organya.Play | organya.js:253-255 | `play()` stores the sample rate, sets the tick length to `(rate / 1000) * wait | 0`, and resets the counter. |
| Engine.Organya.NoteOn | organya.js:186-210 | The in-place statements for a note with a key produce exactly `MelodicTrigger` on the track's record. Nothing else changes. |
| Engine.Organya.UpdateMelodic | organya.js:183-229 | One iteration of the melodic loop of `update()` replaces only that track's record, with its `TrackUpdate`. |
| Engine.Organya.UpdateDrum | organya.js:231-243 | One iteration of the percussion loop of `update()` replaces only that track's record, with its `TrackUpdate`. |
| Engine.Organya.Update | organya.js:180-244 | `update()` sets the records to `UpdateTracks` of the old records at the play position. It keeps the invariants and leaves the clock alone. |
| Engine.Organya.AdvanceTrack | organya.js:119-135 | The in-place advance, expiry test and wrap-or-stop of one track give exactly `SampleTrack`. Nothing else changes. |
| Engine.Organya.AdvanceTracks | organya.js:118-167 | The per-track loop of one sample gives `SampleTracks` and keeps the invariants. |
| Engine.Organya.Synth | organya.js:111-177 | `synth()` over n samples leaves the clock and the records at `Run(..., n)`. Run keeps the invariants and moves the clock by `Ticks(..., n)`. |

## Left out

- The audio itself (organya.js:115-116, 137-165): the snapped indices into the
  wavetable, the linear interpolation, the volume and pan gains, and the
  summation into the output buffers. `panTable` (organya.js:74) is used only
  there and is not modelled. Line 139 reads `this.looping`, which is never
  assigned; it only affects the mixed samples, so it is left out as well.
- Engine.Organya.AdvanceTrack: the phase step
  `frequency / sampleRate * advTable[octave]` is exact real arithmetic, not
  IEEE doubles. The rounding of the JavaScript sum, and NaN or Infinity
  phases, are not modelled.
- Engine.Organya.Play: the tick length is `(rate / 1000) * wait` in exact
  reals, then truncated and wrapped to 32 bits. The rounding of the
  double-precision division is not modelled.
- Engine.Organya.constructor: it takes the decoded `Song` rather than the
  bytes, because `ParseSong` is the decoder. It also requires every melodic
  key to be below 96 or 255. In the source, a key from 96 to 254 indexes
  past `octTable` and gives a NaN frequency, which the integer model cannot
  represent.
- Engine.Organya.Synth: it requires at least 8 drum descriptors. In the
  source, a drum track that plays without its descriptor throws a
  TypeError at `drums[i - 8].samples`.
- `play()`'s audio context and script-processor plumbing, and `stop()`
  (organya.js:246-260). Only the state `play()` sets is modelled.
- The `onUpdate` observer (organya.js:85, 181), the audio-plumbing `node`
  field (organya.js:84, used by `play()` and `stop()` at organya.js:247,
  257-259), the unused `t` field (organya.js:86), and the console logging
  of the scan.
- `initOrganya`'s fetch of `wavetable.bin`, its async wrapper and the
  module-level `waveTable` and `drums` globals (organya.js:2-3, 263-270,
  312). The scan takes the blob as a parameter and returns the descriptors.
  When a read throws, the source keeps the descriptors pushed so far but
  never installs `window.Organya`; the model returns only the error.
- The `bits` of a drum is recorded but never used by playback. The
  `samples` field read at organya.js:297 is skipped over, as in the source.
- organya-ui.js (drawing and input handling) is not part of this model.

Quirks of the code that the model keeps:

- Volume and pan of a melodic note are applied only while the track's
  stored key is not 255 (organya.js:212-215). A volume or pan note that
  reaches a track whose stored key is 255 (stopped by the length
  countdown) is ignored. A fresh track, or a pipi track stopped by its
  loop count, keeps its key and takes the values.
- A read past the end of the wavetable during the drum scan throws
  (organya.js:273-300). It is not skipped as a malformed asset.
- The cursor wraps only when the position equals `end`
  (organya.js:173). From a position past `end` it never wraps
  (`Playback.RowsRunaway`).
- The notes of a track need not be sorted by position. The lookup simply
  takes the first note with the position.
