/**
 * The sequencer of the Organya engine (`update()`): once per tick each of
 * the 16 tracks looks up the note at the play position. Tracks 0-7 are
 * melodic: a note retunes and retriggers the track and a per-track length
 * counts down to a forced stop. Tracks 8-15 are percussion: a note restarts
 * the drum sample. Here every track update is a function on a value record;
 * `Engine.Organya.Update` performs them in place.
 */
module Sequencer {
  import opened Wrappers
  import opened SongFormat

  /** Base frequency of the twelve semitones. */
  const FreqTable: seq<int> := [261, 278, 294, 311, 329, 349, 371, 391, 414, 440, 466, 494]
  /** Wavetable step per octave. */
  const AdvTable: seq<int> := [1, 1, 2, 2, 4, 8, 16, 32]
  /** Frequency multiplier per octave. */
  const OctTable: seq<int> := [32, 64, 64, 128, 128, 128, 128, 128]

  /** The key (and volume, pan) value that means "none". */
  const NoKey: int := 255
  const MelodicTracks: nat := 8
  /** Keys of the eight octaves the tables cover. */
  const KeyRange: nat := 96

  /** The mutable record kept per track. */
  datatype TrackState = TrackState(
    t: real,          // phase: a position in the waveform or drum sample
    key: int,
    frequency: int,
    octave: int,
    pan: int,
    vol: int,
    length: nat,      // ticks left before the forced stop
    num_loops: int,   // wraps left before the sound ends (melodic pipi tracks)
    playing: bool,
    looping: bool)

  /** A track as the `Organya` constructor creates it: key 0, not the 255
      sentinel, volume 1, pan 0. */
  const Silent: TrackState := TrackState(0.0, 0, 0, 0, 0, 1, 0, 0, false, false)

  // -------------------------------------------------------- the song

  /** A song the engine can play: 16 instruments and 16 tracks, and every
      melodic key inside the eight octaves of the tables (or 255). */
  predicate Playable(song: Song)
  {
    && |song.instruments| == TrackCount
    && |song.tracks| == TrackCount
    && forall i, j :: 0 <= i < MelodicTracks && 0 <= j < |song.tracks[i]| ==>
         song.tracks[i][j].key < KeyRange || song.tracks[i][j].key == NoKey
  }

  /** Index of the first note at or after j whose position is pos. */
  function FindFrom(notes: seq<Note>, pos: int, j: nat): (r: Option<nat>)
    requires j <= |notes|
    ensures r.Some? ==> j <= r.value < |notes| && notes[r.value].pos == pos
    ensures r.Some? ==> forall k :: j <= k < r.value ==> notes[k].pos != pos
    ensures r.None? ==> forall k :: j <= k < |notes| ==> notes[k].pos != pos
    decreases |notes| - j
  {
    if j == |notes| then None
    else if notes[j].pos == pos then Some(j)
    else FindFrom(notes, pos, j + 1)
  }

  /** `track.find(n => n.pos == playPos)`: the first note at the position. */
  function FindNote(notes: seq<Note>, pos: int): (r: Option<Note>)
    ensures r.None? <==> forall k :: 0 <= k < |notes| ==> notes[k].pos != pos
    ensures r.Some? ==> exists j :: 0 <= j < |notes| && notes[j] == r.value && r.value.pos == pos &&
                                    forall k :: 0 <= k < j ==> notes[k].pos != pos
  {
    match FindFrom(notes, pos, 0)
    case None => None
    case Some(j) => Some(notes[j])
  }

  // -------------------------------------------------------- melodic tracks

  /** The integer frequency of a key on an instrument: table frequency of the
      semitone times the octave multiplier, detuned by freq - 1000. */
  function Pitch(key: int, instrFreq: int): int
    requires 0 <= key < KeyRange
  {
    FreqTable[key % 12] * OctTable[key / 12] + (instrFreq - 1000)
  }

  /** A note with a key: retune when the key differs from the stored one
      (the sentinel 255 always differs), arm the pipi loop count when the
      track is silent, and start the note. */
  function MelodicTrigger(ins: Instrument, note: Note, s: TrackState): TrackState
    requires note.key < KeyRange
  {
    var octave := note.key / 12;
    var tuned := if s.key != note.key then s.(key := note.key, frequency := Pitch(note.key, ins.freq)) else s;
    var armed := if ins.pipi != 0 && !s.playing then tuned.(num_loops := (octave + 1) * 4) else tuned;
    armed.(octave := octave, playing := true, looping := true, length := note.len)
  }

  /** Volume and pan of the note, each unless 255, and only while the
      track's stored key is not 255. */
  function MelodicLevels(note: Note, s: TrackState): TrackState
  {
    if s.key == NoKey then s
    else s.(vol := if note.vol != NoKey then note.vol else s.vol,
            pan := if note.pan != NoKey then note.pan else s.pan)
  }

  /** What a note at the play position does to a melodic track. */
  function MelodicNote(ins: Instrument, note: Note, s: TrackState): TrackState
    requires note.key < KeyRange || note.key == NoKey
  {
    MelodicLevels(note, if note.key != NoKey then MelodicTrigger(ins, note, s) else s)
  }

  /** The length countdown that ends every melodic update: a positive length
      is decremented; at zero a sounding key is stopped and set to 255, and a
      non-pipi instrument stops looping. */
  function Countdown(ins: Instrument, s: TrackState): TrackState
  {
    if s.length == 0 then
      if s.key != NoKey then
        s.(looping := if ins.pipi == 0 then false else s.looping, playing := false, key := NoKey)
      else s
    else s.(length := s.length - 1)
  }

  function MelodicUpdate(ins: Instrument, note: Option<Note>, s: TrackState): TrackState
    requires note.Some? ==> note.value.key < KeyRange || note.value.key == NoKey
  {
    Countdown(ins, if note.Some? then MelodicNote(ins, note.value, s) else s)
  }

  /** What one melodic update keeps true of a track between ticks. */
  predicate MelodicInv(ins: Instrument, s: TrackState)
  {
    && 0 <= s.octave < 8
    && (s.key != NoKey ==>
          && 0 <= s.key < KeyRange
          && s.octave == s.key / 12
          && (s.frequency == Pitch(s.key, ins.freq) || (s.key == 0 && s.frequency == 0)))
    && (s.key == NoKey ==> !s.playing)
    && (s.playing ==> s.looping)
    && (ins.pipi == 0 ==> s.num_loops <= 0)
  }

  // -------------------------------------------------------- percussion tracks

  /** A note at the play position on a drum track: a key restarts the sample
      at frequency key * 800 + 100; volume and pan are copied unless 255. */
  function DrumUpdate(note: Option<Note>, s: TrackState): TrackState
  {
    match note
    case None => s
    case Some(n) =>
      var hit := if n.key != NoKey then s.(frequency := n.key * 800 + 100, t := 0.0, playing := true) else s;
      hit.(vol := if n.vol != NoKey then n.vol else hit.vol,
           pan := if n.pan != NoKey then n.pan else hit.pan)
  }

  /** A drum track keeps its constructor key, octave, length and loop count,
      and never loops. */
  predicate DrumInv(s: TrackState)
  {
    s.key == 0 && s.octave == 0 && s.length == 0 && s.num_loops == 0 && !s.looping
  }

  // -------------------------------------------------------- the whole tick

  predicate TracksInv(song: Song, tracks: seq<TrackState>)
    requires Playable(song)
  {
    && |tracks| == TrackCount
    && (forall i :: 0 <= i < MelodicTracks ==> MelodicInv(song.instruments[i], tracks[i]))
    && (forall i :: MelodicTracks <= i < TrackCount ==> DrumInv(tracks[i]))
  }

  /** Every note FindNote returns from a playable song's melodic track has a
      key the tables cover. */
  lemma FoundKey(song: Song, i: nat, pos: int)
    requires Playable(song) && i < MelodicTracks
    ensures var n := FindNote(song.tracks[i], pos);
            n.Some? ==> n.value.key < KeyRange || n.value.key == NoKey
  {
  }

  /** The state of one track after `update()` at play position pos. */
  function TrackUpdate(song: Song, pos: int, i: nat, s: TrackState): TrackState
    requires Playable(song) && i < TrackCount
  {
    var note := FindNote(song.tracks[i], pos);
    if i < MelodicTracks then
      FoundKey(song, i, pos);
      MelodicUpdate(song.instruments[i], note, s)
    else DrumUpdate(note, s)
  }

  /** `update()`: every track updated at the play position. */
  function UpdateTracks(song: Song, pos: int, tracks: seq<TrackState>): seq<TrackState>
    requires Playable(song) && |tracks| == TrackCount
  {
    seq(TrackCount, i requires 0 <= i < TrackCount => TrackUpdate(song, pos, i, tracks[i]))
  }

  // -------------------------------------------------------- properties

  /** The constructor's tracks satisfy the invariants; key 0 with frequency 0
      is the case the invariant admits for them. */
  lemma SilentInv(song: Song)
    requires Playable(song)
    ensures TracksInv(song, seq(TrackCount, _ => Silent))
  {
  }

  /** A note with a key sets the octave to key / 12, starts the track,
      makes it loop, loads the note length, and arms a pipi instrument's loop
      count to (octave + 1) * 4 when the track was silent. The frequency is
      the key's pitch, except for the constructor's key 0, which a first
      note with key 0 does not retune. */
  lemma MelodicTriggerSets(ins: Instrument, note: Note, s: TrackState)
    requires note.key < KeyRange && MelodicInv(ins, s)
    ensures var r := MelodicNote(ins, note, s);
      && r.key == note.key
      && r.octave == note.key / 12
      && r.playing && r.looping
      && r.length == note.len
      && (r.frequency == Pitch(note.key, ins.freq) || (note.key == 0 && s.key == 0 && r.frequency == s.frequency))
      && (ins.pipi != 0 && !s.playing ==> r.num_loops == (note.key / 12 + 1) * 4)
      && (ins.pipi == 0 || s.playing ==> r.num_loops == s.num_loops)
      && r.vol == (if note.vol != NoKey then note.vol else s.vol)
      && r.pan == (if note.pan != NoKey then note.pan else s.pan)
      && r.t == s.t
  {
  }

  /** The quirk of the constructor's key 0: a key-0 note met by the first
      update of a fresh player (position 0) finds the constructor's record
      and keeps frequency 0 instead of the key's pitch. Once an update with
      no note has counted the fresh record down to key 255, a key-0 note is
      tuned as any other. */
  lemma FirstKeyZeroUntuned(ins: Instrument, note: Note)
    requires note.key == 0
    ensures MelodicNote(ins, note, Silent).frequency == 0
    ensures Pitch(0, ins.freq) == 7352 + ins.freq
    ensures MelodicUpdate(ins, None, Silent).key == NoKey
    ensures MelodicNote(ins, note, MelodicUpdate(ins, None, Silent)).frequency == Pitch(0, ins.freq)
  {
  }

  /** A note whose key is 255 changes only volume and pan, and those only
      while the track holds a key. */
  lemma MelodicRestKeepsNote(ins: Instrument, note: Note, s: TrackState)
    requires note.key == NoKey
    ensures var r := MelodicNote(ins, note, s);
      && r.(vol := s.vol, pan := s.pan) == s
      && (s.key == NoKey ==> r == s)
      && (s.key != NoKey ==>
            r.vol == (if note.vol != NoKey then note.vol else s.vol) &&
            r.pan == (if note.pan != NoKey then note.pan else s.pan))
  {
  }

  lemma MelodicUpdateInv(ins: Instrument, note: Option<Note>, s: TrackState)
    requires note.Some? ==> note.value.key < KeyRange || note.value.key == NoKey
    requires MelodicInv(ins, s)
    ensures MelodicInv(ins, MelodicUpdate(ins, note, s))
  {
    var mid := if note.Some? then MelodicNote(ins, note.value, s) else s;
    if note.Some? && note.value.key != NoKey {
      MelodicTriggerSets(ins, note.value, s);
      assert MelodicInv(ins, mid);
    }
  }

  /** One `update()` keeps the invariants of all 16 tracks. */
  lemma UpdateKeepsInv(song: Song, pos: int, tracks: seq<TrackState>)
    requires Playable(song) && TracksInv(song, tracks)
    ensures TracksInv(song, UpdateTracks(song, pos, tracks))
  {
    var r := UpdateTracks(song, pos, tracks);
    forall i | 0 <= i < MelodicTracks
      ensures MelodicInv(song.instruments[i], r[i])
    {
      FoundKey(song, i, pos);
      MelodicUpdateInv(song.instruments[i], FindNote(song.tracks[i], pos), tracks[i]);
    }
  }

  /** A drum note with a key restarts the sample from phase 0 at
      key * 800 + 100; a drum track without a note at the position is left
      as it is. */
  lemma DrumTriggerSets(note: Option<Note>, s: TrackState)
    ensures note.None? ==> DrumUpdate(note, s) == s
    ensures note.Some? && note.value.key != NoKey ==>
      var r := DrumUpdate(note, s);
      r.frequency == note.value.key * 800 + 100 && r.t == 0.0 && r.playing
    ensures note.Some? && note.value.key != NoKey ==>
      DrumUpdate(note, s).(frequency := s.frequency, t := s.t, playing := s.playing, vol := s.vol, pan := s.pan) == s
    ensures note.Some? && note.value.key == NoKey ==>
      DrumUpdate(note, s).(vol := s.vol, pan := s.pan) == s
    ensures note.Some? ==>
      DrumUpdate(note, s).vol == (if note.value.vol != NoKey then note.value.vol else s.vol) &&
      DrumUpdate(note, s).pan == (if note.value.pan != NoKey then note.value.pan else s.pan)
    ensures DrumInv(s) ==> DrumInv(DrumUpdate(note, s))
  {
  }

  // -------------------------------------------------------- note lifetime

  /** k updates of a melodic track at positions where it has no note. */
  function Held(ins: Instrument, s: TrackState, k: nat): TrackState
  {
    if k == 0 then s else Countdown(ins, Held(ins, s, k - 1))
  }

  /** A note of length L held without further notes: the update that
      triggers it leaves L - 1 ticks. As far as update() is concerned, it
      stays playing and looping through k more updates for every k < L, and
      the L-th stops it and sets the key to 255 (a length-0 note is stopped
      by the update that triggers it). A pipi note's loop count can stop it
      earlier during playback. */
  lemma {:induction false} NoteLifetime(ins: Instrument, note: Note, s: TrackState, k: nat)
    requires note.key < KeyRange
    requires k <= note.len
    ensures var r := Held(ins, MelodicUpdate(ins, Some(note), s), k);
      if k < note.len then r.playing && r.looping && r.key == note.key && r.length == note.len - 1 - k
      else !r.playing && r.key == NoKey && r.looping == (ins.pipi != 0)
  {
    if k > 0 {
      NoteLifetime(ins, note, s, k - 1);
    }
  }

  // -------------------------------------------------------- pitch

  /** Per octave the frequency and wavetable step combine to double the
      playback speed: with no detune (freq 1000), the key an octave up
      advances the phase exactly twice as fast. */
  lemma OctaveDoubles(key: int)
    requires 0 <= key && key + 12 < KeyRange
    ensures Pitch(key + 12, 1000) * AdvTable[(key + 12) / 12] == 2 * (Pitch(key, 1000) * AdvTable[key / 12])
  {
    var o, n := key / 12, key % 12;
    assert (key + 12) / 12 == o + 1 && (key + 12) % 12 == n;
    var f := FreqTable[n];
    assert OctTable[o + 1] * AdvTable[o + 1] == 2 * (OctTable[o] * AdvTable[o]);
    calc {
      Pitch(key + 12, 1000) * AdvTable[o + 1];
      f * OctTable[o + 1] * AdvTable[o + 1];
      f * (OctTable[o + 1] * AdvTable[o + 1]);
      f * (2 * (OctTable[o] * AdvTable[o]));
      2 * (f * OctTable[o] * AdvTable[o]);
    }
  }
}
