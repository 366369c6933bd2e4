/**
 * The `Organya` player object: the decoded song, the play position, the
 * tick clock, the sample rate and the 16 track records, all updated in
 * place by `update()` and `synth()`. The audio the mixer writes into the
 * output buffers is not modelled; the methods below change exactly the
 * state that the next sample depends on.
 */
module Engine {
  import opened SongFormat
  import opened Sequencer
  import opened Playback
  import DrumScan

  /** The part of the engine one sample changes. */
  datatype Frame = Frame(clock: Clock, tracks: seq<TrackState>)

  /** The melodic tracks loop over a 256-sample waveform, and drums never
      loop, so every looping track has a source to wrap in. */
  lemma SampleReady(song: Song, tracks: seq<TrackState>, drums: seq<DrumScan.Drum>)
    requires Playable(song) && TracksInv(song, tracks) && |drums| >= MelodicTracks
    ensures forall i :: 0 <= i < TrackCount ==>
      0 <= tracks[i].octave < |AdvTable| && (tracks[i].looping ==> SourceLength(i, drums) > 0)
  {
  }

  /** The phase step of every track for one sample. */
  function SampleTracks(song: Song, tracks: seq<TrackState>, drums: seq<DrumScan.Drum>, sampleRate: real): (r: seq<TrackState>)
    requires Playable(song) && TracksInv(song, tracks) && |drums| >= MelodicTracks && sampleRate > 0.0
    ensures TracksInv(song, r)
  {
    SampleReady(song, tracks, drums);
    var r := seq(TrackCount, i requires 0 <= i < TrackCount => SampleTrack(i, tracks[i], drums, sampleRate));
    assert forall i :: 0 <= i < TrackCount ==>
      if i < MelodicTracks then MelodicInv(song.instruments[i], r[i]) else DrumInv(r[i])
    by {
      forall i | 0 <= i < TrackCount
        ensures if i < MelodicTracks then MelodicInv(song.instruments[i], r[i]) else DrumInv(r[i])
      {
        SampleTrackInv(song.instruments[i], i, tracks[i], drums, sampleRate);
      }
    }
    r
  }

  /** One iteration of the sample loop of `synth()`: the sequencer runs when
      the tick counter is 0, then every playing track advances, then the
      clock ticks. */
  function SampleStep(song: Song, samplesPerTick: int, drums: seq<DrumScan.Drum>, sampleRate: real, f: Frame): (r: Frame)
    requires Playable(song) && TracksInv(song, f.tracks) && |drums| >= MelodicTracks && sampleRate > 0.0
    ensures TracksInv(song, r.tracks)
    ensures r.clock == Tick(f.clock, samplesPerTick, song.start, song.end)
  {
    UpdateKeepsInv(song, f.clock.playPos, f.tracks);
    var tracks := if f.clock.samplesThisTick == 0 then UpdateTracks(song, f.clock.playPos, f.tracks) else f.tracks;
    Frame(Tick(f.clock, samplesPerTick, song.start, song.end), SampleTracks(song, tracks, drums, sampleRate))
  }

  /** n samples. */
  function Run(song: Song, samplesPerTick: int, drums: seq<DrumScan.Drum>, sampleRate: real, f: Frame, n: nat): (r: Frame)
    requires Playable(song) && TracksInv(song, f.tracks) && |drums| >= MelodicTracks && sampleRate > 0.0
    ensures TracksInv(song, r.tracks)
    ensures r.clock == Ticks(f.clock, samplesPerTick, song.start, song.end, n)
  {
    if n == 0 then f
    else SampleStep(song, samplesPerTick, drums, sampleRate, Run(song, samplesPerTick, drums, sampleRate, f, n - 1))
  }

  /** Played from the start of a tick, k ticks' worth of samples leave the
      counter at 0 and the position k steps on; inside [start, end) it cycles
      through the loop. */
  lemma RunRows(song: Song, samplesPerTick: int, drums: seq<DrumScan.Drum>, sampleRate: real, f: Frame, k: nat)
    requires Playable(song) && TracksInv(song, f.tracks) && |drums| >= MelodicTracks && sampleRate > 0.0
    requires samplesPerTick > 0 && f.clock.samplesThisTick == 0
    ensures var r := Run(song, samplesPerTick, drums, sampleRate, f, samplesPerTick * k);
      r.clock == Clock(Rows(f.clock.playPos, song.start, song.end, k), 0) &&
      (song.start <= f.clock.playPos < song.end ==>
        r.clock.playPos == song.start + (f.clock.playPos - song.start + k) % (song.end - song.start))
  {
    TicksPerRow(f.clock.playPos, samplesPerTick, song.start, song.end, k);
    if song.start <= f.clock.playPos < song.end {
      RowsCycle(f.clock.playPos, song.start, song.end, k);
    }
  }

  class Organya {
    const song: Song
    var playPos: int
    var samplesPerTick: int
    var samplesThisTick: int
    var sampleRate: real
    var state: seq<TrackState>

    predicate Valid()
      reads this
    {
      Playable(song) && TracksInv(song, state)
    }

    function Now(): Frame
      reads this
    {
      Frame(Clock(playPos, samplesThisTick), state)
    }

    /** `new Organya(data)` once the song has been decoded: position 0, no
        tick length until `play()`, and 16 silent tracks. */
    constructor (s: Song)
      requires Playable(s)
      ensures Valid()
      ensures song == s && playPos == 0 && samplesPerTick == 0 && samplesThisTick == 0
      ensures state == seq(TrackCount, _ => Silent)
    {
      SilentInv(s);
      var tracks: seq<TrackState> := [];
      for i := 0 to TrackCount
        invariant |tracks| == i && forall k :: 0 <= k < i ==> tracks[k] == Silent
      {
        tracks := tracks + [Silent];
      }
      song := s;
      playPos := 0;
      samplesPerTick := 0;
      samplesThisTick := 0;
      sampleRate := 0.0;
      state := tracks;
    }

    /** The state `play()` sets up: the output sample rate, the tick length
        `(sampleRate / 1000) * wait | 0`, and the counter at the start of a
        tick. */
    method Play(rate: real)
      requires rate > 0.0
      modifies this
      ensures sampleRate == rate
      ensures samplesPerTick == ToInt32(Trunc(rate / 1000.0 * (song.wait as real)))
      ensures samplesThisTick == 0
      ensures playPos == old(playPos) && state == old(state)
    {
      sampleRate := rate;
      samplesPerTick := ToInt32(Trunc(rate / 1000.0 * (song.wait as real)));
      samplesThisTick := 0;
    }

    /** A note with a key on melodic track `track`: retune, arm the pipi
        loop count, start the note. */
    method NoteOn(track: nat, n: Note)
      requires Playable(song) && |state| == TrackCount && track < MelodicTracks && n.key < KeyRange
      modifies this
      ensures state == old(state)[track := MelodicTrigger(song.instruments[track], n, old(state[track]))]
      ensures playPos == old(playPos) && samplesThisTick == old(samplesThisTick)
      ensures samplesPerTick == old(samplesPerTick) && sampleRate == old(sampleRate)
    {
      var ins := song.instruments[track];
      var st := state[track];
      var octave := n.key / 12;
      var key := n.key % 12;
      assert FreqTable[key] * OctTable[octave] + (ins.freq - 1000) == Pitch(n.key, ins.freq);
      if st.key == NoKey {
        st := st.(key := n.key);
        st := st.(frequency := FreqTable[key] * OctTable[octave] + (ins.freq - 1000));
        if ins.pipi != 0 && !st.playing {
          st := st.(num_loops := (octave + 1) * 4);
        }
      } else if st.key != n.key {
        st := st.(key := n.key);
        st := st.(frequency := FreqTable[key] * OctTable[octave] + (ins.freq - 1000));
      }
      if ins.pipi != 0 && !st.playing {
        st := st.(num_loops := (octave + 1) * 4);
      }
      st := st.(octave := octave, playing := true, looping := true, length := n.len);
      state := state[track := st];
    }

    /** `update()` on melodic track `track`. */
    method UpdateMelodic(track: nat)
      requires Playable(song) && |state| == TrackCount && track < MelodicTracks
      modifies this
      ensures state == old(state)[track := TrackUpdate(song, playPos, track, old(state[track]))]
      ensures playPos == old(playPos) && samplesThisTick == old(samplesThisTick)
      ensures samplesPerTick == old(samplesPerTick) && sampleRate == old(sampleRate)
    {
      var note := FindNote(song.tracks[track], playPos);
      FoundKey(song, track, playPos);
      var ins := song.instruments[track];
      ghost var before := state[track];
      if note.Some? {
        var n := note.value;
        if n.key != NoKey {
          NoteOn(track, n);
        }
        var st := state[track];
        if st.key != NoKey {
          if n.vol != NoKey { st := st.(vol := n.vol); }
          if n.pan != NoKey { st := st.(pan := n.pan); }
        }
        state := state[track := st];
      }
      assert state[track] == if note.Some? then MelodicNote(ins, note.value, before) else before;
      var st := state[track];
      if st.length == 0 {
        if st.key != NoKey {
          if ins.pipi == 0 { st := st.(looping := false); }
          st := st.(playing := false, key := NoKey);
        }
      } else {
        st := st.(length := st.length - 1);
      }
      state := state[track := st];
    }

    /** `update()` on percussion track `track`. */
    method UpdateDrum(track: nat)
      requires Playable(song) && |state| == TrackCount && MelodicTracks <= track < TrackCount
      modifies this
      ensures state == old(state)[track := TrackUpdate(song, playPos, track, old(state[track]))]
      ensures playPos == old(playPos) && samplesThisTick == old(samplesThisTick)
      ensures samplesPerTick == old(samplesPerTick) && sampleRate == old(sampleRate)
    {
      var note := FindNote(song.tracks[track], playPos);
      if note.None? { return; }
      var n := note.value;
      var st := state[track];
      if n.key != NoKey {
        st := st.(frequency := n.key * 800 + 100, t := 0.0, playing := true);
      }
      if n.vol != NoKey { st := st.(vol := n.vol); }
      if n.pan != NoKey { st := st.(pan := n.pan); }
      state := state[track := st];
    }

    /** `update()`: the melodic tracks, then the percussion tracks, each at
        the current play position. */
    method Update()
      requires Valid()
      modifies this
      ensures Valid()
      ensures state == UpdateTracks(song, playPos, old(state))
      ensures playPos == old(playPos) && samplesThisTick == old(samplesThisTick)
      ensures samplesPerTick == old(samplesPerTick) && sampleRate == old(sampleRate)
    {
      ghost var before := state;
      UpdateKeepsInv(song, playPos, before);
      for track := 0 to MelodicTracks
        invariant |state| == TrackCount
        invariant forall k :: 0 <= k < track ==> state[k] == TrackUpdate(song, playPos, k, before[k])
        invariant forall k :: track <= k < TrackCount ==> state[k] == before[k]
        invariant playPos == old(playPos) && samplesThisTick == old(samplesThisTick)
        invariant samplesPerTick == old(samplesPerTick) && sampleRate == old(sampleRate)
      {
        UpdateMelodic(track);
      }
      for track := MelodicTracks to TrackCount
        invariant |state| == TrackCount
        invariant forall k :: 0 <= k < track ==> state[k] == TrackUpdate(song, playPos, k, before[k])
        invariant forall k :: track <= k < TrackCount ==> state[k] == before[k]
        invariant playPos == old(playPos) && samplesThisTick == old(samplesThisTick)
        invariant samplesPerTick == old(samplesPerTick) && sampleRate == old(sampleRate)
      {
        UpdateDrum(track);
      }
      assert state == UpdateTracks(song, playPos, before);
    }

    /** One track of the per-track loop of `synth()`, the mixing left out. */
    method AdvanceTrack(i: nat, drums: seq<DrumScan.Drum>)
      requires |state| == TrackCount && i < TrackCount && |drums| >= MelodicTracks && sampleRate > 0.0
      requires 0 <= state[i].octave < |AdvTable| && (state[i].looping ==> SourceLength(i, drums) > 0)
      modifies this
      ensures samplesPerTick == old(samplesPerTick) && sampleRate == old(sampleRate)
      ensures playPos == old(playPos) && samplesThisTick == old(samplesThisTick)
      ensures state == old(state)[i := SampleTrack(i, old(state[i]), drums, sampleRate)]
    {
      ghost var before := state[i];
      if state[i].playing {
        var samples := if i < MelodicTracks then 256 else drums[i - MelodicTracks].samples;
        assert samples == SourceLength(i, drums);
        var st := state[i];
        st := st.(t := st.t + (st.frequency as real / sampleRate) * (AdvTable[st.octave] as real));
        ghost var advanced := st;
        assert st.t == before.t + (before.frequency as real / sampleRate) * (AdvTable[before.octave] as real);
        assert advanced.t == Advance(before, sampleRate).t;
        assert advanced == Advance(before, sampleRate);
        if ToInt32(Trunc(st.t)) >= samples {
          if st.looping && st.num_loops != 1 {
            st := st.(t := FMod(st.t, samples));
            if st.num_loops != 1 {
              st := st.(num_loops := st.num_loops - 1);
            }
          } else {
            st := st.(t := 0.0, playing := false);
          }
          assert st == Lapse(advanced, samples);
        }
        assert st == Expire(advanced, samples);
        state := state[i := st];
      }
    }

    /** The per-track part of one sample of `synth()` that is not mixing:
        advance the phase of every playing track and let it wrap or stop. */
    method AdvanceTracks(drums: seq<DrumScan.Drum>)
      requires Valid() && sampleRate > 0.0 && |drums| >= MelodicTracks
      modifies this
      ensures samplesPerTick == old(samplesPerTick) && sampleRate == old(sampleRate)
      ensures playPos == old(playPos) && samplesThisTick == old(samplesThisTick)
      ensures Valid()
      ensures state == SampleTracks(song, old(state), drums, sampleRate)
    {
      ghost var before := state;
      SampleReady(song, before, drums);
      for i := 0 to TrackCount
        invariant samplesPerTick == old(samplesPerTick) && sampleRate == old(sampleRate)
        invariant playPos == old(playPos) && samplesThisTick == old(samplesThisTick)
        invariant |state| == TrackCount
        invariant forall k :: 0 <= k < i ==> state[k] == SampleTrack(k, before[k], drums, sampleRate)
        invariant forall k :: i <= k < TrackCount ==> state[k] == before[k]
      {
        AdvanceTrack(i, drums);
      }
      assert state == SampleTracks(song, before, drums, sampleRate);
    }

    /** `synth()` over a buffer of `frames` samples, the mixing left out. */
    method Synth(drums: seq<DrumScan.Drum>, frames: nat)
      requires Valid() && sampleRate > 0.0 && |drums| >= MelodicTracks
      modifies this
      ensures samplesPerTick == old(samplesPerTick) && sampleRate == old(sampleRate)
      ensures Valid()
      ensures Now() == Run(song, samplesPerTick, drums, sampleRate, old(Now()), frames)
    {
      for sample := 0 to frames
        invariant samplesPerTick == old(samplesPerTick) && sampleRate == old(sampleRate)
        invariant Valid()
        invariant Now() == Run(song, samplesPerTick, drums, sampleRate, old(Now()), sample)
      {
        if samplesThisTick == 0 {
          Update();
        }
        AdvanceTracks(drums);
        samplesThisTick := samplesThisTick + 1;
        if samplesThisTick == samplesPerTick {
          playPos := playPos + 1;
          samplesThisTick := 0;
          if playPos == song.end {
            playPos := song.start;
          }
        }
      }
    }
  }
}
