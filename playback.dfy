/**
 * The per-sample bookkeeping of `synth()` that is not audio mixing: the
 * phase of every playing track advances and, once it has run past the end
 * of its waveform or drum sample, the track either wraps (spending one of
 * its loops) or stops; and the tick clock counts samples and moves the play
 * position one step per tick, jumping from the loop end back to the loop
 * start. The phase is an exact real here (see README).
 */
module Playback {
  import opened Bytes
  import opened Sequencer
  import DrumScan

  // -------------------------------------------------------- JavaScript numbers

  /** Rounding toward zero, as ToInt32 does before wrapping. */
  function Trunc(x: real): (r: int)
    ensures x >= 0.0 ==> r >= 0 && r as real <= x < r as real + 1.0
    ensures x < 0.0 ==> r <= 0 && r as real - 1.0 < x <= r as real
  {
    if x >= 0.0 then x.Floor else -((-x).Floor)
  }

  /** `n | 0` for an integral n: the 32-bit two's-complement wrap. */
  function ToInt32(n: int): (r: int)
    ensures IsI32(r)
    ensures IsI32(n) ==> r == n
    ensures (n - r) % TwoTo32 == 0
  {
    var m := n % TwoTo32;
    if m < 0x8000_0000 then m else m - TwoTo32
  }

  /** `x % n` on numbers: the remainder of the quotient truncated toward
      zero, with the sign of x. */
  function FMod(x: real, n: int): real
    requires n > 0
  {
    x - (Trunc(x / n as real) as real) * (n as real)
  }

  lemma PositiveProduct(a: real, b: real)
    requires a > 0.0 && b > 0.0
    ensures a * b > 0.0
  {
  }

  /** A non-negative phase wraps into the sample: 0 <= x % n < n. */
  lemma FModRange(x: real, n: int)
    requires n > 0 && x >= 0.0
    ensures 0.0 <= FMod(x, n) < n as real
  {
    var N := n as real;
    var q := Trunc(x / N) as real;
    assert q <= x / N < q + 1.0;
    assert (x / N) * N == x;
    assert q * N <= x by {
      var d := x / N - q;
      assert x - q * N == d * N;
      if d > 0.0 { PositiveProduct(d, N); }
    }
    assert x < q * N + N by {
      var d := q + 1.0 - x / N;
      assert d > 0.0;
      assert q * N + N - x == d * N;
      PositiveProduct(d, N);
    }
  }

  // -------------------------------------------------------- loop expiry

  /** Samples in the source of track i: a 256-sample waveform for the
      melodic tracks, the drum's sample count for the percussion tracks. */
  function SourceLength(i: nat, drums: seq<DrumScan.Drum>): int
    requires i < 16 && (i >= MelodicTracks ==> i - MelodicTracks < |drums|)
  {
    if i < MelodicTracks then 256 else drums[i - MelodicTracks].samples
  }

  /** The phase step of one sample: frequency over sample rate, times the
      octave's wavetable step. */
  function Advance(s: TrackState, sampleRate: real): TrackState
    requires sampleRate > 0.0 && 0 <= s.octave < |AdvTable|
  {
    s.(t := s.t + (s.frequency as real / sampleRate) * (AdvTable[s.octave] as real))
  }

  /** `(t | 0) >= samples`: the phase has run past the source. */
  predicate Reached(s: TrackState, samples: int)
  {
    ToInt32(Trunc(s.t)) >= samples
  }

  /** What happens when the phase has run past the source: a looping track
      with a loop count other than 1 wraps its phase and spends a loop;
      any other track is stopped and its phase reset. */
  function Lapse(s: TrackState, samples: int): TrackState
    requires s.looping ==> samples > 0
  {
    if s.looping && s.num_loops != 1 then s.(t := FMod(s.t, samples), num_loops := s.num_loops - 1)
    else s.(t := 0.0, playing := false)
  }

  function Expire(s: TrackState, samples: int): TrackState
    requires s.looping ==> samples > 0
  {
    if Reached(s, samples) then Lapse(s, samples) else s
  }

  /** What one sample does to track i: a playing track advances and may
      expire; a silent one is left alone. */
  function SampleTrack(i: nat, s: TrackState, drums: seq<DrumScan.Drum>, sampleRate: real): TrackState
    requires i < 16 && (i >= MelodicTracks ==> i - MelodicTracks < |drums|)
    requires sampleRate > 0.0 && 0 <= s.octave < |AdvTable|
    requires s.looping ==> SourceLength(i, drums) > 0
  {
    if s.playing then Expire(Advance(s, sampleRate), SourceLength(i, drums)) else s
  }

  /** A wrap leaves the phase inside the source; a stop leaves it at 0. */
  lemma LapsePhase(s: TrackState, samples: int)
    requires s.looping ==> samples > 0
    requires s.playing && s.t >= 0.0
    ensures var r := Lapse(s, samples);
      0.0 <= r.t && (r.playing ==> r.t < samples as real) && (!r.playing ==> r.t == 0.0)
  {
    if s.looping && s.num_loops != 1 {
      FModRange(s.t, samples);
    }
  }

  /** k consecutive lapses, the phase running past the source each time. */
  function Lapses(s: TrackState, samples: int, k: nat): TrackState
    requires s.looping ==> samples > 0
    ensures Lapses(s, samples, k).looping == s.looping
  {
    if k == 0 then s else Lapse(Lapses(s, samples, k - 1), samples)
  }

  /** A looping track whose count is 0 or below (every non-pipi instrument)
      never reaches 1: it wraps for ever, the count going down by one each
      time. */
  lemma {:induction false} LoopsForever(s: TrackState, samples: int, k: nat)
    requires s.looping && samples > 0 && s.playing && s.num_loops <= 0
    ensures Lapses(s, samples, k).playing
    ensures Lapses(s, samples, k).num_loops == s.num_loops - k
  {
    if k > 0 {
      LoopsForever(s, samples, k - 1);
    }
  }

  /** A looping track with a count n >= 1 (a pipi instrument) wraps n - 1
      times and is stopped, phase 0, by the n-th lapse. */
  lemma {:induction false} LoopCountRunsOut(s: TrackState, samples: int, k: nat)
    requires s.looping && samples > 0 && s.playing && s.num_loops >= 1
    requires k <= s.num_loops
    ensures var r := Lapses(s, samples, k);
      if k < s.num_loops then r.playing && r.num_loops == s.num_loops - k
      else !r.playing && r.t == 0.0
  {
    if k > 0 {
      LoopCountRunsOut(s, samples, k - 1);
    }
  }

  /** A track that does not loop (every drum) stops at its first lapse. */
  lemma OneShot(s: TrackState, samples: int)
    requires !s.looping
    ensures !Lapse(s, samples).playing && Lapse(s, samples).t == 0.0
    ensures Lapse(s, samples).(t := s.t, playing := s.playing) == s
  {
  }

  /** The per-sample step keeps the sequencer's invariants. */
  lemma SampleTrackInv(ins: SongFormat.Instrument, i: nat, s: TrackState, drums: seq<DrumScan.Drum>, sampleRate: real)
    requires i < 16 && (i >= MelodicTracks ==> i - MelodicTracks < |drums|)
    requires sampleRate > 0.0
    requires if i < MelodicTracks then MelodicInv(ins, s) else DrumInv(s)
    ensures s.looping ==> SourceLength(i, drums) > 0
    ensures var r := SampleTrack(i, s, drums, sampleRate);
      if i < MelodicTracks then MelodicInv(ins, r) else DrumInv(r)
  {
  }

  // -------------------------------------------------------- the tick clock

  datatype Clock = Clock(playPos: int, samplesThisTick: int)

  /** The play position after a tick: one further, except that the loop end
      (reached exactly) goes back to the loop start. */
  function NextPos(pos: int, start: int, end: int): int
  {
    if pos + 1 == end then start else pos + 1
  }

  /** The clock after one sample with samplesPerTick samples per tick. */
  function Tick(c: Clock, samplesPerTick: int, start: int, end: int): Clock
  {
    var n := c.samplesThisTick + 1;
    if n == samplesPerTick then Clock(NextPos(c.playPos, start, end), 0)
    else Clock(c.playPos, n)
  }

  /** The clock after m samples. */
  function Ticks(c: Clock, samplesPerTick: int, start: int, end: int, m: nat): Clock
  {
    if m == 0 then c else Tick(Ticks(c, samplesPerTick, start, end, m - 1), samplesPerTick, start, end)
  }

  /** The play position after k ticks. */
  function Rows(pos: int, start: int, end: int, k: nat): int
  {
    if k == 0 then pos else NextPos(Rows(pos, start, end, k - 1), start, end)
  }

  /** The sample counter stays in [0, samplesPerTick); it returns to 0
      exactly when the position moves, and the position moves by NextPos. */
  lemma TickInRange(c: Clock, samplesPerTick: int, start: int, end: int)
    requires 0 <= c.samplesThisTick < samplesPerTick
    ensures var r := Tick(c, samplesPerTick, start, end);
      && 0 <= r.samplesThisTick < samplesPerTick
      && (r.samplesThisTick == 0 <==> c.samplesThisTick == samplesPerTick - 1)
      && (r.playPos == if r.samplesThisTick == 0 then NextPos(c.playPos, start, end) else c.playPos)
  {
  }

  lemma {:induction false} TicksAdd(c: Clock, samplesPerTick: int, start: int, end: int, a: nat, b: nat)
    ensures Ticks(c, samplesPerTick, start, end, a + b) ==
            Ticks(Ticks(c, samplesPerTick, start, end, a), samplesPerTick, start, end, b)
  {
    if b > 0 {
      TicksAdd(c, samplesPerTick, start, end, a, b - 1);
    }
  }

  /** Inside a tick the counter only counts. */
  lemma {:induction false} WithinTick(pos: int, samplesPerTick: int, start: int, end: int, m: nat)
    requires m < samplesPerTick
    ensures Ticks(Clock(pos, 0), samplesPerTick, start, end, m) == Clock(pos, m)
  {
    if m > 0 {
      WithinTick(pos, samplesPerTick, start, end, m - 1);
    }
  }

  /** From the start of a tick, every samplesPerTick samples advance the
      play position by exactly one tick. */
  lemma {:induction false} TicksPerRow(pos: int, samplesPerTick: int, start: int, end: int, k: nat)
    requires samplesPerTick > 0
    ensures Ticks(Clock(pos, 0), samplesPerTick, start, end, samplesPerTick * k) ==
            Clock(Rows(pos, start, end, k), 0)
  {
    if k > 0 {
      var c := Clock(pos, 0);
      var spt := samplesPerTick;
      TicksPerRow(pos, spt, start, end, k - 1);
      assert spt * k == spt * (k - 1) + spt;
      TicksAdd(c, spt, start, end, spt * (k - 1), spt);
      var mid := Rows(pos, start, end, k - 1);
      WithinTick(mid, spt, start, end, spt - 1);
      assert Ticks(Clock(mid, 0), spt, start, end, spt) == Tick(Clock(mid, spt - 1), spt, start, end);
    }
  }

  lemma {:induction false} MulAtLeast(a: int, d: int)
    requires a > 0 && d >= 1
    ensures a * d >= a
    decreases d
  {
    if d > 1 {
      MulAtLeast(a, d - 1);
      assert a * d == a * (d - 1) + a;
    }
  }

  lemma ModUnique(x: int, len: int, q: int, r: int)
    requires len > 0 && x == len * q + r && 0 <= r < len
    ensures x % len == r
  {
    var q2, r2 := x / len, x % len;
    assert len * (q - q2) == r2 - r;
    if q > q2 {
      MulAtLeast(len, q - q2);
    } else if q < q2 {
      MulAtLeast(len, q2 - q);
    }
  }

  /** One step of the cycle through [start, start + len). */
  lemma CycleStep(start: int, len: int, a: int)
    requires len > 0 && a >= 0
    ensures NextPos(start + a % len, start, start + len) == start + (a + 1) % len
  {
    var q, m := a / len, a % len;
    assert a == len * q + m;
    if m + 1 == len {
      assert a + 1 == len * (q + 1) + 0;
      ModUnique(a + 1, len, q + 1, 0);
    } else {
      ModUnique(a + 1, len, q, m + 1);
    }
  }

  /** Between loop start and loop end the position cycles through
      [start, end), the end going back to the start. */
  lemma {:induction false} RowsCycle(pos: int, start: int, end: int, k: nat)
    requires start <= pos < end
    ensures Rows(pos, start, end, k) == start + (pos - start + k) % (end - start)
  {
    if k == 0 {
      ModUnique(pos - start, end - start, 0, pos - start);
    } else {
      RowsCycle(pos, start, end, k - 1);
      CycleStep(start, end - start, pos - start + k - 1);
    }
  }

  /** The position wraps only on equality with the loop end: from at or
      past the end it never wraps again. */
  lemma {:induction false} RowsRunaway(pos: int, start: int, end: int, k: nat)
    requires pos >= end
    ensures Rows(pos, start, end, k) == pos + k
  {
    if k > 0 {
      RowsRunaway(pos, start, end, k - 1);
    }
  }

  /** With zero samples per tick the counter never comes back to 0: the
      position stays where it is. */
  lemma {:induction false} StalledClock(c: Clock, samplesPerTick: int, start: int, end: int, m: nat)
    requires samplesPerTick <= 0 && c.samplesThisTick >= 0
    ensures Ticks(c, samplesPerTick, start, end, m) == Clock(c.playPos, c.samplesThisTick + m)
  {
    if m > 0 {
      StalledClock(c, samplesPerTick, start, end, m - 1);
    }
  }
}
