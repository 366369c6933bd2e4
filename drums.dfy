/**
 * The drum scan of `initOrganya`: past the 100 melodic waveforms of the
 * wavetable blob, every offset is searched for the RIFF form type "WAVE";
 * a hit followed by a "fmt " chunk of PCM format 1, one channel, and a
 * "data" chunk yields a drum descriptor pointing at the sample bytes.
 */
module DrumScan {
  import opened Wrappers
  import opened Bytes

  const MelodicBankSize: nat := 25600   // 100 waveforms of 256 samples
  const WaveSig: int := 0x45564157      // "WAVE"
  const FmtId: int := 0x20746d66        // "fmt "
  const DataId: int := 0x61746164       // "data"
  const PcmFormat: int := 1

  /** Offset of the sample bytes from the "WAVE" signature. */
  const SampleOffset: nat := 36

  datatype Drum = Drum(filePos: nat, bits: int, channels: int, samples: nat)

  /** A read past the end of the blob makes DataView throw. */
  datatype ScanError = Truncated

  /** A well-formed mono PCM asset whose "WAVE" signature is at offset s,
      described by d. */
  predicate IsDrumAt(blob: seq<byte>, s: nat, d: Drum)
  {
    && s + SampleOffset <= |blob|
    && U32(blob, s) == WaveSig
    && U32(blob, s + 4) == FmtId
    && U16(blob, s + 12) == PcmFormat
    && U16(blob, s + 14) == 1
    && U32(blob, s + 28) == DataId
    && d == Drum(s + SampleOffset, U16(blob, s + 26), 1, U32(blob, s + 32))
  }

  /** Each descriptor starts past the previous one's sample bytes, and past
      the byte the scan resumed at. */
  predicate Separated(ds: seq<Drum>)
  {
    forall k :: 0 <= k < |ds| - 1 ==> ds[k].filePos + ds[k].samples + 1 + SampleOffset <= ds[k + 1].filePos
  }

  function Prepend(ds: seq<Drum>, r: Result<seq<Drum>, ScanError>): Result<seq<Drum>, ScanError>
  {
    match r
    case Ok(rest) => Ok(ds + rest)
    case Err(e) => Err(e)
  }

  lemma PrependNothing(r: Result<seq<Drum>, ScanError>)
    ensures Prepend([], r) == r
  {
    if r.Ok? {
      assert [] + r.value == r.value;
    }
  }

  lemma PrependTwice(a: seq<Drum>, b: seq<Drum>, r: Result<seq<Drum>, ScanError>)
    ensures Prepend(a, Prepend(b, r)) == Prepend(a + b, r)
  {
    if r.Ok? {
      assert a + (b + r.value) == (a + b) + r.value;
    }
  }

  /** What the scan makes of offset i. */
  datatype Step =
    | Miss              // no "WAVE" here: on to the next byte
    | Skip(next: nat)   // a malformed candidate: resume at next
    | Hit(d: Drum)      // a drum: resume one byte past its samples
    | Short             // a read ran past the end

  /**
   * One candidate. A wrong chunk id resumes one byte past the chunk header;
   * a wrong format, channel count or data id resumes one byte past the
   * declared "fmt " chunk length.
   */
  function StepAt(blob: seq<byte>, i: nat): (st: Step)
    requires i + 4 <= |blob|
    ensures st.Skip? ==>
      && i + 12 <= |blob|
      && st.next == (if U32(blob, i + 4) != FmtId then i + 13 else i + 13 + U32(blob, i + 8))
    ensures st.Hit? ==> IsDrumAt(blob, i, st.d)
    ensures forall d :: IsDrumAt(blob, i, d) ==> st == Hit(d)
    ensures st.Short? <==>
      && U32(blob, i) == WaveSig
      && (|| |blob| < i + 12
          || (&& U32(blob, i + 4) == FmtId
              && (|| |blob| < i + 14
                  || (&& U16(blob, i + 12) == PcmFormat
                      && (|blob| < i + 16 || (U16(blob, i + 14) == 1 && |blob| < i + SampleOffset))))))
    ensures st.Miss? <==> U32(blob, i) != WaveSig
  {
    if U32(blob, i) != WaveSig then Miss
    else if |blob| < i + 12 then Short
    else
      var riffId := U32(blob, i + 4);
      var riffLen := U32(blob, i + 8);
      var startPos := i + 12;
      if riffId != FmtId then Skip(startPos + 1)
      else if |blob| < startPos + 2 then Short
      else if U16(blob, startPos) != PcmFormat then Skip(startPos + riffLen + 1)
      else if |blob| < startPos + 4 then Short
      else if U16(blob, startPos + 2) != 1 then Skip(startPos + riffLen + 1)
      else if |blob| < startPos + 24 then Short
      else if U32(blob, startPos + 16) != DataId then Skip(startPos + riffLen + 1)
      else Hit(Drum(startPos + 24, U16(blob, startPos + 14), 1, U32(blob, startPos + 20)))
  }

  /** The descriptors found at or after offset i, each a well-formed asset. */
  predicate FoundFrom(blob: seq<byte>, i: nat, ds: seq<Drum>)
  {
    forall k :: 0 <= k < |ds| ==>
      ds[k].filePos >= i + SampleOffset && IsDrumAt(blob, ds[k].filePos - SampleOffset, ds[k])
  }

  /** A drum at i followed by what the scan finds past its samples keeps
      both properties of a scan result. */
  lemma HitKeeps(blob: seq<byte>, i: nat, d: Drum, rest: seq<Drum>)
    requires IsDrumAt(blob, i, d)
    requires FoundFrom(blob, d.filePos + d.samples + 1, rest) && Separated(rest)
    ensures FoundFrom(blob, i, [d] + rest) && Separated([d] + rest)
  {
    var ds := [d] + rest;
    forall k | 0 <= k < |ds| - 1
      ensures ds[k].filePos + ds[k].samples + 1 + SampleOffset <= ds[k + 1].filePos
    {
      if k > 0 { assert ds[k] == rest[k - 1] && ds[k + 1] == rest[k]; }
      else { assert ds[1] == rest[0]; }
    }
    forall k | 0 <= k < |ds|
      ensures ds[k].filePos >= i + SampleOffset && IsDrumAt(blob, ds[k].filePos - SampleOffset, ds[k])
    {
      if k > 0 { assert ds[k] == rest[k - 1]; }
    }
  }

  /** The descriptors the scan appends from index i on. */
  function ScanFrom(blob: seq<byte>, i: nat): (r: Result<seq<Drum>, ScanError>)
    ensures r.Ok? ==> FoundFrom(blob, i, r.value) && Separated(r.value)
    ensures r.Err? ==> exists s :: i <= s && s + 4 <= |blob| && U32(blob, s) == WaveSig && |blob| < s + SampleOffset
    decreases |blob| - i
  {
    if !(i + 4 < |blob|) then Ok([])
    else
      match StepAt(blob, i)
      case Miss => ScanFrom(blob, i + 1)
      case Skip(next) => ScanFrom(blob, next)
      case Hit(d) =>
        var rest := ScanFrom(blob, d.filePos + d.samples + 1);
        if rest.Ok? then HitKeeps(blob, i, d, rest.value); Prepend([d], rest)
        else Prepend([d], rest)
      case Short => Err(Truncated)
  }

  /** The descriptors come out in strictly increasing file order. */
  lemma {:induction false} SeparatedIncreasing(ds: seq<Drum>)
    requires Separated(ds)
    ensures forall k, l :: 0 <= k < l < |ds| ==> ds[k].filePos < ds[l].filePos
  {
    if |ds| >= 2 {
      var init := ds[..|ds| - 1];
      assert Separated(init) by {
        forall k | 0 <= k < |init| - 1
          ensures init[k].filePos + init[k].samples + 1 + SampleOffset <= init[k + 1].filePos
        {
          assert init[k] == ds[k] && init[k + 1] == ds[k + 1];
        }
      }
      SeparatedIncreasing(init);
      forall k, l | 0 <= k < l < |ds|
        ensures ds[k].filePos < ds[l].filePos
      {
        if l < |ds| - 1 {
          assert ds[k] == init[k] && ds[l] == init[l];
        } else if k < l - 1 {
          assert ds[k] == init[k] && ds[l - 1] == init[l - 1];
        }
      }
    }
  }

  /** A blob with no "WAVE" signature at or after offset i yields no drums
      from i on, and no error. */
  lemma {:induction false} NoSignatureNoDrums(blob: seq<byte>, i: nat)
    requires forall j :: i <= j && j + 4 <= |blob| ==> U32(blob, j) != WaveSig
    ensures ScanFrom(blob, i) == Ok([])
    decreases |blob| - i
  {
    if i + 4 < |blob| {
      assert StepAt(blob, i) == Miss;
      NoSignatureNoDrums(blob, i + 1);
    }
  }

  /** Every well-formed asset the scan reaches is found: when the bytes
      from i0 up to a well-formed asset at i hold no "WAVE" signature, the
      scan from i0 yields that asset's descriptor first and resumes one byte
      past its samples. */
  lemma {:induction false} ScanFindsDrum(blob: seq<byte>, i0: nat, i: nat, d: Drum)
    requires i0 <= i && IsDrumAt(blob, i, d)
    requires forall j :: i0 <= j < i ==> U32(blob, j) != WaveSig
    ensures ScanFrom(blob, i0) == Prepend([d], ScanFrom(blob, d.filePos + d.samples + 1))
    ensures ScanFrom(blob, i0).Ok? ==> ScanFrom(blob, i0).value[0] == d
    decreases i - i0
  {
    if i0 < i {
      assert StepAt(blob, i0) == Miss;
      ScanFindsDrum(blob, i0 + 1, i, d);
    } else {
      assert StepAt(blob, i) == Hit(d);
    }
  }

  /** The reads of one iteration of the scan loop at offset i, in the
      source's order; a read past the end is Short. */
  method Examine(blob: seq<byte>, i: nat) returns (st: Step)
    requires i + 4 <= |blob|
    ensures st == StepAt(blob, i)
  {
    var p := i;
    if U32(blob, p) != WaveSig { return Miss; }
    p := p + 4;
    if |blob| < p + 8 { return Short; }
    var riffId := U32(blob, p); p := p + 4;
    var riffLen := U32(blob, p); p := p + 4;
    if riffId != FmtId { return Skip(p + 1); }
    var startPos := p;
    if |blob| < p + 2 { return Short; }
    var aFormat := U16(blob, p); p := p + 2;
    if aFormat != PcmFormat { return Skip(startPos + riffLen + 1); }
    if |blob| < p + 2 { return Short; }
    var channels := U16(blob, p); p := p + 2;
    if channels != 1 { return Skip(startPos + riffLen + 1); }
    if |blob| < p + 20 { return Short; }
    p := p + 10;  // sample rate and padding, unused
    var bits := U16(blob, p); p := p + 2;
    var wavData := U32(blob, p); p := p + 4;
    var wavLen := U32(blob, p); p := p + 4;
    if wavData != DataId { return Skip(startPos + riffLen + 1); }
    return Hit(Drum(p, bits, channels, wavLen));
  }

  /** The scan loop of `initOrganya`, over the blob handed to it: a drum
      moves the cursor past its samples, a malformed "fmt " chunk past its
      declared length, and every iteration ends one byte further on. */
  method ScanDrums(blob: seq<byte>) returns (r: Result<seq<Drum>, ScanError>)
    ensures r == ScanFrom(blob, MelodicBankSize)
  {
    var drums: seq<Drum> := [];
    var i: nat := MelodicBankSize;
    PrependNothing(ScanFrom(blob, i));
    while i + 4 < |blob|
      invariant Prepend(drums, ScanFrom(blob, i)) == ScanFrom(blob, MelodicBankSize)
      decreases |blob| - i
    {
      var st := Examine(blob, i);
      match st
      case Miss =>
        i := i + 1;
      case Skip(next) =>
        i := next;
      case Hit(d) =>
        PrependTwice(drums, [d], ScanFrom(blob, d.filePos + d.samples + 1));
        drums := drums + [d];
        i := d.filePos + d.samples + 1;
      case Short =>
        return Err(Truncated);
    }
    PrependNothing(Ok([]));
    assert drums + [] == drums;
    r := Ok(drums);
  }
}
