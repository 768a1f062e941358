/** The page's `audio_data` handler: 16-bit PCM chunks from the server are
    turned into float samples and scheduled back to back on the Web Audio
    clock through the `nextStartTime` cursor.  Times are `real` seconds. */
module AudioPlayback {
  import opened Common

  /** One signed 16-bit PCM sample (PyAudio paInt16). */
  type Int16 = x: int | -0x8000 <= x < 0x8000

  /** The sample a little-endian byte pair denotes in two's complement. */
  function SampleOf(lo: uint8, hi: uint8): Int16 {
    var u := lo as int + 0x100 * hi as int;
    if u < 0x8000 then u else u - 0x1_0000
  }

  function LowByte(x: Int16): uint8 {
    (x % 0x1_0000) % 0x100
  }

  function HighByte(x: Int16): uint8 {
    (x % 0x1_0000) / 0x100
  }

  lemma SampleBytes(x: Int16)
    ensures SampleOf(LowByte(x), HighByte(x)) == x
  {
  }

  /** The bytes PyAudio hands over for a run of samples: two per sample,
      low byte first. */
  function EncodePcm(samples: seq<Int16>): (data: Bytes)
    ensures |data| == 2 * |samples|
  {
    seq(2 * |samples|, j requires 0 <= j < 2 * |samples| =>
      if j % 2 == 0 then LowByte(samples[j / 2]) else HighByte(samples[j / 2]))
  }

  /** `new Int16Array(data)`: a view of the bytes as samples; a buffer of
      odd length raises RangeError, and the handler gives up on the chunk. */
  function DecodePcm(data: Bytes): Option<seq<Int16>> {
    if |data| % 2 != 0 then None
    else Some(seq(|data| / 2, i requires 0 <= i < |data| / 2 => SampleOf(data[2 * i], data[2 * i + 1])))
  }

  /** Every run of samples the server sends reaches the page unchanged. */
  lemma PcmRoundTrip(samples: seq<Int16>)
    ensures DecodePcm(EncodePcm(samples)) == Some(samples)
  {
    var data := EncodePcm(samples);
    assert |data| % 2 == 0 && |data| / 2 == |samples|;
    var decoded := DecodePcm(data).value;
    forall i | 0 <= i < |samples|
      ensures decoded[i] == samples[i]
    {
      assert data[2 * i] == LowByte(samples[i]);
      assert data[2 * i + 1] == HighByte(samples[i]);
      SampleBytes(samples[i]);
    }
    assert decoded == samples;
  }

  /** The fixed-point reading of a sample as a float: `f * 32768` is the sample. */
  ghost predicate FloatOf(f: seq<real>, pcm: seq<Int16>) {
    |f| == |pcm| && forall i | 0 <= i < |f| :: f[i] * 32768.0 == pcm[i] as real
  }

  /** The conversion loop: divide every sample by 32768.  Each quotient is
      exactly representable in single precision, so nothing is rounded here. */
  method PcmToFloat(pcm: seq<Int16>) returns (f: seq<real>)
    ensures FloatOf(f, pcm)
    ensures forall i | 0 <= i < |f| :: -1.0 <= f[i] < 1.0
  {
    f := [];
    var i := 0;
    while i < |pcm|
      invariant 0 <= i <= |pcm|
      invariant FloatOf(f, pcm[..i])
      invariant forall k | 0 <= k < |f| :: -1.0 <= f[k] < 1.0
    {
      f := f + [pcm[i] as real / 32768.0];
      i := i + 1;
    }
    assert pcm[..i] == pcm;
  }

  /** The lead the Linux page leaves after an underrun. */
  const UnderrunLead: real := 0.02

  /** The buffer sample rate: 44100 Hz in main.py, 48000 Hz in main_linux.py. */
  function SampleRate(variant: Variant): (r: nat)
    ensures r > 0
  {
    match variant
    case Windows => 44100
    case Linux => 48000
  }

  /** `buffer.duration` for a buffer of `n` samples. */
  function Duration(variant: Variant, n: nat): (d: real)
    ensures d >= 0.0
    ensures n > 0 ==> d > 0.0
  {
    n as real / SampleRate(variant) as real
  }

  /** When a chunk arriving at clock `now` is started, given the cursor:
      on time it goes right after the previous chunk; after an underrun
      main.py starts it at once and main_linux.py 20 ms later. */
  function StartOf(variant: Variant, next: real, now: real): (start: real)
    ensures start >= now && start >= next
    ensures now <= next ==> start == next
  {
    if next < now then
      match variant
      case Windows => now
      case Linux => now + UnderrunLead
    else next
  }

  /** main.py starts each chunk at the later of the cursor and the clock. */
  lemma WindowsStartIsMax(next: real, now: real)
    ensures StartOf(Windows, next, now) == Max(next, now)
  {
  }

  /** main_linux.py restarts a fallen-behind cursor 20 ms ahead of the clock. */
  lemma LinuxUnderrunLead(next: real, now: real)
    requires next < now
    ensures StartOf(Linux, next, now) == now + UnderrunLead
    ensures StartOf(Linux, next, now) > now
  {
  }

  /** One chunk that gets scheduled: the clock when it arrived and its length
      in samples. */
  datatype Chunk = Chunk(now: real, samples: nat)

  /** The cursor after scheduling one chunk. */
  function Advance(variant: Variant, next: real, c: Chunk): real {
    StartOf(variant, next, c.now) + Duration(variant, c.samples)
  }

  /** The start times of a run of chunks, from the cursor `next`. */
  function Starts(variant: Variant, next: real, cs: seq<Chunk>): seq<real>
    decreases |cs|
  {
    if cs == [] then []
    else [StartOf(variant, next, cs[0].now)] + Starts(variant, Advance(variant, next, cs[0]), cs[1..])
  }

  /** The schedule never overlaps two chunks, never starts one before it
      arrived, and plays chunks that arrive in time gaplessly, each one
      starting exactly where the previous one ends. */
  lemma {:induction false} TimelineGapless(variant: Variant, next: real, cs: seq<Chunk>)
    ensures |Starts(variant, next, cs)| == |cs|
    ensures |cs| > 0 ==> Starts(variant, next, cs)[0] >= next
    ensures forall k | 0 <= k < |cs| :: Starts(variant, next, cs)[k] >= cs[k].now
    ensures forall k | 0 <= k < |cs| - 1 ::
      Starts(variant, next, cs)[k] + Duration(variant, cs[k].samples) <= Starts(variant, next, cs)[k + 1]
    ensures forall k | 0 <= k < |cs| - 1 ::
      cs[k + 1].now <= Starts(variant, next, cs)[k] + Duration(variant, cs[k].samples) ==>
        Starts(variant, next, cs)[k + 1] == Starts(variant, next, cs)[k] + Duration(variant, cs[k].samples)
    decreases |cs|
  {
    if cs != [] {
      var rest := Starts(variant, Advance(variant, next, cs[0]), cs[1..]);
      TimelineGapless(variant, Advance(variant, next, cs[0]), cs[1..]);
      var st := Starts(variant, next, cs);
      assert st == [StartOf(variant, next, cs[0].now)] + rest;
      forall k | 0 <= k < |cs| - 1
        ensures st[k] + Duration(variant, cs[k].samples) <= st[k + 1]
        ensures cs[k + 1].now <= st[k] + Duration(variant, cs[k].samples) ==>
          st[k + 1] == st[k] + Duration(variant, cs[k].samples)
      {
        if k > 0 {
          assert st[k] == rest[k - 1] && st[k + 1] == rest[k];
          assert cs[k] == cs[1..][k - 1] && cs[k + 1] == cs[1..][k];
        }
      }
      forall k | 0 <= k < |cs|
        ensures st[k] >= cs[k].now
      {
        if k > 0 {
          assert st[k] == rest[k - 1];
          assert cs[k] == cs[1..][k - 1];
        }
      }
    }
  }

  /** One chunk handed to the audio graph: its start time and its samples. */
  datatype Scheduled = Scheduled(start: real, samples: seq<real>)

  /** The page's audio state. */
  class AudioPlayer {
    const variant: Variant
    var contextReady: bool
    var nextStartTime: real
    var scheduled: seq<Scheduled>

    constructor (variant: Variant)
      ensures this.variant == variant
      ensures !contextReady && nextStartTime == 0.0 && scheduled == []
    {
      this.variant := variant;
      contextReady := false;
      nextStartTime := 0.0;
      scheduled := [];
    }

    /** `startAudio`: create the context once; the cursor is left as it is. */
    method StartAudio()
      modifies this
      ensures contextReady
      ensures nextStartTime == old(nextStartTime) && scheduled == old(scheduled)
    {
      contextReady := true;
    }

    /** The `audio_data` handler, with the audio clock reading `now`.  Data
        before `startAudio`, a buffer of odd length and an empty chunk
        (createBuffer refuses length 0) all leave the state alone. */
    method OnAudioData(data: Bytes, now: real)
      modifies this
      ensures var pcm := DecodePcm(data);
        if old(contextReady) && pcm.Some? && |pcm.value| > 0 then
          && |scheduled| == |old(scheduled)| + 1
          && scheduled[..|old(scheduled)|] == old(scheduled)
          && scheduled[|old(scheduled)|].start == StartOf(variant, old(nextStartTime), now)
          && FloatOf(scheduled[|old(scheduled)|].samples, pcm.value)
          && nextStartTime == Advance(variant, old(nextStartTime), Chunk(now, |pcm.value|))
        else
          nextStartTime == old(nextStartTime) && scheduled == old(scheduled)
      ensures contextReady == old(contextReady)
    {
      if !contextReady {
        return;
      }
      var pcm := DecodePcm(data);
      if pcm.None? || |pcm.value| == 0 {
        return;
      }
      var f := PcmToFloat(pcm.value);
      var start := StartOf(variant, nextStartTime, now);
      scheduled := scheduled + [Scheduled(start, f)];
      nextStartTime := start + Duration(variant, |f|);
    }
  }
}
