/** The audio level monitor: it reads fixed-size chunks of 16-bit mono PCM
    from the transport's audio channel, computes the loudness of each full
    chunk, and raises a one-shot trigger after three consecutive loud chunks
    (about 300 ms of sustained crowd noise).

    The source keeps `current_volume = min(rms / 20000, 1)`. A square root
    has no exact counterpart here, so the monitor keeps its square,
    `currentVolumeSq = min(mean square / 20000^2, 1)`; both are non-negative,
    so `current_volume > 0.65` exactly when `currentVolumeSq > 0.65^2`. */
module Audio {

  newtype byte = x: int | 0 <= x < 256

  /** 0.1 s of audio: 4410 samples of two bytes each. */
  const CHUNK_BYTES: nat := 8820
  const CHUNK_SAMPLES: nat := 4410
  /** Sample amplitude that counts as full volume. */
  const LOUDNESS_BASELINE: real := 20000.0
  const AUDIO_THRESH: real := 0.65
  const AUDIO_SUSTAIN: nat := 3
  /** Sum of squares over one chunk above which a chunk is loud:
      13000 = 0.65 * 20000, squared, times the number of samples. */
  const LOUD_SUM_SQUARES: nat := 13000 * 13000 * 4410

  predicate IsInt16(x: int) {
    -32768 <= x < 32768
  }

  /** One little-endian signed 16-bit sample. */
  function Int16(lo: byte, hi: byte): (x: int)
    ensures IsInt16(x)
  {
    var u := lo as int + 256 * hi as int;
    if u >= 32768 then u - 65536 else u
  }

  /** `np.frombuffer(raw, dtype=np.int16)`. */
  function Samples(raw: seq<byte>): (s: seq<int>)
    requires |raw| % 2 == 0
    ensures |s| == |raw| / 2
    ensures forall i :: 0 <= i < |s| ==> IsInt16(s[i])
  {
    if raw == [] then [] else [Int16(raw[0], raw[1])] + Samples(raw[2..])
  }

  /** The byte stream a producer writes for the samples `xs`. */
  function EncodeSamples(xs: seq<int>): (raw: seq<byte>)
    requires forall i :: 0 <= i < |xs| ==> IsInt16(xs[i])
    ensures |raw| == 2 * |xs|
  {
    if xs == [] then []
    else
      var u := xs[0] % 65536;
      [(u % 256) as byte, (u / 256) as byte] + EncodeSamples(xs[1..])
  }

  /** Decoding what was encoded gives back the samples. */
  lemma {:induction false} SamplesOfEncoded(xs: seq<int>)
    requires forall i :: 0 <= i < |xs| ==> IsInt16(xs[i])
    ensures Samples(EncodeSamples(xs)) == xs
  {
    if xs != [] {
      var raw := EncodeSamples(xs);
      SamplesOfEncoded(xs[1..]);
      assert raw[2..] == EncodeSamples(xs[1..]);
      assert Int16(raw[0], raw[1]) == xs[0];
    }
  }

  function SumSquares(s: seq<int>): nat {
    if s == [] then 0 else s[0] * s[0] + SumSquares(s[1..])
  }

  /** The square of `current_volume` for a full chunk. */
  function VolumeSq(raw: seq<byte>): (v: real)
    requires |raw| == CHUNK_BYTES
    ensures 0.0 <= v <= 1.0
  {
    var meanSquare := SumSquares(Samples(raw)) as real / CHUNK_SAMPLES as real;
    var normalised := meanSquare / (LOUDNESS_BASELINE * LOUDNESS_BASELINE);
    if normalised < 1.0 then normalised else 1.0
  }

  /** `current_volume > AUDIO_THRESH` for a full chunk. */
  predicate Loud(raw: seq<byte>)
    requires |raw| == CHUNK_BYTES
  {
    VolumeSq(raw) > AUDIO_THRESH * AUDIO_THRESH
  }

  /** The loudness test needs no square root: a chunk is loud exactly when
      its sum of squares exceeds 13000^2 * 4410. */
  lemma LoudIffSumSquares(raw: seq<byte>)
    requires |raw| == CHUNK_BYTES
    ensures Loud(raw) <==> SumSquares(Samples(raw)) > LOUD_SUM_SQUARES
  {
  }

  /** What survives from one chunk to the next. */
  datatype MonitorState = MonitorState(volumeSq: real, sustainCount: nat, trigger: bool) {
    predicate Valid() {
      0.0 <= volumeSq <= 1.0 && sustainCount < AUDIO_SUSTAIN
    }
  }

  const Initial: MonitorState := MonitorState(0.0, 0, false)

  /** One pass of the monitor's loop over a read of `raw`. */
  function ChunkStep(m: MonitorState, raw: seq<byte>): (r: MonitorState)
    // a short or empty read changes nothing
    ensures |raw| != CHUNK_BYTES ==> r == m
    ensures |raw| == CHUNK_BYTES ==> r.volumeSq == VolumeSq(raw) && r.sustainCount < AUDIO_SUSTAIN
    ensures m.Valid() ==> r.Valid()
    // the monitor never clears the trigger ...
    ensures m.trigger ==> r.trigger
    // ... and sets it only on a loud chunk that completes the sustain count
    ensures r.trigger && !m.trigger ==>
      |raw| == CHUNK_BYTES && Loud(raw) && m.sustainCount + 1 >= AUDIO_SUSTAIN && r.sustainCount == 0
    // a quiet full chunk resets the count
    ensures |raw| == CHUNK_BYTES && !Loud(raw) ==> r.sustainCount == 0 && r.trigger == m.trigger
  {
    if |raw| != CHUNK_BYTES then m
    else
      var v := VolumeSq(raw);
      var count := if v > AUDIO_THRESH * AUDIO_THRESH then m.sustainCount + 1 else 0;
      if count >= AUDIO_SUSTAIN then MonitorState(v, 0, true)
      else MonitorState(v, count, m.trigger)
  }

  /** The state after the chunks `cs`, read in order. */
  function RunChunks(m: MonitorState, cs: seq<seq<byte>>): (r: MonitorState)
    ensures m.Valid() ==> r.Valid()
    ensures m.trigger ==> r.trigger
  {
    if cs == [] then m else ChunkStep(RunChunks(m, cs[..|cs| - 1]), cs[|cs| - 1])
  }

  /** The number of loud full chunks at the end of `cs`; short reads
      neither extend nor break a run. */
  function LoudRun(cs: seq<seq<byte>>): nat {
    if cs == [] then 0
    else
      var last := cs[|cs| - 1];
      if |last| != CHUNK_BYTES then LoudRun(cs[..|cs| - 1])
      else if Loud(last) then LoudRun(cs[..|cs| - 1]) + 1
      else 0
  }

  /** Some prefix of `cs` ends in a run of at least AUDIO_SUSTAIN loud chunks. */
  predicate EverSustained(cs: seq<seq<byte>>) {
    cs != [] && (LoudRun(cs) >= AUDIO_SUSTAIN || EverSustained(cs[..|cs| - 1]))
  }

  /** From a fresh monitor, the counter is the current loud run modulo the
      sustain count: it grows with every loud chunk, drops to zero on a
      quiet one, and restarts from zero after each trigger. */
  lemma {:induction false} SustainCountIsLoudRun(cs: seq<seq<byte>>)
    ensures RunChunks(Initial, cs).sustainCount == LoudRun(cs) % AUDIO_SUSTAIN
  {
    if cs != [] {
      var p, last := cs[..|cs| - 1], cs[|cs| - 1];
      SustainCountIsLoudRun(p);
      if |last| == CHUNK_BYTES && Loud(last) {
        assert LoudRun(cs) == LoudRun(p) + 1;
        CountWraps(LoudRun(p));
      }
    }
  }

  /** One more loud chunk moves the run modulo AUDIO_SUSTAIN up by one,
      back to zero when it reaches AUDIO_SUSTAIN. */
  lemma CountWraps(n: nat)
    ensures (n + 1) % AUDIO_SUSTAIN == if n % AUDIO_SUSTAIN + 1 >= AUDIO_SUSTAIN then 0 else n % AUDIO_SUSTAIN + 1
  {
  }

  /** From a fresh monitor, the trigger is up exactly when some run of
      AUDIO_SUSTAIN consecutive loud chunks has occurred. */
  lemma {:induction false} TriggerIffSustained(cs: seq<seq<byte>>)
    ensures RunChunks(Initial, cs).trigger <==> EverSustained(cs)
  {
    if cs != [] {
      var p := cs[..|cs| - 1];
      TriggerIffSustained(p);
      SustainCountIsLoudRun(p);
    }
  }

  predicate QuietChunk(raw: seq<byte>) {
    |raw| == CHUNK_BYTES && !Loud(raw)
  }

  predicate LoudChunk(raw: seq<byte>) {
    |raw| == CHUNK_BYTES && Loud(raw)
  }

  lemma {:induction false} QuietKeepsTriggerDown(q: seq<seq<byte>>)
    requires forall i :: 0 <= i < |q| ==> QuietChunk(q[i])
    ensures RunChunks(Initial, q) == MonitorState(RunChunks(Initial, q).volumeSq, 0, false)
  {
    if q != [] {
      QuietKeepsTriggerDown(q[..|q| - 1]);
    }
  }

  /** Quiet audio followed by loud chunks: the trigger stays down on the
      first and second loud chunk and goes up on the third. */
  lemma FiresOnThirdLoudChunk(q: seq<seq<byte>>, a: seq<byte>, b: seq<byte>, c: seq<byte>)
    requires forall i :: 0 <= i < |q| ==> QuietChunk(q[i])
    requires LoudChunk(a) && LoudChunk(b) && LoudChunk(c)
    ensures !RunChunks(Initial, q + [a]).trigger
    ensures !RunChunks(Initial, q + [a, b]).trigger
    ensures RunChunks(Initial, q + [a, b, c]).trigger
  {
    QuietKeepsTriggerDown(q);
    var s0 := RunChunks(Initial, q);
    var qa, qab, qabc := q + [a], q + [a, b], q + [a, b, c];
    assert qa[..|qa| - 1] == q && qa[|qa| - 1] == a;
    assert qab[..|qab| - 1] == qa && qab[|qab| - 1] == b;
    assert qabc[..|qabc| - 1] == qab && qabc[|qabc| - 1] == c;
    var s1 := ChunkStep(s0, a);
    assert RunChunks(Initial, qa) == s1;
    assert s1.sustainCount == 1 && !s1.trigger;
    var s2 := ChunkStep(s1, b);
    assert RunChunks(Initial, qab) == s2;
    assert s2.sustainCount == 2 && !s2.trigger;
    assert RunChunks(Initial, qabc) == ChunkStep(s2, c);
  }

  /** One read of the audio channel: bytes, or an exception. */
  datatype PipeRead = Data(bytes: seq<byte>) | ReadError

  function Payloads(results: seq<PipeRead>): (cs: seq<seq<byte>>)
    requires forall j :: 0 <= j < |results| ==> results[j].Data?
    ensures |cs| == |results|
    ensures forall j :: 0 <= j < |results| ==> cs[j] == results[j].bytes
  {
    if results == [] then [] else Payloads(results[..|results| - 1]) + [results[|results| - 1].bytes]
  }

  /** Reading one more successful result appends its bytes to the payloads. */
  lemma PayloadsSnoc(results: seq<PipeRead>, i: nat)
    requires i < |results| && forall j :: 0 <= j <= i ==> results[j].Data?
    ensures Payloads(results[..i + 1]) == Payloads(results[..i]) + [results[i].bytes]
  {
    assert results[..i + 1][..i] == results[..i];
  }

  class AudioMonitor {
    var running: bool
    var currentVolumeSq: real
    var sustainCount: nat
    var trigger: bool

    function State(): MonitorState
      reads this
    {
      MonitorState(currentVolumeSq, sustainCount, trigger)
    }

    constructor ()
      ensures running && State() == Initial
    {
      running := true;
      currentVolumeSq := 0.0;
      sustainCount := 0;
      trigger := false;
    }

    /** The monitor thread's loop over the reads it gets while `running`:
        short reads are skipped, the first failing read ends the loop. */
    method Run(results: seq<PipeRead>) returns (consumed: nat)
      modifies this
      ensures running == old(running)
      ensures consumed <= |results|
      ensures forall j :: 0 <= j < consumed ==> results[j].Data?
      ensures old(running) && consumed < |results| ==> results[consumed].ReadError?
      ensures !old(running) ==> consumed == 0
      ensures State() == RunChunks(old(State()), Payloads(results[..consumed]))
      ensures old(State()).Valid() ==> State().Valid()
    {
      var i := 0;
      while running && i < |results|
        invariant 0 <= i <= |results|
        invariant running == old(running)
        invariant !running ==> i == 0
        invariant forall j :: 0 <= j < i ==> results[j].Data?
        invariant State() == RunChunks(old(State()), Payloads(results[..i]))
      {
        if results[i].ReadError? {
          break;
        }
        var raw := results[i].bytes;
        ghost var before := State();
        if |raw| == CHUNK_BYTES {
          currentVolumeSq := VolumeSq(raw);
          if currentVolumeSq > AUDIO_THRESH * AUDIO_THRESH {
            sustainCount := sustainCount + 1;
          } else {
            sustainCount := 0;
          }
          if sustainCount >= AUDIO_SUSTAIN {
            trigger := true;
            sustainCount := 0;
          }
        }
        assert State() == ChunkStep(before, raw);
        PayloadsSnoc(results, i);
        i := i + 1;
      }
      consumed := i;
    }
  }
}
