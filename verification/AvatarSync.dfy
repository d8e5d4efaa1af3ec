/** The avatar sync manager: PCM conversion, per-frame audio slices and timecodes, with durations
    and sample values as exact reals. */
module AvatarSync {
  import opened Prelude

  type Byte = b: nat | b < 256

  // ----- Timecodes --------------------------------------------------------------

  datatype Timecode = Timecode(hours: nat, minutes: nat, seconds: nat, frames: nat, frameRate: nat)

  function Fps(frameRate: nat): nat {
    if frameRate > 1 then frameRate else 1
  }

  function FromFrameIndex(index: nat, frameRate: nat): Timecode {
    var fps := Fps(frameRate);
    var total := index / fps;
    Timecode((total / 3600) % 24, (total / 60) % 60, total % 60, index % fps, frameRate)
  }

  predicate ValidTimecode(t: Timecode) {
    t.hours < 24 && t.minutes < 60 && t.seconds < 60 && t.frames < Fps(t.frameRate)
  }

  function SecondsOf(t: Timecode): nat {
    (t.hours * 60 + t.minutes) * 60 + t.seconds
  }

  /** The timecode read as a mixed-radix number of frames. */
  function IndexOf(t: Timecode): nat {
    SecondsOf(t) * Fps(t.frameRate) + t.frames
  }

  const DAY := 86_400

  lemma DivModUnique(n: nat, d: nat, q: nat, r: nat)
    requires d > 0 && n == q * d + r && r < d
    ensures n / d == q && n % d == r
  {
    if n / d < q {
      assert (q - n / d) * d >= d by { MulAtLeast(q - n / d, d); }
    } else if n / d > q {
      assert (n / d - q) * d >= d by { MulAtLeast(n / d - q, d); }
    }
  }

  lemma {:induction false} MulAtLeast(k: nat, d: nat)
    requires k > 0
    ensures k * d >= d
  {
    if k > 1 {
      MulAtLeast(k - 1, d);
    }
  }

  lemma SecondsRead(total: nat)
    ensures (((total / 3600) % 24) * 60 + (total / 60) % 60) * 60 + total % 60 == total % DAY
  {
  }

  lemma TimecodeFields(index: nat, frameRate: nat)
    ensures var t := FromFrameIndex(index, frameRate);
      ValidTimecode(t) && SecondsOf(t) == (index / Fps(frameRate)) % DAY && t.frames == index % Fps(frameRate)
  {
    SecondsRead(index / Fps(frameRate));
  }

  lemma DayAndRest(total: nat, frames: nat, fps: nat)
    ensures total * fps + frames == (total / DAY) * (DAY * fps) + ((total % DAY) * fps + frames)
  {
    assert total == (total / DAY) * DAY + total % DAY;
    Distribute(total / DAY, total % DAY, fps);
  }

  lemma DayRemainder(total: nat, frames: nat, fps: nat)
    requires frames < fps
    ensures (total * fps + frames) % (DAY * fps) == (total % DAY) * fps + frames
  {
    DayAndRest(total, frames, fps);
    BelowDay(total % DAY, frames, fps);
    DivModUnique(total * fps + frames, DAY * fps, total / DAY, (total % DAY) * fps + frames);
  }

  lemma ReadsAs(t: Timecode, total: nat, fps: nat)
    requires SecondsOf(t) == total % DAY && Fps(t.frameRate) == fps && t.frames < fps
    ensures IndexOf(t) == (total * fps + t.frames) % (DAY * fps)
  {
    DayRemainder(total, t.frames, fps);
  }

  lemma Euclid(n: nat, d: nat)
    requires d > 0
    ensures n == (n / d) * d + n % d
  {
  }

  lemma TimecodeReads(index: nat, frameRate: nat)
    ensures IndexOf(FromFrameIndex(index, frameRate)) == index % (DAY * Fps(frameRate))
  {
    TimecodeFields(index, frameRate);
    ReadsAs(FromFrameIndex(index, frameRate), index / Fps(frameRate), Fps(frameRate));
    Euclid(index, Fps(frameRate));
  }

  /** The `i`-th timecode, read as hours, minutes, seconds and frames, is `i`, modulo one day, at every
      frame rate, a rate of zero counting as one; and every field is in its range, so that the narrowing
      casts lose nothing. */
  lemma TimecodeCounts(index: nat, frameRate: nat)
    requires frameRate < 256
    ensures var t, fps := FromFrameIndex(index, frameRate), if frameRate == 0 then 1 else frameRate;
      && t.frameRate == frameRate
      && t.hours < 24 && t.minutes < 60 && t.seconds < 60 && t.frames < fps && t.frames < 256
      && (t.hours * 3600 + t.minutes * 60 + t.seconds) * fps + t.frames == index % (86_400 * fps)
  {
    var t := FromFrameIndex(index, frameRate);
    TimecodeReads(index, frameRate);
    TimecodeFields(index, frameRate);
    assert SecondsOf(t) == t.hours * 3600 + t.minutes * 60 + t.seconds;
  }

  lemma Distribute(day: nat, seconds: nat, fps: nat)
    ensures (day * DAY + seconds) * fps == day * (DAY * fps) + seconds * fps
  {
    assert day * DAY * fps == day * (DAY * fps);
  }

  lemma BelowDay(seconds: nat, frames: nat, fps: nat)
    requires seconds < DAY && frames < fps
    ensures seconds * fps + frames < DAY * fps
  {
    MulAtLeast(DAY - seconds, fps);
    assert (DAY - seconds) * fps == DAY * fps - seconds * fps;
  }

  /** Within a day the timecode determines the frame: reading it and building it again is the
      identity. */
  lemma TimecodeRoundTrip(t: Timecode)
    requires ValidTimecode(t)
    ensures FromFrameIndex(IndexOf(t), t.frameRate) == t
  {
    var fps := Fps(t.frameRate);
    DivModUnique(IndexOf(t), fps, SecondsOf(t), t.frames);
    DivModUnique(SecondsOf(t), 60, t.hours * 60 + t.minutes, t.seconds);
    DivModUnique(t.hours * 60 + t.minutes, 60, t.hours, t.minutes);
  }

  // ----- PCM conversion -----------------------------------------------------------

  function Clamp(x: real): real {
    if x < -1.0 then -1.0 else if x > 1.0 then 1.0 else x
  }

  /** Scales to 16 bits and truncates toward zero, as the cast does. */
  function Quantized(x: real): int {
    var scaled := Clamp(x) * 32767.0;
    if scaled >= 0.0 then scaled.Floor else -((-scaled).Floor)
  }

  function LittleEndian(v: int): seq<Byte>
    requires -32768 <= v < 32768
  {
    var u := if v < 0 then v + 65536 else v;
    [u % 256, u / 256]
  }

  /** Reads two bytes back as a signed 16-bit value. */
  function FromLittleEndian(lo: Byte, hi: Byte): int {
    var u := lo + 256 * hi;
    if u >= 32768 then u - 65536 else u
  }

  /** The 16-bit value of a sample: out of range it is the largest or smallest value; otherwise the
      sample times 32767, less than one step off, toward zero. */
  predicate IsSample(v: int, x: real) {
    if x > 1.0 then v == 32767
    else if x < -1.0 then v == -32767
    else
      && -1.0 < x * 32767.0 - v as real < 1.0
      && if x >= 0.0 then 0.0 <= v as real <= x * 32767.0 else x * 32767.0 <= v as real <= 0.0
  }

  /** Every sample has exactly one such value, and it is what the conversion gives. */
  lemma QuantizedIsClose(x: real, v: int)
    ensures Quantized(x) == v <==> IsSample(v, x)
    ensures -32767 <= Quantized(x) <= 32767
  {
  }

  lemma LittleEndianRoundTrip(v: int)
    requires -32768 <= v < 32768
    ensures FromLittleEndian(LittleEndian(v)[0], LittleEndian(v)[1]) == v
  {
  }

  /** The two bytes are the value of the sample as a 16-bit word in two's complement, low byte first. */
  predicate IsWord(lo: Byte, hi: Byte, x: real) {
    var word := lo + 256 * hi;
    IsSample(if word < 32768 then word else word - 65536, x)
  }

  /** The stream has two bytes for each sample, in order. */
  ghost predicate IsPcm(out: seq<Byte>, samples: seq<real>) {
    |out| == 2 * |samples| && forall k :: 0 <= k < |samples| ==> IsWord(out[2 * k], out[2 * k + 1], samples[k])
  }

  method PcmToS16le(samples: seq<real>) returns (out: seq<Byte>)
    ensures IsPcm(out, samples)
  {
    out := [];
    for i := 0 to |samples|
      invariant |out| == 2 * i
      invariant forall k :: 0 <= k < i ==> IsWord(out[2 * k], out[2 * k + 1], samples[k])
    {
      QuantizedIsClose(samples[i], Quantized(samples[i]));
      LittleEndianRoundTrip(Quantized(samples[i]));
      out := out + LittleEndian(Quantized(samples[i]));
    }
  }

  // ----- Frames ---------------------------------------------------------------------

  datatype AvatarFrame = AvatarFrame(timecode: Timecode, audio: seq<Byte>, sampleRate: nat, channels: nat)

  datatype Audio = Audio(samples: seq<real>, sampleRate: nat, channels: nat, duration: real)

  function RMin(a: real, b: real): real {
    if a <= b then a else b
  }

  function Min(a: nat, b: nat): nat {
    if a <= b then a else b
  }

  function Max(a: nat, b: nat): nat {
    if a >= b then a else b
  }

  /** When frame `i` begins, cut off at the end of the utterance. */
  function Instant(i: nat, fps: nat, duration: real): real
    requires fps > 0
  {
    RMin(i as real / fps as real, duration)
  }

  /** The byte of the PCM stream at a point in time: whole sample frames only. */
  function Position(t: real, rate: nat, bytesPerFrame: nat): nat
    requires t >= 0.0
  {
    Samples(t, rate) * bytesPerFrame
  }

  function Samples(t: real, rate: nat): nat
    requires t >= 0.0
  {
    (t * rate as real).Floor
  }

  /** The byte at which frame `i` of the stream begins. */
  function Edge(i: nat, fps: nat, rate: nat, bytesPerFrame: nat, duration: real): nat
    requires fps > 0 && duration >= 0.0
  {
    Position(Instant(i, fps, duration), rate, bytesPerFrame)
  }

  function Concat(frames: seq<AvatarFrame>): seq<Byte> {
    if frames == [] then [] else Concat(Init(frames)) + Last(frames).audio
  }

  function Ceil(x: real): int {
    -((-x).Floor)
  }

  function FrameCount(duration: real, fps: nat): nat
    requires duration > 0.0
  {
    var n := Ceil(duration * fps as real);
    if n > 1 then n else 1
  }

  lemma MulMonotone(a: real, b: real, c: real)
    requires a <= b && 0.0 <= c
    ensures a * c <= b * c
  {
  }

  lemma MulMonotoneNat(a: nat, b: nat, c: nat)
    requires a <= b
    ensures a * c <= b * c
  {
  }

  lemma DivBelow(n: nat, fps: nat, duration: real)
    requires fps > 0
    ensures n as real <= duration * fps as real ==> n as real / fps as real <= duration
    ensures n as real >= duration * fps as real ==> n as real / fps as real >= duration
  {
    var q, f := n as real / fps as real, fps as real;
    assert q * f == n as real;
    if q > duration && n as real <= duration * f {
      MulGrows(duration, q, f);
    }
    if q < duration && n as real >= duration * f {
      MulGrows(q, duration, f);
    }
  }

  lemma MulGrows(a: real, b: real, c: real)
    requires a < b && 0.0 < c
    ensures a * c < b * c
  {
    assert (b - a) * c > 0.0;
  }

  lemma InstantsGrow(i: nat, fps: nat, duration: real)
    requires fps > 0
    ensures Instant(i, fps, duration) <= Instant(i + 1, fps, duration)
  {
    assert i as real / fps as real <= (i + 1) as real / fps as real;
  }

  lemma SamplesGrow(a: real, b: real, rate: nat)
    requires 0.0 <= a <= b
    ensures Samples(a, rate) <= Samples(b, rate)
  {
    MulMonotone(a, b, rate as real);
    FloorGrows(a * rate as real, b * rate as real);
  }

  lemma FloorGrows(x: real, y: real)
    requires x <= y
    ensures x.Floor <= y.Floor
  {
  }

  lemma PositionsGrow(a: real, b: real, rate: nat, bytesPerFrame: nat)
    requires 0.0 <= a <= b
    ensures Position(a, rate, bytesPerFrame) <= Position(b, rate, bytesPerFrame)
  {
    SamplesGrow(a, b, rate);
    MulMonotoneNat(Samples(a, rate), Samples(b, rate), bytesPerFrame);
  }

  lemma EdgesGrow(i: nat, fps: nat, rate: nat, bytesPerFrame: nat, duration: real)
    requires fps > 0 && duration >= 0.0
    ensures Edge(i, fps, rate, bytesPerFrame, duration) <= Edge(i + 1, fps, rate, bytesPerFrame, duration)
  {
    InstantsGrow(i, fps, duration);
    PositionsGrow(Instant(i, fps, duration), Instant(i + 1, fps, duration), rate, bytesPerFrame);
  }

  /** A frame that exists starts before the end of the utterance, and the last one reaches it. */
  lemma FrameCountCovers(duration: real, fps: nat, i: nat)
    requires duration > 0.0 && fps > 0
    ensures i < FrameCount(duration, fps) ==> i as real / fps as real <= duration
    ensures i >= FrameCount(duration, fps) ==> i as real / fps as real >= duration
  {
    var x := duration * fps as real;
    DivBelow(i, fps, duration);
  }

  /** The bytes between two positions, as far as there are any. */
  function Between(pcm: seq<Byte>, start: nat, end: nat): seq<Byte>
    requires start <= end
  {
    if end <= |pcm| then pcm[start..end] else if start <= |pcm| then pcm[start..] else []
  }

  /** Frame `i` carries the `i`-th timecode and the bytes between its own edges. */
  ghost predicate FrameAt(f: AvatarFrame, i: nat, fps: nat, pcm: seq<Byte>, start: nat, end: nat) {
    && f.timecode == FromFrameIndex(i, fps)
    && start <= end && f.audio == Between(pcm, start, end)
  }

  lemma ConcatGrows(out: seq<AvatarFrame>, f: AvatarFrame, i: nat, fps: nat, pcm: seq<Byte>, start: nat, end: nat)
    requires Concat(out) == pcm[..Min(start, |pcm|)] && FrameAt(f, i, fps, pcm, start, end)
    ensures Concat(out + [f]) == pcm[..Min(end, |pcm|)]
  {
    InitSnoc(out, f);
    SliceJoins(pcm, Min(start, |pcm|), Min(end, |pcm|));
  }

  /** The frames built so far tile the PCM stream between the first edges. */
  ghost predicate Tiles(out: seq<AvatarFrame>, fps: nat, pcm: seq<Byte>, edges: seq<nat>) {
    && |out| < |edges|
    && Concat(out) == pcm[..Min(edges[|out|], |pcm|)]
    && forall k :: 0 <= k < |out| ==> FrameAt(out[k], k, fps, pcm, edges[k], edges[k + 1])
  }

  lemma TilesSnoc(out: seq<AvatarFrame>, f: AvatarFrame, fps: nat, pcm: seq<Byte>, edges: seq<nat>)
    requires Tiles(out, fps, pcm, edges) && |out| + 1 < |edges|
    requires FrameAt(f, |out|, fps, pcm, edges[|out|], edges[|out| + 1])
    ensures Tiles(out + [f], fps, pcm, edges)
  {
    ConcatGrows(out, f, |out|, fps, pcm, edges[|out|], edges[|out| + 1]);
  }

  lemma SliceJoins(pcm: seq<Byte>, a: nat, b: nat)
    requires a <= b <= |pcm|
    ensures pcm[..a] + pcm[a..b] == pcm[..b]
  {
  }

  /** The byte at which the sample frame at time `t` begins, with 16 bits per channel: only sample frames
      that are over by then come before it. */
  ghost predicate BeginsAt(pos: nat, t: real, rate: nat, channels: nat) {
    exists n: nat :: pos == n * (2 * channels) && n as real <= t * rate as real < (n + 1) as real
  }

  /** The time at which frame `i` begins, at the latest the end of the utterance. */
  function Begin(i: nat, fps: nat, duration: real): real
    requires fps > 0
  {
    if i as real / fps as real < duration then i as real / fps as real else duration
  }

  /** Frame `i` carries the bytes between the times at which it and the next one begin, as far as there
      are any, under the `i`-th timecode. */
  ghost predicate FrameIs(f: AvatarFrame, i: nat, fps: nat, audio: Audio, channels: nat, pcm: seq<Byte>)
    requires fps > 0
  {
    exists start: nat, end: nat ::
      && BeginsAt(start, Begin(i, fps, audio.duration), audio.sampleRate, channels)
      && BeginsAt(end, Begin(i + 1, fps, audio.duration), audio.sampleRate, channels)
      && FrameAt(f, i, fps, pcm, start, end)
  }

  /** The least number of frames that takes up the duration. */
  predicate Lasts(count: nat, fps: nat, duration: real) {
    (count - 1) as real < duration * fps as real <= count as real
  }

  /** Together the frames carry the bytes up to the end of the duration, as far as there are any. */
  ghost predicate CoversDuration(out: seq<AvatarFrame>, pcm: seq<Byte>, audio: Audio, channels: nat) {
    exists end: nat ::
      && BeginsAt(end, audio.duration, audio.sampleRate, channels)
      && Concat(out) == if end < |pcm| then pcm[..end] else pcm
  }

  /** As many frames as the duration takes; together they carry the bytes up to its end, as far as there
      are any. */
  ghost predicate IsUtterance(out: seq<AvatarFrame>, pcm: seq<Byte>, audio: Audio, fps: nat)
    requires fps > 0
  {
    var channels := if audio.channels == 0 then 1 else audio.channels;
    && Lasts(|out|, fps, audio.duration)
    && CoversDuration(out, pcm, audio, channels)
    && forall i :: 0 <= i < |out| ==> FrameIs(out[i], i, fps, audio, channels, pcm)
  }

  lemma PositionBegins(t: real, rate: nat, channels: nat)
    requires t >= 0.0
    ensures BeginsAt(Position(t, rate, 2 * channels), t, rate, channels)
  {
    var n := Samples(t, rate);
    assert n as real <= t * rate as real < (n + 1) as real;
  }

  lemma EdgeBegins(i: nat, fps: nat, rate: nat, channels: nat, duration: real)
    requires fps > 0 && duration >= 0.0
    ensures BeginsAt(Edge(i, fps, rate, 2 * channels, duration), Begin(i, fps, duration), rate, channels)
  {
    assert Instant(i, fps, duration) == Begin(i, fps, duration);
    PositionBegins(Begin(i, fps, duration), rate, channels);
  }

  lemma TileIsFrame(f: AvatarFrame, i: nat, fps: nat, audio: Audio, channels: nat, pcm: seq<Byte>)
    requires fps > 0 && audio.duration >= 0.0
    requires FrameAt(f, i, fps, pcm, Edge(i, fps, audio.sampleRate, 2 * channels, audio.duration),
                     Edge(i + 1, fps, audio.sampleRate, 2 * channels, audio.duration))
    ensures FrameIs(f, i, fps, audio, channels, pcm)
  {
    EdgeBegins(i, fps, audio.sampleRate, channels, audio.duration);
    EdgeBegins(i + 1, fps, audio.sampleRate, channels, audio.duration);
  }

  lemma TilesAreFrames(out: seq<AvatarFrame>, pcm: seq<Byte>, audio: Audio, channels: nat, fps: nat)
    requires audio.duration >= 0.0 && fps > 0
    requires Tiles(out, fps, pcm, Edges(|out| + 1, fps, audio.sampleRate, 2 * channels, audio.duration))
    ensures forall i :: 0 <= i < |out| ==> FrameIs(out[i], i, fps, audio, channels, pcm)
  {
    var edges := Edges(|out| + 1, fps, audio.sampleRate, 2 * channels, audio.duration);
    forall i | 0 <= i < |out|
      ensures FrameIs(out[i], i, fps, audio, channels, pcm)
    {
      assert FrameAt(out[i], i, fps, pcm, edges[i], edges[i + 1]);
      TileIsFrame(out[i], i, fps, audio, channels, pcm);
    }
  }

  lemma TilesEnd(out: seq<AvatarFrame>, pcm: seq<Byte>, audio: Audio, channels: nat, fps: nat)
    requires audio.duration > 0.0 && fps > 0 && |out| == FrameCount(audio.duration, fps)
    requires Tiles(out, fps, pcm, Edges(|out| + 1, fps, audio.sampleRate, 2 * channels, audio.duration))
    ensures CoversDuration(out, pcm, audio, channels)
  {
    var end := Position(audio.duration, audio.sampleRate, 2 * channels);
    EdgesEnd(|out|, fps, audio.sampleRate, 2 * channels, audio.duration);
    PositionBegins(audio.duration, audio.sampleRate, channels);
    assert Concat(out) == pcm[..Min(end, |pcm|)];
  }

  lemma TilesAreUtterance(out: seq<AvatarFrame>, pcm: seq<Byte>, audio: Audio, fps: nat)
    requires audio.duration > 0.0 && fps > 0 && |out| == FrameCount(audio.duration, fps)
    requires Tiles(out, fps, pcm, Edges(|out| + 1, fps, audio.sampleRate, 2 * Max(audio.channels, 1), audio.duration))
    ensures IsUtterance(out, pcm, audio, fps)
  {
    var channels := if audio.channels == 0 then 1 else audio.channels;
    assert channels == Max(audio.channels, 1);
    TilesEnd(out, pcm, audio, channels, fps);
    TilesAreFrames(out, pcm, audio, channels, fps);
    CountIsExact(audio.duration, fps);
  }

  lemma CountIsExact(duration: real, fps: nat)
    requires duration > 0.0 && fps > 0
    ensures Lasts(FrameCount(duration, fps), fps, duration)
  {
    assert duration * fps as real > 0.0;
  }

  class SyncManager {
    const frameRate: nat

    constructor (frameRate: nat)
      ensures this.frameRate == frameRate
    {
      this.frameRate := frameRate;
    }

    /** All frames of one utterance, as many as its duration takes at the frame rate. Their audio
        slices, in order, are exactly the start of the PCM stream that the duration covers, without gap
        or overlap; frame `i` carries the bytes between its own edges and the `i`-th timecode. */
    method BuildFrames(audio: Audio) returns (out: seq<AvatarFrame>, pcm: seq<Byte>)
      ensures audio.duration <= 0.0 ==> out == []
      ensures forall f <- out ::
        f.sampleRate == audio.sampleRate
        && f.channels == if audio.channels == 0 then 1 else if audio.channels < 256 then audio.channels else 255
      ensures audio.duration > 0.0 ==> IsPcm(pcm, audio.samples)
      ensures audio.duration > 0.0 ==> IsUtterance(out, pcm, audio, if frameRate == 0 then 1 else frameRate)
    {
      var fps := Fps(frameRate);
      var duration := if audio.duration > 0.0 then audio.duration else 0.0;
      out, pcm := [], [];
      if duration == 0.0 {
        return;
      }
      pcm := PcmToS16le(audio.samples);
      var channels := Max(audio.channels, 1);
      out := CutFrames(pcm, fps, audio.sampleRate, channels, duration);
      TilesAreUtterance(out, pcm, audio, fps);
    }

    /** The loop over the frames. */
    method CutFrames(pcm: seq<Byte>, fps: nat, rate: nat, channels: nat, duration: real) returns (out: seq<AvatarFrame>)
      requires fps > 0 && duration > 0.0
      ensures |out| == FrameCount(duration, fps)
      ensures Tiles(out, fps, pcm, Edges(|out| + 1, fps, rate, 2 * channels, duration))
      ensures forall f <- out :: f.sampleRate == rate && f.channels == Min(channels, 255)
    {
      out := [];
      var bytesPerFrame := 2 * channels;
      var total := FrameCount(duration, fps);
      ghost var edges := Edges(total + 1, fps, rate, bytesPerFrame, duration);
      EdgesEnd(total, fps, rate, bytesPerFrame, duration);
      for i := 0 to total
        invariant |out| == i
        invariant Tiles(out, fps, pcm, edges)
        invariant forall f <- out :: f.sampleRate == rate && f.channels == Min(channels, 255)
      {
        var slice := CutFrame(pcm, i, fps, rate, bytesPerFrame, duration);
        var f := AvatarFrame(FromFrameIndex(i, fps), slice, rate, Min(channels, 255));
        TilesSnoc(out, f, fps, pcm, edges);
        out := out + [f];
      }
    }

    /** Cuts the audio of frame `i`. */
    method CutFrame(pcm: seq<Byte>, i: nat, fps: nat, rate: nat, bytesPerFrame: nat, duration: real) returns (slice: seq<Byte>)
      requires fps > 0 && duration > 0.0 && i < FrameCount(duration, fps)
      ensures var start, end := Edge(i, fps, rate, bytesPerFrame, duration), Edge(i + 1, fps, rate, bytesPerFrame, duration);
        start <= end && slice == Between(pcm, start, end)
    {
      FrameCountCovers(duration, fps, i);
      EdgesGrow(i, fps, rate, bytesPerFrame, duration);
      var startSecs := i as real / fps as real;
      var endSecs := RMin((i + 1) as real / fps as real, duration);
      var startSample := Position(startSecs, rate, bytesPerFrame);
      var endSample := Position(endSecs, rate, bytesPerFrame);
      assert startSecs == Instant(i, fps, duration);
      slice := Slice(pcm, startSample, Min(endSample, |pcm|));
    }
  }

  /** The first `n` edges. */
  function Edges(n: nat, fps: nat, rate: nat, bytesPerFrame: nat, duration: real): (edges: seq<nat>)
    requires fps > 0 && duration >= 0.0
    ensures |edges| == n && forall i :: 0 <= i < n ==> edges[i] == Edge(i, fps, rate, bytesPerFrame, duration)
  {
    seq(n, i requires 0 <= i => Edge(i, fps, rate, bytesPerFrame, duration))
  }

  lemma EdgesEnd(total: nat, fps: nat, rate: nat, bytesPerFrame: nat, duration: real)
    requires fps > 0 && duration > 0.0 && total == FrameCount(duration, fps)
    ensures Edge(0, fps, rate, bytesPerFrame, duration) == 0
    ensures Edge(total, fps, rate, bytesPerFrame, duration) == Position(duration, rate, bytesPerFrame)
  {
    FrameCountCovers(duration, fps, total);
    assert Instant(total, fps, duration) == duration;
    assert Instant(0, fps, duration) == 0.0;
  }

  /** The bytes of a range, nothing if the range is out of order or beyond the end. */
  function Slice(pcm: seq<Byte>, from: nat, to': nat): seq<Byte> {
    if from <= to' <= |pcm| then pcm[from..to'] else []
  }
}
