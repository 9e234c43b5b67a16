/** The oscillator of synth.py. Its helpers are its own copies of those in
    TempTesting.py, and each is proved to agree with its copy there. In this variant
    `next_data` advances only the phase, so every buffer glides again from the same
    frequency and amplitude. The glides are not clamped. Frequency glides at
    `pitch_per_second`, which the constructor fixes at 12, and amplitude at
    `decibels_per_second`, which the constructor fixes at 1 whatever its argument. */
module Synth {
  import opened Runtime
  import TempTesting

  /** Frequency of middle C, in Hz */
  const MID_C_FREQUENCY: real := 261.625565

  /** Default frames per second */
  const DEFAULT_SAMPLE_RATE: real := 44100.0

  /** The sign of a glide from `start` to `end`, as in TempTesting.py: 1 exactly when
      `end` is above `start`, so a tie counts as down. */
  function Direction(start: real, end: real): (d: int)
    ensures d == 1 || d == -1
    ensures d == 1 <==> start < end
    ensures d == TempTesting.Direction(start, end)
  {
    if end > start then 1 else -1
  }

  /** The frequency of `pitch` semitones above middle C; the same as in
      TempTesting.py for every pitch. */
  function PitchToFrequency(m: Primitives, pitch: real): (f: real)
    requires Lawful(m)
    ensures f == TempTesting.PitchToFrequency(m, pitch)
    ensures 0.0 < f
    ensures pitch == 0.0 ==> f == 261.625565
  {
    MID_C_FREQUENCY * m.pow2(pitch / 12.0)
  }

  /** The amplitude ratio of a change of `decibels` decibels (10 dB doubles the
      amplitude); the same as in TempTesting.py for every change. */
  function DecibelsToAmplitudeRatio(m: Primitives, decibels: real): (r: real)
    requires Lawful(m)
    ensures r == TempTesting.DecibelsToAmplitudeRatio(m, decibels)
  {
    m.pow2(decibels / 10.0)
  }

  /** The frequency ratio of an interval in semitones (12 double the frequency);
      the same as in TempTesting.py for every interval. */
  function IntervalToFrequencyRatio(m: Primitives, interval: real): (r: real)
    requires Lawful(m)
    ensures r == TempTesting.IntervalToFrequencyRatio(m, interval)
  {
    m.pow2(interval / 12.0)
  }

  /** Seconds taken by `frames` frames; the same as in TempTesting.py. */
  function FramesToTime(frames: int, framerate: real): (t: real)
    requires framerate != 0.0
    ensures t == TempTesting.FramesToTime(frames, framerate)
  {
    frames as real / framerate
  }

  /** The times of `frames` consecutive frames from `startFrame`, without the end
      time; the same grid as in TempTesting.py, so entry i is the time of frame
      `startFrame + i`. */
  function FramesToTimeArray(startFrame: int, frames: nat, framerate: real): (t: seq<real>)
    requires framerate != 0.0
    ensures t == TempTesting.FramesToTimeArray(startFrame, frames, framerate)
    ensures |t| == frames
    ensures forall i :: 0 <= i < frames ==> t[i] == TempTesting.FramesToTime(startFrame + i, framerate)
  {
    var startTime := FramesToTime(startFrame, framerate);
    var endTime := FramesToTime(startFrame + frames, framerate);
    Linspace(startTime, endTime, frames)
  }

  /** The frequency `time` seconds into a glide from `start` toward `goal` at `rate`
      semitones per second. */
  function FrequencyGlide(m: Primitives, start: real, goal: real, rate: real, time: real): real
    requires Lawful(m)
  {
    start * IntervalToFrequencyRatio(m, TempTesting.GlideOffset(start, goal, rate, time))
  }

  /** The frequency glide starts at `start` and stays positive when `start` is. */
  lemma FrequencyGlideStartsAndStaysPositive(m: Primitives, start: real, goal: real, rate: real, time: real)
    requires Lawful(m)
    ensures time == 0.0 ==> FrequencyGlide(m, start, goal, rate, time) == start
    ensures 0.0 < start ==> 0.0 < FrequencyGlide(m, start, goal, rate, time)
  {
    var r := IntervalToFrequencyRatio(m, TempTesting.GlideOffset(start, goal, rate, time));
    if 0.0 < start {
      ScaleKeepsStrictOrder(start, 0.0, r, 0.0, FrequencyGlide(m, start, goal, rate, time));
    }
  }

  /** With a positive rate, later in the glide the frequency is strictly higher when
      the goal is above and strictly lower otherwise. Nothing stops it at the goal. */
  lemma FrequencyGlideIsMonotone(m: Primitives, start: real, goal: real, rate: real, t1: real, t2: real)
    requires Lawful(m) && 0.0 < start && 0.0 < rate && t1 < t2
    ensures start < goal ==> FrequencyGlide(m, start, goal, rate, t1) < FrequencyGlide(m, start, goal, rate, t2)
    ensures goal <= start ==> FrequencyGlide(m, start, goal, rate, t2) < FrequencyGlide(m, start, goal, rate, t1)
  {
    TempTesting.GlideOffsetStrictOrder(start, goal, rate, t1, t2);
    var r1 := IntervalToFrequencyRatio(m, TempTesting.GlideOffset(start, goal, rate, t1));
    var r2 := IntervalToFrequencyRatio(m, TempTesting.GlideOffset(start, goal, rate, t2));
    var f1, f2 := FrequencyGlide(m, start, goal, rate, t1), FrequencyGlide(m, start, goal, rate, t2);
    if start < goal {
      TempTesting.IntervalRatioIncreasing(m, TempTesting.GlideOffset(start, goal, rate, t1), TempTesting.GlideOffset(start, goal, rate, t2));
      ScaleKeepsStrictOrder(start, r1, r2, f1, f2);
    } else {
      TempTesting.IntervalRatioIncreasing(m, TempTesting.GlideOffset(start, goal, rate, t2), TempTesting.GlideOffset(start, goal, rate, t1));
      ScaleKeepsStrictOrder(start, r2, r1, f2, f1);
    }
  }

  /** The amplitude `time` seconds into a glide from `start` toward `goal` at `rate`
      decibels per second. Nothing stops it at the goal. */
  function AmplitudeGlide(m: Primitives, start: real, goal: real, rate: real, time: real): real
    requires Lawful(m)
  {
    start * DecibelsToAmplitudeRatio(m, TempTesting.GlideOffset(start, goal, rate, time))
  }

  /** The amplitude glide starts at `start` and stays positive when `start` is. */
  lemma AmplitudeGlideStartsAndStaysPositive(m: Primitives, start: real, goal: real, rate: real, time: real)
    requires Lawful(m)
    ensures time == 0.0 ==> AmplitudeGlide(m, start, goal, rate, time) == start
    ensures 0.0 < start ==> 0.0 < AmplitudeGlide(m, start, goal, rate, time)
  {
    var r := DecibelsToAmplitudeRatio(m, TempTesting.GlideOffset(start, goal, rate, time));
    if 0.0 < start {
      ScaleKeepsStrictOrder(start, 0.0, r, 0.0, AmplitudeGlide(m, start, goal, rate, time));
    }
  }

  /** With a positive rate, later in the glide the amplitude is strictly louder when
      the goal is above and strictly quieter otherwise. */
  lemma AmplitudeGlideIsMonotone(m: Primitives, start: real, goal: real, rate: real, t1: real, t2: real)
    requires Lawful(m) && 0.0 < start && 0.0 < rate && t1 < t2
    ensures start < goal ==> AmplitudeGlide(m, start, goal, rate, t1) < AmplitudeGlide(m, start, goal, rate, t2)
    ensures goal <= start ==> AmplitudeGlide(m, start, goal, rate, t2) < AmplitudeGlide(m, start, goal, rate, t1)
  {
    TempTesting.GlideOffsetStrictOrder(start, goal, rate, t1, t2);
    var r1 := DecibelsToAmplitudeRatio(m, TempTesting.GlideOffset(start, goal, rate, t1));
    var r2 := DecibelsToAmplitudeRatio(m, TempTesting.GlideOffset(start, goal, rate, t2));
    var a1, a2 := AmplitudeGlide(m, start, goal, rate, t1), AmplitudeGlide(m, start, goal, rate, t2);
    if start < goal {
      TempTesting.DecibelsRatioIncreasing(m, TempTesting.GlideOffset(start, goal, rate, t1), TempTesting.GlideOffset(start, goal, rate, t2));
      ScaleKeepsStrictOrder(start, r1, r2, a1, a2);
    } else {
      TempTesting.DecibelsRatioIncreasing(m, TempTesting.GlideOffset(start, goal, rate, t2), TempTesting.GlideOffset(start, goal, rate, t1));
      ScaleKeepsStrictOrder(start, r2, r1, a2, a1);
    }
  }

  /** A continuous sine-wave source that glides toward its goals within each
      buffer. */
  class SineWaveGenerator {
    var frequency: real
    var phase: real
    var amplitude: real
    const pitchPerSecond: real
    const decibelsPerSecond: real
    var goalFrequency: real
    const goalAmplitude: real
    const samplerate: real

    /** Frequencies and amplitudes are positive, the sample rate is positive, the
        glide rates are the constructor's fixed 12 and 1, and the phase, in cycles,
        lies in [0, 1). Nothing ever moves the frequency or the amplitude apart from
        its goal: the constructor sets them equal, `SetPitch` writes both together and
        `NextData` writes neither. */
    ghost predicate Valid()
      reads this
    {
      && 0.0 < samplerate
      && 0.0 < frequency && frequency == goalFrequency
      && 0.0 < amplitude && amplitude == goalAmplitude
      && pitchPerSecond == 12.0 && decibelsPerSecond == 1.0
      && 0.0 <= phase < 1.0
    }

    /** `decibelsPerSecond` is accepted and ignored: the rate is always 1 decibel per
        second, and the pitch rate always 12 semitones per second. */
    constructor (m: Primitives, pitch: real := 0.0, decibels: real := 1.0, decibelsPerSecond: real := 1.0,
                 samplerate: real := DEFAULT_SAMPLE_RATE)
      requires Lawful(m)
      requires 0.0 < samplerate
      ensures Valid()
      ensures frequency == PitchToFrequency(m, pitch) && phase == 0.0
      ensures amplitude == DecibelsToAmplitudeRatio(m, decibels)
      ensures this.pitchPerSecond == 12.0 && this.decibelsPerSecond == 1.0
      ensures goalFrequency == frequency && goalAmplitude == amplitude
      ensures this.samplerate == samplerate
    {
      var f, a := PitchToFrequency(m, pitch), DecibelsToAmplitudeRatio(m, decibels);
      frequency := f;
      phase := 0.0;
      amplitude := a;
      pitchPerSecond := 12.0;
      this.decibelsPerSecond := 1.0;
      goalFrequency := f;
      goalAmplitude := a;
      this.samplerate := samplerate;
    }

    /** Jumps to `value` semitones above middle C: the frequency and its goal change
        together, nothing else does. */
    method SetPitch(m: Primitives, value: real)
      requires Lawful(m) && Valid()
      modifies this`frequency, this`goalFrequency
      ensures Valid()
      ensures frequency == goalFrequency == PitchToFrequency(m, value)
      ensures phase == old(phase) && amplitude == old(amplitude)
    {
      frequency := PitchToFrequency(m, value);
      goalFrequency := frequency;
    }

    /** The frequency at each time of the buffer: the glide from the current
        frequency toward the goal at `pitchPerSecond`, read at that time. */
    function NewFrequencyArray(m: Primitives, timeArray: seq<real>): (f: seq<real>)
      reads this
      requires Lawful(m)
      ensures |f| == |timeArray|
      ensures forall i :: 0 <= i < |f| ==> f[i] == FrequencyGlide(m, frequency, goalFrequency, pitchPerSecond, timeArray[i])
    {
      var start, goal, rate := frequency, goalFrequency, pitchPerSecond;
      seq(|timeArray|, i requires 0 <= i < |timeArray| => FrequencyGlide(m, start, goal, rate, timeArray[i]))
    }

    /** The amplitude at each time of the buffer: the unclamped glide from the
        current amplitude toward the goal at `decibelsPerSecond`, read at that
        time. */
    function NewAmplitudeArray(m: Primitives, timeArray: seq<real>): (a: seq<real>)
      reads this
      requires Lawful(m)
      ensures |a| == |timeArray|
      ensures forall i :: 0 <= i < |a| ==> a[i] == AmplitudeGlide(m, amplitude, goalAmplitude, decibelsPerSecond, timeArray[i])
    {
      var start, goal, rate := amplitude, goalAmplitude, decibelsPerSecond;
      seq(|timeArray|, i requires 0 <= i < |timeArray| => AmplitudeGlide(m, start, goal, rate, timeArray[i]))
    }

    /** The phase at each frame: the current phase plus the running sum of
        frequency times the frame duration. */
    method NewPhaseArray(newFrequencyArray: seq<real>, deltaTime: real) returns (phases: seq<real>)
      ensures phases == TempTesting.PhaseArray(phase, newFrequencyArray, deltaTime)
    {
      var increments := Scaled(newFrequencyArray, deltaTime);
      var total := 0.0;
      phases := [];
      while |phases| < |increments|
        invariant |phases| <= |increments|
        invariant total == Sum(increments[..|phases|])
        invariant forall k :: 0 <= k < |phases| ==> phases[k] == phase + Sum(increments[..k + 1])
      {
        var i := |phases|;
        assert increments[..i + 1][..i] == increments[..i];
        total := total + increments[i];
        phases := phases + [phase + total];
      }
      assert increments[..|increments|] == increments;
    }

    /** Renders the next `frames` samples and advances only the phase: the last
        phase of the buffer, with its whole cycles removed, becomes the current
        phase, and the frequency, the amplitude and the goals stay as they were.
        Fewer than two frames raise before anything changes. */
    method NextData(m: Primitives, frames: int) returns (r: Result<seq<real>>)
      requires Lawful(m) && Valid()
      modifies this`phase
      ensures Valid()
      ensures frequency == old(frequency) && amplitude == old(amplitude) && goalFrequency == old(goalFrequency)
      ensures frames < 0 ==> r == Err(ValueError)
      ensures 0 <= frames < 2 ==> r == Err(IndexError)
      ensures frames < 2 ==> phase == old(phase)
      ensures 2 <= frames ==>
        var timeArray := FramesToTimeArray(0, frames, samplerate);
        var p := TempTesting.PhaseArray(old(phase), NewFrequencyArray(m, timeArray), 1.0 / samplerate);
        && r == Ok(TempTesting.SineWaveArray(m, NewAmplitudeArray(m, timeArray), p))
        && |r.value| == frames
        && phase == Frac(p[frames - 1])
    {
      if frames < 0 {
        return Err(ValueError);
      }
      var timeArray := FramesToTimeArray(0, frames, samplerate);
      if frames < 2 {
        return Err(IndexError);
      }
      var deltaTime := timeArray[1] - timeArray[0];
      assert timeArray[0] == 0.0 && timeArray[1] == 1.0 / samplerate;
      assert deltaTime == 1.0 / samplerate;
      var newFrequencyArray := NewFrequencyArray(m, timeArray);
      var newPhaseArray := NewPhaseArray(newFrequencyArray, deltaTime);
      var newAmplitudeArray := NewAmplitudeArray(m, timeArray);
      var sinewaveArray := TempTesting.SineWaveArray(m, newAmplitudeArray, newPhaseArray);
      phase := Frac(newPhaseArray[frames - 1]);
      return Ok(sinewaveArray);
    }
  }

  /** Every buffer glides strictly downwards in frequency from the goal it starts
      at: since the frequency always equals its goal and `direction` counts a tie as
      down, each entry is below the one before and the buffer ends below the goal. */
  lemma BufferFrequencyFallsFromGoal(m: Primitives, g: SineWaveGenerator, frames: nat)
    requires Lawful(m) && g.Valid()
    ensures var f := g.NewFrequencyArray(m, FramesToTimeArray(0, frames, g.samplerate));
      && (0 < frames ==> f[0] == g.goalFrequency)
      && (forall i, j :: 0 <= i < j < frames ==> f[j] < f[i])
      && (2 <= frames ==> f[frames - 1] < g.goalFrequency)
  {
    var t := FramesToTimeArray(0, frames, g.samplerate);
    TempTesting.TimeGridIncreases(frames, g.samplerate);
    if 0 < frames {
      FrequencyGlideStartsAndStaysPositive(m, g.frequency, g.goalFrequency, g.pitchPerSecond, t[0]);
    }
    forall i, j | 0 <= i < j < frames
      ensures g.NewFrequencyArray(m, t)[j] < g.NewFrequencyArray(m, t)[i]
    {
      FrequencyGlideIsMonotone(m, g.frequency, g.goalFrequency, g.pitchPerSecond, t[i], t[j]);
    }
  }

  /** Every buffer glides strictly downwards in amplitude from the goal it starts
      at, and nothing holds it there: each entry is below the one before and the
      buffer ends below the goal. */
  lemma BufferAmplitudeFallsFromGoal(m: Primitives, g: SineWaveGenerator, frames: nat)
    requires Lawful(m) && g.Valid()
    ensures var a := g.NewAmplitudeArray(m, FramesToTimeArray(0, frames, g.samplerate));
      && (0 < frames ==> a[0] == g.goalAmplitude)
      && (forall i, j :: 0 <= i < j < frames ==> a[j] < a[i])
      && (2 <= frames ==> a[frames - 1] < g.goalAmplitude)
  {
    var t := FramesToTimeArray(0, frames, g.samplerate);
    TempTesting.TimeGridIncreases(frames, g.samplerate);
    if 0 < frames {
      AmplitudeGlideStartsAndStaysPositive(m, g.amplitude, g.goalAmplitude, g.decibelsPerSecond, t[0]);
    }
    forall i, j | 0 <= i < j < frames
      ensures g.NewAmplitudeArray(m, t)[j] < g.NewAmplitudeArray(m, t)[i]
    {
      AmplitudeGlideIsMonotone(m, g.amplitude, g.goalAmplitude, g.decibelsPerSecond, t[i], t[j]);
    }
  }
}
