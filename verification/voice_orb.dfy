/** `VoiceOrbController`: the start/stop lifecycle, the per-frame feature
    extraction over the analyser's byte buffers, and the frame driver that
    steps the state machine and writes the rendering parameters. */
module VoiceOrb {
  import opened MathUtil
  import opened OrbStates
  import opened AudioFeatures
  import opened RenderMapping
  import opened OrbMaterials

  /** The analyser's `fftSize`: samples per time-domain snapshot. */
  const TimeDomainLength: nat := 1024

  /** The analyser's `frequencyBinCount`, half the FFT size. */
  const FrequencyLength: nat := 512

  datatype Option<T> = None | Some(value: T)

  /** What the host made of the microphone request in `start`: the request
      was refused (or failed), a stream came back but no source node could
      be made from it, or a source node was made (whether or not connecting
      it and resuming the audio context then succeeded). Streams, source
      nodes and frames are identified by host handles. */
  datatype Acquisition = Denied | StreamOnly(stream: nat) | Connected(stream: nat, source: nat)

  /** A host resource handed back by `stop`. */
  datatype Release = CancelFrame(frame: nat) | DisconnectSource(source: nat) | StopTracks(stream: nat)

  /** The lifecycle flags and handles. */
  datatype Lifecycle = Lifecycle(
    isRunning: bool, frameId: Option<nat>, sourceNode: Option<nat>, audioStream: Option<nat>)

  /** Not running and holding no host resource. */
  predicate Quiet(l: Lifecycle) {
    !l.isRunning && l.frameId == None && l.sourceNode == None && l.audioStream == None
  }

  /** Running on a live audio source: the condition under which the
      extractors read the analyser instead of animating. */
  predicate LiveInput(l: Lifecycle) {
    l.isRunning && l.sourceNode.Some?
  }

  /** The resources `stop` hands back, in its order: the pending frame, the
      source node, the stream's tracks; each exactly when it is held. */
  function StopReleases(l: Lifecycle): (rs: seq<Release>)
    ensures |rs| == (if l.frameId.Some? then 1 else 0) + (if l.sourceNode.Some? then 1 else 0) +
                     (if l.audioStream.Some? then 1 else 0)
    ensures forall f: nat :: CancelFrame(f) in rs <==> l.frameId == Some(f)
    ensures forall n: nat :: DisconnectSource(n) in rs <==> l.sourceNode == Some(n)
    ensures forall m: nat :: StopTracks(m) in rs <==> l.audioStream == Some(m)
  {
    (if l.frameId.Some? then [CancelFrame(l.frameId.value)] else []) +
    (if l.sourceNode.Some? then [DisconnectSource(l.sourceNode.value)] else []) +
    (if l.audioStream.Some? then [StopTracks(l.audioStream.value)] else [])
  }

  /** The lifecycle after `stop`. */
  function Stopped(l: Lifecycle): (r: Lifecycle)
    ensures Quiet(r)
  {
    Lifecycle(false, None, None, None)
  }

  /** Stopping twice is stopping once: the second stop finds nothing to hand
      back, so no resource is released twice. */
  lemma StopIdempotent(l: Lifecycle)
    ensures Stopped(Stopped(l)) == Stopped(l)
    ensures StopReleases(Stopped(l)) == []
    ensures StopReleases(l) + StopReleases(Stopped(l)) == StopReleases(l)
  {
  }

  /** The lifecycle after `start` (once its first frame has requested the
      frame `requestId`): nothing changes when already running; otherwise the
      controller runs, on whatever the microphone request produced. */
  function Started(l: Lifecycle, acq: Acquisition, requestId: nat): (r: Lifecycle)
    ensures r.isRunning
    ensures l.isRunning ==> r == l
    ensures !l.isRunning ==> r.frameId == Some(requestId)
    ensures Quiet(l) ==> (LiveInput(r) <==> acq.Connected?)
    ensures Quiet(l) ==> (r.audioStream == None <==> acq.Denied?)
  {
    if l.isRunning then l
    else match acq
      case Denied => Lifecycle(true, Some(requestId), l.sourceNode, l.audioStream)
      case StreamOnly(stream) => Lifecycle(true, Some(requestId), l.sourceNode, Some(stream))
      case Connected(stream, source) => Lifecycle(true, Some(requestId), Some(source), Some(stream))
  }

  /** A start followed by a stop hands back exactly what the start acquired:
      the first frame and, when the request succeeded, the stream and the
      source node. */
  lemma StartThenStopReleasesAcquired(l: Lifecycle, acq: Acquisition, requestId: nat)
    requires Quiet(l)
    ensures StopReleases(Started(l, acq, requestId)) ==
            [CancelFrame(requestId)] +
            (match acq
             case Denied => []
             case StreamOnly(stream) => [StopTracks(stream)]
             case Connected(stream, source) => [DisconnectSource(source), StopTracks(stream)])
  {
  }

  /** What the host supplies for one frame: the id `requestAnimationFrame`
      returns, the clock's delta and elapsed time, the analyser's two
      snapshots, and `Math.sin(elapsed * 0.6)` and `Math.sin(elapsed * 0.3)`
      for the idle animation. */
  datatype FrameInput = FrameInput(
    requestId: nat, delta: real, elapsed: real,
    timeDomain: seq<Byte>, frequency: seq<Byte>,
    amplitudeWave: real, tiltWave: real)

  /** Snapshots of the analyser's sizes, sine values, and a clock that does
      not run backwards. */
  predicate WellFormed(frame: FrameInput) {
    |frame.timeDomain| == TimeDomainLength && |frame.frequency| == FrequencyLength &&
    -1.0 <= frame.amplitudeWave <= 1.0 && -1.0 <= frame.tiltWave <= 1.0 &&
    0.0 <= frame.delta
  }

  /** The features a frame reads: from the analyser on a live source, from
      the idle animation otherwise. */
  function FrameFeatures(live: bool, frame: FrameInput, sqrt: real -> real): (f: Features)
    requires WellFormed(frame) && IsSqrt(sqrt)
    ensures InRange(f)
    ensures !live ==> f.bass == IdleBass && f.amplitude <= 0.03
  {
    if live then LiveFeatures(frame.timeDomain, frame.frequency, sqrt)
    else IdleFeatures(frame.amplitudeWave, frame.tiltWave)
  }

  lemma FrameFeaturesRead(live: bool, frame: FrameInput, sqrt: real -> real, amplitude: real, bass: real, tilt: real)
    requires WellFormed(frame) && IsSqrt(sqrt)
    requires live ==> amplitude == LiveAmplitude(frame.timeDomain, sqrt) && bass == BassEnergy(frame.frequency) && tilt == Tilt(frame.frequency)
    requires !live ==> amplitude == IdleAmplitude(frame.amplitudeWave) && bass == IdleBass && tilt == IdleTilt(frame.tiltWave)
    ensures FrameFeatures(live, frame, sqrt) == Features(amplitude, bass, tilt)
  {
  }

  /** Everything the frame driver shows: the state, both materials' animated
      uniforms, the bloom strength, the particle colour's HSL offset and
      opacity, and the scene's rotation about the vertical axis. */
  datatype Visuals = Visuals(
    state: OrbState, core: Uniforms, shell: Uniforms, bloomStrength: real,
    hueShift: real, lightnessShift: real, opacity: real, rotation: real)

  /** One frame on features `f`: the state steps first, then the mapping
      reads the new state's intensity; the rotation accumulates. */
  function Step(v: Visuals, f: Features, elapsed: real, delta: real): (r: Visuals)
    ensures Adjacent(v.state, r.state)
  {
    var s := Next(v.state, f.amplitude, Configured);
    var u := MapUniforms(elapsed, f.amplitude, f.bass, f.tilt, Intensity(s));
    var p := MapParticles(f.amplitude, f.tilt, delta);
    Visuals(s, u.core, u.shell, u.bloomStrength, p.hueShift, p.lightnessShift, p.opacity,
            v.rotation + p.rotationStep)
  }

  /** The display ranges every rendered frame stays within. */
  predicate Displayable(v: Visuals) {
    0.02 <= v.core.amplitude <= 1.42 && 0.0 <= v.core.bass <= 1.4 && -1.0 <= v.core.tilt <= 1.0 &&
    0.0 <= v.shell.amplitude <= 1.36 && 0.0 <= v.shell.bass <= 0.5 && -0.5 <= v.shell.tilt <= 0.5 &&
    0.8 <= v.bloomStrength <= 2.06 &&
    -0.2 <= v.hueShift <= 0.2 && 0.0 <= v.lightnessShift <= 0.1 && 0.4 <= v.opacity <= 1.0
  }

  /** Whatever it starts from, a frame on in-range features is displayable,
      and the scene turns by between 0.1 and 0.16 radians per second. */
  lemma StepDisplayable(v: Visuals, f: Features, elapsed: real, delta: real)
    requires InRange(f) && 0.0 <= delta
    ensures Displayable(Step(v, f, elapsed, delta))
    ensures v.rotation + 0.1 * delta <= Step(v, f, elapsed, delta).rotation <= v.rotation + 0.16 * delta
  {
    var s := Next(v.state, f.amplitude, Configured);
    UniformsInDisplayRange(elapsed, f.amplitude, f.bass, f.tilt, Intensity(s));
    RotationStepBounds(f.amplitude, f.tilt, delta);
  }

  /** From the same visuals, a frame louder in amplitude never shows a lower
      state, a dimmer core, a weaker bloom or a slower rotation, whatever its
      bass and tilt: the state is monotone in amplitude and the intensity in
      the state. */
  lemma LouderStepNeverDimmer(v: Visuals, f1: Features, f2: Features, elapsed: real, delta: real)
    requires InRange(f1) && InRange(f2) && 0.0 <= delta
    requires f1.amplitude <= f2.amplitude
    ensures Rank(Step(v, f1, elapsed, delta).state) <= Rank(Step(v, f2, elapsed, delta).state)
    ensures Step(v, f1, elapsed, delta).core.amplitude <= Step(v, f2, elapsed, delta).core.amplitude
    ensures Step(v, f1, elapsed, delta).bloomStrength <= Step(v, f2, elapsed, delta).bloomStrength
    ensures Step(v, f1, elapsed, delta).rotation <= Step(v, f2, elapsed, delta).rotation
  {
    var s1, s2 := Next(v.state, f1.amplitude, Configured), Next(v.state, f2.amplitude, Configured);
    NextMonotoneInAmplitude(v.state, f1.amplitude, f2.amplitude, Configured);
    IntensityOrder(s1, s2);
    UniformsMonotone(f1.amplitude, Intensity(s1), f2.amplitude, Intensity(s2), elapsed, f1.bass, f1.tilt);
    ParticlesMonotone(f1.amplitude, f2.amplitude, f1.tilt, delta);
  }

  /** Without a live source the orb never rises: the idle amplitude stays
      below the listening threshold. */
  lemma IdleModeNeverRises(s: OrbState, frame: FrameInput, sqrt: real -> real)
    requires WellFormed(frame) && IsSqrt(sqrt)
    ensures Rank(Next(s, FrameFeatures(false, frame, sqrt).amplitude, Configured)) <= Rank(s)
    ensures s == Idle ==> Next(s, FrameFeatures(false, frame, sqrt).amplitude, Configured) == Idle
  {
  }

  /** The idle amplitudes of a run of frames. */
  function IdleAmplitudes(waves: seq<real>): (amps: seq<real>)
    ensures |amps| == |waves|
    ensures forall i :: 0 <= i < |waves| ==> amps[i] == IdleAmplitude(waves[i])
  {
    seq(|waves|, i requires 0 <= i < |waves| => IdleAmplitude(waves[i]))
  }

  /** An orb that starts without a microphone stays Idle for good. */
  lemma IdleAnimationStaysIdle(waves: seq<real>)
    requires forall i :: 0 <= i < |waves| ==> -1.0 <= waves[i] <= 1.0
    ensures forall k :: 0 <= k < |waves| + 1 ==> StatePath(Idle, IdleAmplitudes(waves), Configured)[k] == Idle
  {
    QuietPathStaysIdle(IdleAmplitudes(waves), Configured);
  }

  class VoiceOrbController {
    var state: OrbState
    const thresholds: Thresholds
    var isRunning: bool
    var frameId: Option<nat>
    var sourceNode: Option<nat>
    var audioStream: Option<nat>
    /** The host resources handed back so far, in order. */
    var released: seq<Release>

    const coreMaterial: OrbMaterial
    const shellMaterial: OrbMaterial
    var bloomStrength: real
    var particleHueShift: real
    var particleLightnessShift: real
    var particleOpacity: real
    var sceneRotation: real

    /** The configured thresholds, two materials that share no uniform box,
        and, while stopped, no host resource held. */
    predicate Valid()
      reads this
    {
      thresholds == Configured &&
      coreMaterial.Separate() && shellMaterial.Separate() &&
      coreMaterial.Slots() !! shellMaterial.Slots() &&
      (!isRunning ==> Quiet(Life()))
    }

    function Life(): Lifecycle
      reads this
    {
      Lifecycle(isRunning, frameId, sourceNode, audioStream)
    }

    predicate Live()
      reads this
    {
      LiveInput(Life())
    }

    function Shown(): Visuals
      reads this, coreMaterial.Slots(), shellMaterial.Slots()
    {
      Visuals(state, coreMaterial.Values(), shellMaterial.Values(), bloomStrength,
              particleHueShift, particleLightnessShift, particleOpacity, sceneRotation)
    }

    /** A stopped controller at Idle, with zero uniforms, the bloom pass's
        initial strength 0.8 and the particle material's initial opacity
        0.6. Each material gets its own uniform boxes. */
    constructor ()
      ensures Valid() && Quiet(Life()) && released == []
      ensures fresh(coreMaterial.Slots()) && fresh(shellMaterial.Slots())
      ensures Shown() == Visuals(Idle, Uniforms(0.0, 0.0, 0.0, 0.0), Uniforms(0.0, 0.0, 0.0, 0.0),
                                 0.8, 0.0, 0.0, 0.6, 0.0)
    {
      state := Idle;
      thresholds := Configured;
      isRunning := false;
      frameId := None;
      sourceNode := None;
      audioStream := None;
      released := [];
      coreMaterial := new OrbMaterial();
      shellMaterial := new OrbMaterial();
      bloomStrength := 0.8;
      particleHueShift := 0.0;
      particleLightnessShift := 0.0;
      particleOpacity := 0.6;
      sceneRotation := 0.0;
    }

    /** `start`: does nothing when already running; otherwise keeps what the
        microphone request produced, runs, and renders the first frame. */
    method Start(acq: Acquisition, frame: FrameInput, sqrt: real -> real)
      requires Valid() && WellFormed(frame) && IsSqrt(sqrt)
      modifies this, coreMaterial.Slots(), shellMaterial.Slots()
      ensures Valid()
      ensures Life() == Started(old(Life()), acq, frame.requestId)
      ensures released == old(released)
      ensures old(isRunning) ==> Shown() == old(Shown())
      ensures !old(isRunning) ==>
                (Live() <==> acq.Connected?) &&
                Shown() == Step(old(Shown()), FrameFeatures(acq.Connected?, frame, sqrt), frame.elapsed, frame.delta)
    {
      if isRunning {
        return;
      }
      match acq {
        case Denied =>
        case StreamOnly(stream) =>
          audioStream := Some(stream);
        case Connected(stream, source) =>
          audioStream := Some(stream);
          sourceNode := Some(source);
      }
      isRunning := true;
      Animate(frame, sqrt);
    }

    /** `stop`: hands back the pending frame, the source node and the stream
        (each only if held) and clears them; the visuals are left alone. */
    method Stop()
      requires Valid()
      modifies this`frameId, this`isRunning, this`sourceNode, this`audioStream, this`released
      ensures Valid()
      ensures Life() == Stopped(old(Life()))
      ensures released == old(released) + StopReleases(old(Life()))
    {
      if frameId.Some? {
        released := released + [CancelFrame(frameId.value)];
        frameId := None;
      }
      isRunning := false;
      if sourceNode.Some? {
        released := released + [DisconnectSource(sourceNode.value)];
        sourceNode := None;
      }
      if audioStream.Some? {
        released := released + [StopTracks(audioStream.value)];
        audioStream := None;
      }
    }

    /** The frame driver `animate`: schedules the next frame, reads the three
        features, steps the state and writes the rendering parameters. Only a
        running controller has a frame scheduled. */
    method Animate(frame: FrameInput, sqrt: real -> real)
      requires Valid() && isRunning && WellFormed(frame) && IsSqrt(sqrt)
      modifies this, coreMaterial.Slots(), shellMaterial.Slots()
      ensures Valid()
      ensures Life() == old(Life()).(frameId := Some(frame.requestId))
      ensures released == old(released)
      ensures Shown() == Step(old(Shown()), FrameFeatures(Live(), frame, sqrt), frame.elapsed, frame.delta)
    {
      frameId := Some(frame.requestId);
      var amplitude := ComputeAmplitude(frame.timeDomain, frame.amplitudeWave, sqrt);
      var bass := ComputeBassEnergy(frame.frequency);
      var tilt := ComputeSpectrumTilt(frame.frequency, frame.tiltWave);
      FrameFeaturesRead(Live(), frame, sqrt, amplitude, bass, tilt);
      UpdateState(amplitude);
      UpdateUniforms(frame.elapsed, amplitude, bass, tilt);
      UpdateParticles(amplitude, tilt, frame.delta);

    }

    /** `computeAmplitude`: on a live source the root mean square of the
        centred, scaled samples, accumulated sample by sample; otherwise the
        idle animation's amplitude. */
    method ComputeAmplitude(timeDomain: seq<Byte>, wave: real, sqrt: real -> real) returns (amplitude: real)
      requires |timeDomain| == TimeDomainLength && IsSqrt(sqrt)
      ensures Live() ==> amplitude == LiveAmplitude(timeDomain, sqrt)
      ensures Live() ==> 0.0 <= amplitude <= 1.0 && (amplitude == 0.0 <==> Silent(timeDomain))
      ensures !Live() ==> amplitude == IdleAmplitude(wave)
    {
      if !isRunning || sourceNode.None? {
        return IdleAmplitude(wave);
      }
      var sumSquares := 0.0;
      var i := 0;
      while i < |timeDomain|
        invariant 0 <= i <= |timeDomain|
        invariant sumSquares == SquareSum(timeDomain[..i]) as real / 16384.0
      {
        var val := (timeDomain[i] - Center) as real / 128.0;
        SquareSumStep(timeDomain, i, val);
        sumSquares := sumSquares + val * val;
        i := i + 1;
      }
      assert timeDomain[..i] == timeDomain;
      MeanSquareOfSum(timeDomain);
      var rms := sqrt(sumSquares / |timeDomain| as real);
      amplitude := Clamp(rms, 0.0, 1.0);
      LiveAmplitudeOfRoot(timeDomain, sqrt);
      assert amplitude == LiveAmplitude(timeDomain, sqrt);
    }

    /** `computeBassEnergy`: on a live source the mean of magnitude / 255
        over the lowest `BinCount` bins; otherwise the constant 0.05. */
    method ComputeBassEnergy(frequency: seq<Byte>) returns (bass: real)
      requires |frequency| == FrequencyLength
      ensures Live() ==> bass == BassEnergy(frequency)
      ensures Live() ==> (bass == 0.0 <==> AllZero(frequency[..BinCount(|frequency|)]))
      ensures !Live() ==> bass == IdleBass
    {
      if !isRunning || sourceNode.None? {
        return IdleBass;
      }
      var binCount := BinCount(|frequency|);
      var sum := 0.0;
      var i := 0;
      while i < binCount
        invariant 0 <= i <= binCount
        invariant sum == Sum(frequency[..i]) as real / 255.0
      {
        SumStep(frequency, i);
        sum := sum + frequency[i] as real / 255.0;
        i := i + 1;
      }
      bass := sum / binCount as real;
    }

    /** `computeSpectrumTilt`: on a live source the magnitude-weighted
        centroid of the bins, accumulated bin by bin, as a fraction of the bin
        count remapped to [-1, 1] (0 for an all-zero spectrum); otherwise the
        idle animation's tilt. */
    method ComputeSpectrumTilt(frequency: seq<Byte>, wave: real) returns (tilt: real)
      requires |frequency| == FrequencyLength
      ensures Live() ==> tilt == Tilt(frequency)
      ensures Live() ==> -1.0 <= tilt <= 1.0 && (AllZero(frequency) ==> tilt == 0.0)
      ensures !Live() ==> tilt == IdleTilt(wave)
    {
      if !isRunning || sourceNode.None? {
        return IdleTilt(wave);
      }
      var weightedSum, total := 0.0, 0.0;
      var i := 0;
      while i < |frequency|
        invariant 0 <= i <= |frequency|
        invariant weightedSum == WeightedSum(frequency[..i]) as real / 255.0
        invariant total == Sum(frequency[..i]) as real / 255.0
      {
        var value := frequency[i] as real / 255.0;
        WeightedSumStep(frequency, i, value);
        SumStep(frequency, i);
        weightedSum := weightedSum + value * i as real;
        total := total + value;
        i := i + 1;
      }
      assert frequency[..i] == frequency;
      if total == 0.0 {
        return 0.0;
      }
      CancelScale(WeightedSum(frequency) as real, Sum(frequency) as real, 255.0);
      var centroid := weightedSum / total;
      var normalized := centroid / |frequency| as real;
      tilt := Clamp((normalized - 0.5) * 2.0, -1.0, 1.0);
    }

    /** `updateState`: one hysteretic step on this frame's amplitude. */
    method UpdateState(amplitude: real)
      modifies this`state
      ensures state == Next(old(state), amplitude, thresholds)
      ensures Adjacent(old(state), state)
    {
      if state == Idle && amplitude > thresholds.listening {
        state := Listening;
      } else if state == Listening && amplitude > thresholds.speaking {
        state := Speaking;
      } else if state == Speaking && amplitude < thresholds.speaking - thresholds.falloff {
        state := Listening;
      } else if state == Listening && amplitude < thresholds.listening - thresholds.falloff {
        state := Idle;
      }
    }

    /** `updateUniforms`: both materials and the bloom pass follow the
        mapping at the current state's intensity; with its own uniform boxes
        the core keeps the 0.02 glow floor. */
    method UpdateUniforms(time: real, amplitude: real, bass: real, tilt: real)
      requires Valid()
      modifies coreMaterial.Slots(), shellMaterial.Slots(), this`bloomStrength
      ensures var u := MapUniforms(time, amplitude, bass, tilt, Intensity(state));
              coreMaterial.Values() == u.core && shellMaterial.Values() == u.shell &&
              bloomStrength == u.bloomStrength
      ensures 0.0 <= amplitude ==> 0.02 <= coreMaterial.uAmplitude.value
    {
      var intensity := Intensity(state);
      var u := MapUniforms(time, amplitude, bass, tilt, intensity);
      WriteUniforms(coreMaterial, shellMaterial, u);
      bloomStrength := u.bloomStrength;
      if 0.0 <= amplitude {
        UniformsFloor(time, amplitude, bass, tilt, intensity);
      }
    }

    /** `updateParticles` without the size damping: the colour's HSL
        offset, the opacity, and the rotation step added to the scene. */
    method UpdateParticles(amplitude: real, tilt: real, delta: real)
      modifies this`particleHueShift, this`particleLightnessShift, this`particleOpacity, this`sceneRotation
      ensures var p := MapParticles(amplitude, tilt, delta);
              particleHueShift == p.hueShift && particleLightnessShift == p.lightnessShift &&
              particleOpacity == p.opacity && sceneRotation == old(sceneRotation) + p.rotationStep
    {
      var p := MapParticles(amplitude, tilt, delta);
      particleHueShift := p.hueShift;
      particleLightnessShift := p.lightnessShift;
      particleOpacity := p.opacity;
      sceneRotation := sceneRotation + p.rotationStep;
    }
  }
}
