/** The affine maps from state intensity and features to rendering
    parameters: the uniforms and bloom strength of `updateUniforms` and the
    particle values of `updateParticles`. */
module RenderMapping {
  import opened MathUtil
  import AudioFeatures

  /** The four animated uniforms of a shader material. */
  datatype Uniforms = Uniforms(time: real, amplitude: real, bass: real, tilt: real)

  /** Everything `updateUniforms` writes. */
  datatype UniformUpdate = UniformUpdate(core: Uniforms, shell: Uniforms, bloomStrength: real)

  /** Everything `updateParticles` derives from one frame: the size the
      particle size is damped toward, the HSL offset applied to the particle
      colour, the opacity and the scene's rotation step. */
  datatype ParticleUpdate = ParticleUpdate(
    sizeTarget: real, hueShift: real, lightnessShift: real, opacity: real, rotationStep: real)

  /** Features within their ranges and a gain between the idle and the
      speaking intensity. */
  predicate InBounds(amplitude: real, bass: real, tilt: real, intensity: real) {
    AudioFeatures.InRange(AudioFeatures.Features(amplitude, bass, tilt)) &&
    0.6 <= intensity <= 1.4
  }

  /** The core surface follows amplitude times intensity above a 0.02 glow
      floor; the shell follows amplitude scaled by the gentler 0.8 + 0.4 *
      intensity, with half the bass and half the tilt, on a clock running at
      0.8 speed; bloom rises from 0.8 with amplitude times intensity. */
  function MapUniforms(time: real, amplitude: real, bass: real, tilt: real, intensity: real): (r: UniformUpdate)
    // the shell's clock runs at 0.8 of the core's and its tilt is half the core's
    ensures r.shell.time == 0.8 * r.core.time && r.shell.tilt * 2.0 == r.core.tilt
    // bloom above its 0.8 base tracks the core amplitude above its 0.02 floor
    ensures r.bloomStrength - 0.8 == 0.9 * (r.core.amplitude - 0.02)
  {
    ScaledProduct(amplitude, intensity);
    UniformUpdate(
      Uniforms(time, amplitude * intensity + 0.02, bass * intensity, tilt),
      Uniforms(time * 0.8, amplitude * (0.8 + intensity * 0.4), bass * 0.5, tilt * 0.5),
      0.8 + amplitude * 0.9 * intensity)
  }

  /** For non-negative amplitude and intensity the core keeps its 0.02 glow
      floor and bloom never drops below its 0.8 base. */
  lemma UniformsFloor(time: real, amplitude: real, bass: real, tilt: real, intensity: real)
    requires 0.0 <= amplitude && 0.0 <= intensity
    ensures var u := MapUniforms(time, amplitude, bass, tilt, intensity);
            0.02 <= u.core.amplitude && 0.8 <= u.bloomStrength && 0.0 <= u.shell.amplitude
  {
    ProductMono(amplitude, intensity, amplitude, intensity);
    ProductMono(amplitude, 0.8 + intensity * 0.4, amplitude, 0.8 + intensity * 0.4);
    ScaledProduct(amplitude, intensity);
  }

  /** For in-range features and gain every uniform stays within a fixed
      display range, so the extreme bounds of the features give finite,
      bounded parameters. */
  lemma UniformsInDisplayRange(time: real, amplitude: real, bass: real, tilt: real, intensity: real)
    requires InBounds(amplitude, bass, tilt, intensity)
    ensures var u := MapUniforms(time, amplitude, bass, tilt, intensity);
            0.02 <= u.core.amplitude <= 1.42 &&
            0.0 <= u.core.bass <= 1.4 &&
            -1.0 <= u.core.tilt <= 1.0 &&
            0.0 <= u.shell.amplitude <= 1.36 &&
            0.0 <= u.shell.bass <= 0.5 &&
            -0.5 <= u.shell.tilt <= 0.5 &&
            0.8 <= u.bloomStrength <= 2.06
  {
    ProductMono(amplitude, intensity, 1.0, 1.4);
    ProductMono(bass, intensity, 1.0, 1.4);
    ProductMono(amplitude, 0.8 + intensity * 0.4, 1.0, 1.36);
    ScaledProduct(amplitude, intensity);
  }

  lemma ScaledProduct(a: real, i: real)
    ensures a * 0.9 * i == 0.9 * (a * i)
  {
  }

  /** A louder frame or a higher intensity never dims the core, the shell or
      the bloom. */
  lemma UniformsMonotone(a1: real, i1: real, a2: real, i2: real, time: real, bass: real, tilt: real)
    requires 0.0 <= a1 <= a2 && 0.0 <= i1 <= i2
    ensures MapUniforms(time, a1, bass, tilt, i1).core.amplitude <= MapUniforms(time, a2, bass, tilt, i2).core.amplitude
    ensures MapUniforms(time, a1, bass, tilt, i1).bloomStrength <= MapUniforms(time, a2, bass, tilt, i2).bloomStrength
    ensures MapUniforms(time, a1, bass, tilt, i1).shell.amplitude <= MapUniforms(time, a2, bass, tilt, i2).shell.amplitude
  {
    ProductMono(a1, i1, a2, i2);
    ProductMono(a1, 0.8 + i1 * 0.4, a2, 0.8 + i2 * 0.4);
    ScaledProduct(a1, i1);
    ScaledProduct(a2, i2);
  }

  /** The shell trails the core: a change of state (of intensity) moves the
      shell's amplitude uniform by 0.4 times what it moves the core's. */
  lemma ShellTrailsCore(amplitude: real, i1: real, i2: real, time: real, bass: real, tilt: real)
    requires 0.0 <= amplitude && i1 <= i2
    ensures var u1, u2 := MapUniforms(time, amplitude, bass, tilt, i1), MapUniforms(time, amplitude, bass, tilt, i2);
            u2.shell.amplitude - u1.shell.amplitude == 0.4 * (u2.core.amplitude - u1.core.amplitude) &&
            u2.shell.amplitude - u1.shell.amplitude <= u2.core.amplitude - u1.core.amplitude
  {
    ShellDifference(amplitude, i1, i2);
    MulLeftMono(i1, i2, amplitude);
  }

  lemma ShellDifference(a: real, i1: real, i2: real)
    ensures a * (0.8 + i2 * 0.4) - a * (0.8 + i1 * 0.4) == 0.4 * (a * i2 - a * i1)
  {
  }

  /** The pulse factor `1 + 0.6 * amplitude` that scales the rotation. */
  function Pulse(amplitude: real): (pulse: real)
    ensures 0.0 <= amplitude <= 1.0 ==> 1.0 <= pulse <= 1.6
  {
    1.0 + amplitude * 0.6
  }

  /** The particle values of one frame: the rotation step is
      `delta * 0.1 * pulse`; the hue shift is
      `clamp(0.1 * amplitude + 0.05 * tilt, -0.2, 0.2)`. */
  function MapParticles(amplitude: real, tilt: real, delta: real): (p: ParticleUpdate)
    ensures -0.2 <= p.hueShift <= 0.2
    ensures 0.0 <= amplitude <= 1.0 ==>
              0.035 <= p.sizeTarget <= 0.055 &&
              0.4 <= p.opacity <= 1.0 &&
              0.0 <= p.lightnessShift <= 0.1
  {
    ParticleUpdate(
      0.035 + amplitude * 0.02,
      Clamp(0.1 * amplitude + tilt * 0.05, -0.2, 0.2),
      amplitude * 0.1,
      0.4 + amplitude * 0.6,
      delta * 0.1 * Pulse(amplitude))
  }

  lemma StepBounds(delta: real, pulse: real)
    requires 0.0 <= delta && 1.0 <= pulse <= 1.6
    ensures 0.1 * delta <= delta * 0.1 * pulse <= 0.16 * delta
  {
    var k := delta * 0.1;
    MulLeftMono(1.0, pulse, k);
    MulLeftMono(pulse, 1.6, k);
    assert k * 1.0 == 0.1 * delta;
    assert k * 1.6 == 0.16 * delta;
  }

  /** The scene turns by between 0.1 and 0.16 radians per second of frame time. */
  lemma RotationStepBounds(amplitude: real, tilt: real, delta: real)
    requires 0.0 <= amplitude <= 1.0 && 0.0 <= delta
    ensures 0.1 * delta <= MapParticles(amplitude, tilt, delta).rotationStep <= 0.16 * delta
  {
    StepBounds(delta, Pulse(amplitude));
  }

  /** For in-range amplitude and tilt the hue clamp never changes a value:
      the raw shift already lies in [-0.05, 0.15]. */
  lemma HueShiftNeedsNoClamp(amplitude: real, tilt: real, delta: real)
    requires 0.0 <= amplitude <= 1.0 && -1.0 <= tilt <= 1.0
    ensures MapParticles(amplitude, tilt, delta).hueShift == 0.1 * amplitude + tilt * 0.05
    ensures -0.05 <= MapParticles(amplitude, tilt, delta).hueShift <= 0.15
  {
  }

  /** A louder frame never slows the rotation, shrinks the size target or
      lowers the opacity. */
  lemma ParticlesMonotone(a1: real, a2: real, tilt: real, delta: real)
    requires a1 <= a2 && 0.0 <= delta
    ensures MapParticles(a1, tilt, delta).rotationStep <= MapParticles(a2, tilt, delta).rotationStep
    ensures MapParticles(a1, tilt, delta).sizeTarget <= MapParticles(a2, tilt, delta).sizeTarget
    ensures MapParticles(a1, tilt, delta).opacity <= MapParticles(a2, tilt, delta).opacity
  {
    MulLeftMono(Pulse(a1), Pulse(a2), delta * 0.1);
  }
}
