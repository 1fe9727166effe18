/** The animated uniform slots of the two orb shader materials and the write
    sequence of `updateUniforms`. A three.js `Uniform` is a mutable box that
    a material reads at render time, so two materials holding the same box
    show the same value. */
module OrbMaterials {
  import opened RenderMapping

  /** One uniform box. */
  class Uniform {
    var value: real

    constructor (v: real)
      ensures value == v
    {
      value := v;
    }
  }

  /** The four animated slots of an orb material (`uTime`, `uAmplitude`,
      `uBassAmplitude`, `uSpectrumTilt`); the colour slots are not animated. */
  class OrbMaterial {
    const uTime: Uniform
    const uAmplitude: Uniform
    const uBassAmplitude: Uniform
    const uSpectrumTilt: Uniform

    function Slots(): set<Uniform> {
      {uTime, uAmplitude, uBassAmplitude, uSpectrumTilt}
    }

    /** The four slots are four different boxes. */
    predicate Separate() {
      uTime != uAmplitude && uTime != uBassAmplitude && uTime != uSpectrumTilt &&
      uAmplitude != uBassAmplitude && uAmplitude != uSpectrumTilt &&
      uBassAmplitude != uSpectrumTilt
    }

    /** This material holds exactly the boxes of `base`, slot for slot. */
    predicate SharesSlotsOf(base: OrbMaterial) {
      uTime == base.uTime && uAmplitude == base.uAmplitude &&
      uBassAmplitude == base.uBassAmplitude && uSpectrumTilt == base.uSpectrumTilt
    }

    /** What the material shows. */
    function Values(): Uniforms
      reads Slots()
    {
      Uniforms(uTime.value, uAmplitude.value, uBassAmplitude.value, uSpectrumTilt.value)
    }

    /** A material with four fresh boxes, all zero, as the controller's
        constructor builds the core material. */
    constructor ()
      ensures fresh(Slots()) && Separate()
      ensures Values() == Uniforms(0.0, 0.0, 0.0, 0.0)
    {
      uTime := new Uniform(0.0);
      uAmplitude := new Uniform(0.0);
      uBassAmplitude := new Uniform(0.0);
      uSpectrumTilt := new Uniform(0.0);
    }

    /** A material whose uniforms are `{ ...base }`: the spread copies the
        references, so the new material holds `base`'s own boxes. */
    constructor Spread(base: OrbMaterial)
      requires base.Separate()
      ensures Separate() && SharesSlotsOf(base)
    {
      uTime := base.uTime;
      uAmplitude := base.uAmplitude;
      uBassAmplitude := base.uBassAmplitude;
      uSpectrumTilt := base.uSpectrumTilt;
    }
  }

  /** The eight uniform assignments of `updateUniforms`, core first, then
      shell. With separate boxes each material shows its own values; when the
      shell shares the core's boxes, the shell's writes come last and both
      materials show the shell's values. */
  method WriteUniforms(core: OrbMaterial, shell: OrbMaterial, u: UniformUpdate)
    requires core.Separate() && shell.Separate()
    requires core.Slots() !! shell.Slots() || shell.SharesSlotsOf(core)
    modifies core.Slots(), shell.Slots()
    ensures shell.Values() == u.shell
    ensures core.Slots() !! shell.Slots() ==> core.Values() == u.core
    ensures shell.SharesSlotsOf(core) ==> core.Values() == u.shell
  {
    core.uTime.value := u.core.time;
    core.uAmplitude.value := u.core.amplitude;
    core.uBassAmplitude.value := u.core.bass;
    core.uSpectrumTilt.value := u.core.tilt;

    shell.uTime.value := u.shell.time;
    shell.uAmplitude.value := u.shell.amplitude;
    shell.uBassAmplitude.value := u.shell.bass;
    shell.uSpectrumTilt.value := u.shell.tilt;
  }

  /** One frame on materials built as the controller's constructor builds
      them: the shell's uniforms spread from the core's. The core then shows
      the shell's values: its clock runs at 0.8 speed, and a silent frame
      leaves its amplitude at 0 rather than at the 0.02 glow floor. */
  method SpreadMaterialsFrame(time: real, amplitude: real, bass: real, tilt: real, intensity: real)
    returns (core: Uniforms, shell: Uniforms)
    ensures core == shell == MapUniforms(time, amplitude, bass, tilt, intensity).shell
    ensures time != 0.0 ==> core.time != MapUniforms(time, amplitude, bass, tilt, intensity).core.time
    ensures amplitude == 0.0 ==>
              core.amplitude == 0.0 < MapUniforms(time, amplitude, bass, tilt, intensity).core.amplitude
  {
    var coreMaterial := new OrbMaterial();
    var shellMaterial := new OrbMaterial.Spread(coreMaterial);
    WriteUniforms(coreMaterial, shellMaterial, MapUniforms(time, amplitude, bass, tilt, intensity));
    core, shell := coreMaterial.Values(), shellMaterial.Values();
  }

  /** The same frame on materials with separate boxes: each shows its own
      mapping, and the core keeps its glow floor. */
  method SeparateMaterialsFrame(time: real, amplitude: real, bass: real, tilt: real, intensity: real)
    returns (core: Uniforms, shell: Uniforms)
    ensures core == MapUniforms(time, amplitude, bass, tilt, intensity).core
    ensures shell == MapUniforms(time, amplitude, bass, tilt, intensity).shell
    ensures core.time == time
    ensures 0.0 <= amplitude && 0.0 <= intensity ==> 0.02 <= core.amplitude
  {
    var coreMaterial := new OrbMaterial();
    var shellMaterial := new OrbMaterial();
    WriteUniforms(coreMaterial, shellMaterial, MapUniforms(time, amplitude, bass, tilt, intensity));
    core, shell := coreMaterial.Values(), shellMaterial.Values();
    if 0.0 <= amplitude && 0.0 <= intensity {
      UniformsFloor(time, amplitude, bass, tilt, intensity);
    }
  }
}
