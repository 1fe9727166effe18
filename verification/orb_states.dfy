/** The orb's three visual states, the hysteretic transition between them
    (`updateState`) and the gain each state applies (`getStateIntensity`). */
module OrbStates {

  datatype OrbState = Idle | Listening | Speaking

  /** `listening` and `speaking` are the amplitudes a state must exceed to
      move up; moving down needs the amplitude below the same threshold
      minus `falloff`. */
  datatype Thresholds = Thresholds(listening: real, speaking: real, falloff: real)

  /** The thresholds the controller is built with. */
  const Configured := Thresholds(0.05, 0.12, 0.02)

  /** Position of a state in the order Idle < Listening < Speaking. */
  function Rank(s: OrbState): (k: nat)
    ensures k <= 2
  {
    match s
    case Idle => 0
    case Listening => 1
    case Speaking => 2
  }

  /** The threshold between rank `k` and rank `k + 1`. */
  function Boundary(k: nat, th: Thresholds): real {
    if k == 0 then th.listening else th.speaking
  }

  /** Two states at most one rank apart. */
  predicate Adjacent(s: OrbState, t: OrbState) {
    -1 <= Rank(t) - Rank(s) <= 1
  }

  /** One call of `updateState`: the first matching guard, in the source's
      priority order, decides the new state; when none matches the state
      holds. */
  function Next(s: OrbState, amplitude: real, th: Thresholds): (r: OrbState)
    // at most one rank per frame: Idle never jumps to Speaking and back
    ensures Adjacent(s, r)
    ensures Rank(r) == Rank(s) ==> r == s
    // a rise happens exactly when the amplitude exceeds the boundary above
    ensures Rank(r) > Rank(s) <==> Rank(s) < 2 && amplitude > Boundary(Rank(s), th)
    // a fall happens exactly when no rise does and the amplitude is below the
    // boundary beneath, lowered by the falloff
    ensures Rank(r) < Rank(s) <==>
              0 < Rank(s) && amplitude < Boundary(Rank(s) - 1, th) - th.falloff &&
              !(Rank(s) < 2 && amplitude > Boundary(Rank(s), th))
  {
    if s == Idle && amplitude > th.listening then Listening
    else if s == Listening && amplitude > th.speaking then Speaking
    else if s == Speaking && amplitude < th.speaking - th.falloff then Listening
    else if s == Listening && amplitude < th.listening - th.falloff then Idle
    else s
  }

  /** `getStateIntensity`: the gain applied to amplitude- and bass-driven effects. */
  function Intensity(s: OrbState): (r: real)
    ensures 0.6 <= r <= 1.4
  {
    match s
    case Speaking => 1.4
    case Listening => 1.0
    case Idle => 0.6
  }

  /** The gain strictly increases along Idle < Listening < Speaking. */
  lemma IntensityOrder(s: OrbState, t: OrbState)
    ensures Rank(s) < Rank(t) <==> Intensity(s) < Intensity(t)
    ensures Rank(s) == Rank(t) <==> Intensity(s) == Intensity(t)
  {
  }

  /** A louder frame never leaves the orb in a lower state. */
  lemma NextMonotoneInAmplitude(s: OrbState, a1: real, a2: real, th: Thresholds)
    requires a1 <= a2
    ensures Rank(Next(s, a1, th)) <= Rank(Next(s, a2, th))
  {
  }

  /** With a non-negative falloff, a higher state stays at least as high as a
      lower one after the same frame. */
  lemma NextMonotoneInState(s1: OrbState, s2: OrbState, a: real, th: Thresholds)
    requires 0.0 <= th.falloff
    requires Rank(s1) <= Rank(s2)
    ensures Rank(Next(s1, a, th)) <= Rank(Next(s2, a, th))
  {
  }

  /** Hysteresis: a rise followed directly by a fall (or a fall followed by a
      rise) needs the two amplitudes more than `falloff` apart, so an
      amplitude jittering by less than the falloff cannot flip the state back. */
  lemma ReversalNeedsWideSwing(s: OrbState, a1: real, a2: real, th: Thresholds)
    ensures var t := Next(s, a1, th); var u := Next(t, a2, th);
            Rank(s) < Rank(t) && Rank(u) < Rank(t) ==> a1 - a2 > th.falloff
    ensures var t := Next(s, a1, th); var u := Next(t, a2, th);
            Rank(t) < Rank(s) && Rank(t) < Rank(u) ==> a2 - a1 > th.falloff
  {
  }

  /** With a non-negative falloff, at a constant amplitude the state settles
      within two frames. */
  lemma SettlesWithinTwoFrames(s: OrbState, a: real, th: Thresholds)
    requires 0.0 <= th.falloff
    ensures var u := Next(Next(s, a, th), a, th); Next(u, a, th) == u
  {
  }

  /** The hysteresis bands, for a non-negative falloff and listening <=
      speaking: in [listening - falloff, listening] both Idle and
      Listening hold, and in [speaking - falloff, speaking] both Listening and
      Speaking hold, so there the state depends on where the orb came from. */
  lemma HysteresisBands(th: Thresholds, a: real)
    requires 0.0 <= th.falloff && th.listening <= th.speaking
    ensures th.listening - th.falloff <= a <= th.listening ==>
              Next(Idle, a, th) == Idle && Next(Listening, a, th) == Listening
    ensures th.speaking - th.falloff <= a <= th.speaking ==>
              Next(Listening, a, th) == Listening && Next(Speaking, a, th) == Speaking
  {
  }

  /** The states before and after each frame, when the frames see the
      amplitudes `amps` in order. */
  function StatePath(s: OrbState, amps: seq<real>, th: Thresholds): (p: seq<OrbState>)
    ensures |p| == |amps| + 1 && p[0] == s
    ensures forall i :: 0 <= i < |amps| ==> p[i + 1] == Next(p[i], amps[i], th)
    decreases |amps|
  {
    if amps == [] then [s]
    else [s] + StatePath(Next(s, amps[0], th), amps[1..], th)
  }

  /** Every two consecutive states are at most one rank apart. */
  predicate NoSkips(p: seq<OrbState>) {
    forall i :: 0 <= i < |p| - 1 ==> Adjacent(p[i], p[i + 1])
  }

  lemma StatePathNoSkips(s: OrbState, amps: seq<real>, th: Thresholds)
    ensures NoSkips(StatePath(s, amps, th))
  {
  }

  /** On a path without skips, getting from Speaking to Idle (or from Idle to
      Speaking) passes through Listening. */
  lemma {:induction false} ExtremesSeparatedByListening(p: seq<OrbState>, i: nat, j: nat)
    requires NoSkips(p)
    requires i < j < |p|
    requires (p[i] == Speaking && p[j] == Idle) || (p[i] == Idle && p[j] == Speaking)
    ensures exists k :: i < k < j && p[k] == Listening
    decreases j - i
  {
    assert Adjacent(p[i], p[i + 1]);
    if p[i + 1] == Listening {
      assert i + 1 != j;
    } else {
      assert p[i + 1] == p[i];
      ExtremesSeparatedByListening(p, i + 1, j);
    }
  }

  /** A dip to 0.04, below the listening threshold but above listening -
      falloff, keeps the orb Listening: from Idle, the amplitudes 0.0, 0.06,
      0.06, 0.04 give Idle, Listening, Listening, Listening. */
  lemma ConfiguredDipKeepsListening()
    ensures StatePath(Idle, [0.0, 0.06, 0.06, 0.04], Configured)[1..] ==
            [Idle, Listening, Listening, Listening]
  {
  }

  predicate NonDecreasing(p: seq<OrbState>) {
    forall i, j :: 0 <= i < j < |p| ==> Rank(p[i]) <= Rank(p[j])
  }

  predicate NonIncreasing(p: seq<OrbState>) {
    forall i, j :: 0 <= i < j < |p| ==> Rank(p[i]) >= Rank(p[j])
  }

  predicate Within(amps: seq<real>, lo: real, hi: real) {
    forall i :: 0 <= i < |amps| ==> lo <= amps[i] <= hi
  }

  /** No amplitude of at least `lo` can make state `s` fall. */
  predicate SafeFromFall(s: OrbState, lo: real, th: Thresholds) {
    (s == Listening ==> lo >= th.listening - th.falloff) &&
    (s == Speaking ==> lo >= th.speaking - th.falloff)
  }

  /** No amplitude of at most `hi` can make state `s` rise. */
  predicate SafeFromRise(s: OrbState, hi: real, th: Thresholds) {
    (s == Idle ==> hi <= th.listening) &&
    (s == Listening ==> hi <= th.speaking)
  }

  lemma PrependNonDecreasing(s: OrbState, q: seq<OrbState>)
    requires q != [] && Rank(s) <= Rank(q[0]) && NonDecreasing(q)
    ensures NonDecreasing([s] + q)
  {
    var p := [s] + q;
    forall i, j | 0 <= i < j < |p| ensures Rank(p[i]) <= Rank(p[j]) {
      if i == 0 && j > 1 {
        assert Rank(q[0]) <= Rank(q[j - 1]);
      }
    }
  }

  lemma PrependNonIncreasing(s: OrbState, q: seq<OrbState>)
    requires q != [] && Rank(s) >= Rank(q[0]) && NonIncreasing(q)
    ensures NonIncreasing([s] + q)
  {
    var p := [s] + q;
    forall i, j | 0 <= i < j < |p| ensures Rank(p[i]) >= Rank(p[j]) {
      if i == 0 && j > 1 {
        assert Rank(q[0]) >= Rank(q[j - 1]);
      }
    }
  }

  /** Once the orb has risen inside a window no wider than the falloff, no
      amplitude of that window makes it fall again. */
  lemma {:induction false} RisenPathNeverFalls(s: OrbState, amps: seq<real>, th: Thresholds, lo: real, hi: real)
    requires Within(amps, lo, hi) && hi - lo <= th.falloff
    requires SafeFromFall(s, lo, th)
    ensures NonDecreasing(StatePath(s, amps, th))
    decreases |amps|
  {
    if amps != [] {
      var t := Next(s, amps[0], th);
      assert Within(amps[1..], lo, hi) by {
        forall i | 0 <= i < |amps| - 1 ensures lo <= amps[1..][i] <= hi {
          assert amps[1..][i] == amps[i + 1];
        }
      }
      assert lo <= amps[0] <= hi;
      RisenPathNeverFalls(t, amps[1..], th, lo, hi);
      PrependNonDecreasing(s, StatePath(t, amps[1..], th));
    }
  }

  /** Once the orb has fallen inside a window no wider than the falloff, no
      amplitude of that window makes it rise again. */
  lemma {:induction false} FallenPathNeverRises(s: OrbState, amps: seq<real>, th: Thresholds, lo: real, hi: real)
    requires Within(amps, lo, hi) && hi - lo <= th.falloff
    requires SafeFromRise(s, hi, th)
    ensures NonIncreasing(StatePath(s, amps, th))
    decreases |amps|
  {
    if amps != [] {
      var t := Next(s, amps[0], th);
      assert Within(amps[1..], lo, hi) by {
        forall i | 0 <= i < |amps| - 1 ensures lo <= amps[1..][i] <= hi {
          assert amps[1..][i] == amps[i + 1];
        }
      }
      assert lo <= amps[0] <= hi;
      FallenPathNeverRises(t, amps[1..], th, lo, hi);
      PrependNonIncreasing(s, StatePath(t, amps[1..], th));
    }
  }

  /** No flapping: when every amplitude of a run of frames lies in a window no
      wider than the falloff, the state only ever moves in one direction. */
  lemma {:induction false} NarrowSwingNeverFlaps(s: OrbState, amps: seq<real>, th: Thresholds, lo: real, hi: real)
    requires Within(amps, lo, hi) && hi - lo <= th.falloff
    ensures NonDecreasing(StatePath(s, amps, th)) || NonIncreasing(StatePath(s, amps, th))
    decreases |amps|
  {
    if amps != [] {
      var t := Next(s, amps[0], th);
      var rest := amps[1..];
      assert Within(rest, lo, hi) by {
        forall i | 0 <= i < |rest| ensures lo <= rest[i] <= hi {
          assert rest[i] == amps[i + 1];
        }
      }
      assert lo <= amps[0] <= hi;
      var q := StatePath(t, rest, th);
      if Rank(t) > Rank(s) {
        RisenPathNeverFalls(t, rest, th, lo, hi);
        PrependNonDecreasing(s, q);
      } else if Rank(t) < Rank(s) {
        FallenPathNeverRises(t, rest, th, lo, hi);
        PrependNonIncreasing(s, q);
      } else {
        NarrowSwingNeverFlaps(t, rest, th, lo, hi);
        if NonDecreasing(q) {
          PrependNonDecreasing(s, q);
        } else {
          PrependNonIncreasing(s, q);
        }
      }
    }
  }

  /** An orb at Idle that never hears more than the listening threshold stays
      Idle on every frame. */
  lemma {:induction false} QuietPathStaysIdle(amps: seq<real>, th: Thresholds)
    requires forall i :: 0 <= i < |amps| ==> amps[i] <= th.listening
    ensures forall k :: 0 <= k < |StatePath(Idle, amps, th)| ==> StatePath(Idle, amps, th)[k] == Idle
    decreases |amps|
  {
    if amps != [] {
      var rest := amps[1..];
      assert Next(Idle, amps[0], th) == Idle;
      forall i | 0 <= i < |rest| ensures rest[i] <= th.listening {
        assert rest[i] == amps[i + 1];
      }
      QuietPathStaysIdle(rest, th);
      assert StatePath(Idle, amps, th) == [Idle] + StatePath(Idle, rest, th);
    }
  }
}
