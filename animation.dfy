/**
 * The per-object update step: each call advances the object's timestamp,
 * turns the elapsed time into a fraction of the animation period, rotates the
 * model-view matrix by that fraction of a full turn, and, for the octahedron,
 * moves it up or down and flips direction at the +3 / -3 bounds.
 *
 * The model-view matrix is kept as the sequence of `mat4.translate` and
 * `mat4.rotate` calls that produced it from the identity; its numerics are
 * not modelled. The one entry the update reads back, the vertical translation
 * `m[13]`, is `VerticalOffset`: the sum of the vertical parts of the
 * translations, which is what `mat4.translate` gives while the matrix's
 * y column stays (0, 1, 0), as it does for rotations about the y axis.
 */
module Animation {
  import opened Meshes

  /** Animation period in milliseconds (`duration`). */
  const Duration: int := 10000

  /** Rotation axis, translation or offset vector. */
  datatype Vec3 = Vec3(x: real, y: real, z: real)

  /** One matrix call: a translation, or a rotation by `turns` full turns (angle 2π·turns). */
  datatype Op = Translate(offset: Vec3) | Rotate(turns: real, axis: Vec3)

  /**
   * What an object's update closure does besides rotating: nothing, or the
   * octahedron's bobbing with its captured `up` flag.
   */
  datatype Motion = Spin | SpinAndBob(up: bool)

  /** The fields an update reads and writes. */
  datatype ObjectState = ObjectState(modelView: seq<Op>, currentTime: int, motion: Motion)

  /** The bobbing oscillator: direction and observed vertical offset `m[13]`. */
  datatype Bob = Bob(up: bool, offset: real)

  /** `fract = (now - currentTime) / duration`: the fraction of a period that has elapsed. */
  function Fraction(now: int, last: int): (f: real)
    ensures (f == 0.0) <==> (now == last)
    ensures (f > 0.0) <==> (now > last)
    ensures now - last == Duration ==> f == 1.0
    ensures 4 * (now - last) == Duration ==> 4.0 * f == 1.0
  {
    (now - last) as real / Duration as real
  }

  /** `m[13]` of the matrix built by `ops` from the identity. */
  function VerticalOffset(ops: seq<Op>): real
  {
    if ops == [] then 0.0
    else VerticalOffset(ops[..|ops| - 1]) + (match ops[|ops| - 1]
                                              case Translate(v) => v.y
                                              case Rotate(_, _) => 0.0)
  }

  lemma VerticalOffsetSnoc(ops: seq<Op>, op: Op)
    ensures VerticalOffset(ops + [op]) == VerticalOffset(ops) + (match op
                                                                 case Translate(v) => v.y
                                                                 case Rotate(_, _) => 0.0)
  {
    assert (ops + [op])[..|ops|] == ops;
  }

  /** The step the octahedron's oscillator takes: move by ±5·fract, then test the bound. */
  function BobStep(b: Bob, fract: real): Bob
  {
    if b.up then
      var o := b.offset + 5.0 * fract;
      Bob(!(o > 3.0), o)
    else
      var o := b.offset - 5.0 * fract;
      Bob(o < -3.0, o)
  }

  /** The matrix calls of one update: the rotation, then the octahedron's vertical move. */
  function TickOps(motion: Motion, axis: Vec3, fract: real): seq<Op>
  {
    [Rotate(fract, axis)] +
    match motion
    case Spin => []
    case SpinAndBob(up) => [Translate(Vec3(0.0, if up then 5.0 * fract else -5.0 * fract, 0.0))]
  }

  /** One call of an object's `update` at clock reading `now`. */
  function Tick(s: ObjectState, axis: Vec3, now: int): ObjectState
  {
    var fract := Fraction(now, s.currentTime);
    var modelView := s.modelView + TickOps(s.motion, axis, fract);
    var motion := match s.motion
                  case Spin => Spin
                  case SpinAndBob(up) =>
                    SpinAndBob(BobStep(Bob(up, VerticalOffset(s.modelView)), fract).up);
    ObjectState(modelView, now, motion)
  }

  /** The oscillator of a bobbing object, read off its state. */
  function BobOf(s: ObjectState): Bob
    requires s.motion.SpinAndBob?
  {
    Bob(s.motion.up, VerticalOffset(s.modelView))
  }

  /**
   * An update stores `now` as the timestamp, only appends to the matrix
   * history (one rotation by the elapsed fraction of a turn, then for a bobbing
   * object one vertical translation), keeps the kind of motion, and moves a
   * bobbing object's oscillator by exactly one `BobStep`; a spinning object's
   * vertical offset does not change.
   */
  lemma TickEffect(s: ObjectState, axis: Vec3, now: int)
    ensures var r := Tick(s, axis, now);
      && r.currentTime == now
      && |s.modelView| < |r.modelView| && r.modelView[..|s.modelView|] == s.modelView
      && r.modelView[|s.modelView|] == Rotate(Fraction(now, s.currentTime), axis)
      && r.motion.SpinAndBob? == s.motion.SpinAndBob?
      && (s.motion.SpinAndBob? ==> BobOf(r) == BobStep(BobOf(s), Fraction(now, s.currentTime)))
      && (s.motion.Spin? ==> VerticalOffset(r.modelView) == VerticalOffset(s.modelView))
  {
    var f := Fraction(now, s.currentTime);
    var rot := s.modelView + [Rotate(f, axis)];
    VerticalOffsetSnoc(s.modelView, Rotate(f, axis));
    match s.motion
    case Spin =>
      assert Tick(s, axis, now).modelView == rot;
    case SpinAndBob(up) =>
      var mv := Translate(Vec3(0.0, if up then 5.0 * f else -5.0 * f, 0.0));
      assert Tick(s, axis, now).modelView == rot + [mv];
      VerticalOffsetSnoc(rot, mv);
  }

  /**
   * The direction changes exactly when the moved offset has passed a bound:
   * going up and now above +3, or going down and now below -3.
   */
  lemma BobFlipRule(b: Bob, fract: real)
    ensures var r := BobStep(b, fract);
      && r.offset == (if b.up then b.offset + 5.0 * fract else b.offset - 5.0 * fract)
      && (r.up != b.up <==> (b.up && r.offset > 3.0) || (!b.up && r.offset < -3.0))
      && (-3.0 <= r.offset <= 3.0 ==> r.up == b.up)
  {
  }

  /** The oscillator's phase invariant: going up at most at +3, going down at least at -3. */
  predicate InPhase(b: Bob)
  {
    (b.up ==> b.offset <= 3.0) && (!b.up ==> b.offset >= -3.0)
  }

  /** Every step keeps the phase invariant, whatever the sign or size of the fraction. */
  lemma BobStepKeepsPhase(b: Bob, fract: real)
    requires InPhase(b)
    ensures InPhase(BobStep(b, fract))
  {
  }

  /** A step with no elapsed time leaves the oscillator as it was. */
  lemma IdleBobStep(b: Bob)
    requires InPhase(b)
    ensures BobStep(b, 0.0) == b
  {
  }

  /** A matrix call that leaves every matrix unchanged. */
  predicate Identity(op: Op)
  {
    match op
    case Translate(v) => v == Vec3(0.0, 0.0, 0.0)
    case Rotate(turns, _) => turns == 0.0
  }

  /**
   * An update with no elapsed time only appends identity calls to the matrix
   * history, keeps the vertical offset, and keeps the oscillator of an object
   * that satisfies the phase invariant.
   */
  lemma IdleTick(s: ObjectState, axis: Vec3)
    requires s.motion.SpinAndBob? ==> InPhase(BobOf(s))
    ensures var r := Tick(s, axis, s.currentTime);
      && r.currentTime == s.currentTime && r.motion == s.motion
      && r.modelView[..|s.modelView|] == s.modelView
      && (forall k :: |s.modelView| <= k < |r.modelView| ==> Identity(r.modelView[k]))
      && VerticalOffset(r.modelView) == VerticalOffset(s.modelView)
  {
    TickEffect(s, axis, s.currentTime);
    var r := Tick(s, axis, s.currentTime);
    assert r.modelView == s.modelView + TickOps(s.motion, axis, 0.0);
    if s.motion.SpinAndBob? {
      IdleBobStep(BobOf(s));
    }
  }

  /** `n` steps of the oscillator with the same elapsed fraction each time. */
  function BobRun(b: Bob, fract: real, n: nat): Bob
  {
    if n == 0 then b else BobStep(BobRun(b, fract, n - 1), fract)
  }

  /**
   * Going up with a fixed non-negative step, the offset climbs by 5·fract per
   * tick and the direction stays up as long as the offset reached is at most +3.
   */
  lemma {:induction false} Climbs(b: Bob, fract: real, n: nat)
    requires b.up && fract >= 0.0
    requires b.offset + 5.0 * (n as real) * fract <= 3.0
    ensures BobRun(b, fract, n) == Bob(true, b.offset + 5.0 * (n as real) * fract)
  {
    if n > 0 {
      var m: nat := n - 1;
      assert (n as real) == (m as real) + 1.0;
      assert 5.0 * (n as real) * fract == 5.0 * (m as real) * fract + 5.0 * fract;
      Climbs(b, fract, m);
    }
  }

  /** The tick that first carries the offset above +3 turns the oscillator down. */
  lemma TurnsDown(b: Bob, fract: real, n: nat)
    requires b.up && fract > 0.0 && n > 0
    requires b.offset + 5.0 * ((n - 1) as real) * fract <= 3.0
    requires b.offset + 5.0 * (n as real) * fract > 3.0
    ensures BobRun(b, fract, n) == Bob(false, b.offset + 5.0 * (n as real) * fract)
  {
    var m: nat := n - 1;
    assert (n as real) == (m as real) + 1.0;
    assert 5.0 * (n as real) * fract == 5.0 * (m as real) * fract + 5.0 * fract;
    Climbs(b, fract, m);
  }

  /**
   * Going down with a fixed non-negative step, the offset falls by 5·fract per
   * tick and the direction stays down as long as the offset reached is at least -3.
   */
  lemma {:induction false} Descends(b: Bob, fract: real, n: nat)
    requires !b.up && fract >= 0.0
    requires b.offset - 5.0 * (n as real) * fract >= -3.0
    ensures BobRun(b, fract, n) == Bob(false, b.offset - 5.0 * (n as real) * fract)
  {
    if n > 0 {
      var m: nat := n - 1;
      assert (n as real) == (m as real) + 1.0;
      assert 5.0 * (n as real) * fract == 5.0 * (m as real) * fract + 5.0 * fract;
      Descends(b, fract, m);
    }
  }

  /** The tick that first carries the offset below -3 turns the oscillator up. */
  lemma TurnsUp(b: Bob, fract: real, n: nat)
    requires !b.up && fract > 0.0 && n > 0
    requires b.offset - 5.0 * ((n - 1) as real) * fract >= -3.0
    requires b.offset - 5.0 * (n as real) * fract < -3.0
    ensures BobRun(b, fract, n) == Bob(true, b.offset - 5.0 * (n as real) * fract)
  {
    var m: nat := n - 1;
    assert (n as real) == (m as real) + 1.0;
    assert 5.0 * (n as real) * fract == 5.0 * (m as real) * fract + 5.0 * fract;
    Descends(b, fract, m);
  }

  /** The oscillator after a sequence of steps with the given fractions, first to last. */
  function BobTrace(b: Bob, fracts: seq<real>): Bob
    decreases |fracts|
  {
    if fracts == [] then b else BobTrace(BobStep(b, fracts[0]), fracts[1..])
  }

  /**
   * With every elapsed fraction between 0 and `maxFract`, an oscillator that
   * starts in phase and within ±(3 + 5·maxFract) stays in phase and within
   * that band forever: the bobbing is bounded.
   */
  lemma {:induction false} StaysInBand(b: Bob, fracts: seq<real>, maxFract: real)
    requires InPhase(b)
    requires -3.0 - 5.0 * maxFract <= b.offset <= 3.0 + 5.0 * maxFract
    requires forall i :: 0 <= i < |fracts| ==> 0.0 <= fracts[i] <= maxFract
    ensures InPhase(BobTrace(b, fracts))
    ensures -3.0 - 5.0 * maxFract <= BobTrace(b, fracts).offset <= 3.0 + 5.0 * maxFract
    decreases |fracts|
  {
    if fracts != [] {
      StaysInBand(BobStep(b, fracts[0]), fracts[1..], maxFract);
    }
  }

  lemma {:induction false} BobRunFirstStep(b: Bob, fract: real, n: nat)
    requires n > 0
    ensures BobRun(b, fract, n) == BobRun(BobStep(b, fract), fract, n - 1)
  {
    if n > 1 {
      BobRunFirstStep(b, fract, n - 1);
    }
  }

  /** Stepping `n` times with one fraction is the trace over `n` copies of it. */
  lemma {:induction false} BobRunIsTrace(b: Bob, fract: real, n: nat)
    ensures BobRun(b, fract, n) == BobTrace(b, Copies(fract, n))
    decreases n
  {
    if n > 0 {
      assert Copies(fract, n)[0] == fract;
      assert Copies(fract, n)[1..] == Copies(fract, n - 1);
      BobRunIsTrace(BobStep(b, fract), fract, n - 1);
      BobRunFirstStep(b, fract, n);
    }
  }

  /** `n` updates of an object, each one `dt` milliseconds after the previous one. */
  function Ticks(s: ObjectState, axis: Vec3, dt: int, n: nat): ObjectState
  {
    if n == 0 then s
    else
      var p := Ticks(s, axis, dt, n - 1);
      Tick(p, axis, p.currentTime + dt)
  }

  /**
   * Repeated updates with a fixed elapsed time `dt` move a bobbing object's
   * oscillator exactly as repeated steps with the fraction `dt / duration`.
   */
  lemma {:induction false} TicksFollowBobRun(s: ObjectState, axis: Vec3, dt: int, n: nat)
    requires s.motion.SpinAndBob?
    ensures Ticks(s, axis, dt, n).motion.SpinAndBob?
    ensures BobOf(Ticks(s, axis, dt, n)) == BobRun(BobOf(s), Fraction(dt, 0), n)
  {
    if n > 0 {
      TicksFollowBobRun(s, axis, dt, n - 1);
      var p := Ticks(s, axis, dt, n - 1);
      TickEffect(p, axis, p.currentTime + dt);
      assert Fraction(p.currentTime + dt, p.currentTime) == Fraction(dt, 0);
    }
  }

  /**
   * An octahedron going up, updated every `dt >= 0` milliseconds (each update
   * moving by the fraction `fract` of a period), keeps going up while its
   * height stays at most +3, and its height climbs by 5·fract per update.
   */
  lemma RepeatedTicksClimb(s: ObjectState, axis: Vec3, dt: int, fract: real, k: nat)
    requires s.motion == SpinAndBob(true) && dt >= 0 && fract == Fraction(dt, 0)
    requires BobOf(s).offset + 5.0 * (k as real) * fract <= 3.0
    ensures Ticks(s, axis, dt, k).motion.SpinAndBob?
    ensures BobOf(Ticks(s, axis, dt, k)) == Bob(true, BobOf(s).offset + 5.0 * (k as real) * fract)
  {
    Climbs(BobOf(s), fract, k);
    TicksFollowBobRun(s, axis, dt, k);
  }

  /**
   * The first of those updates that carries the height above +3 turns the
   * octahedron down.
   */
  lemma RepeatedTicksTurnDown(s: ObjectState, axis: Vec3, dt: int, fract: real, n: nat)
    requires s.motion == SpinAndBob(true) && dt > 0 && fract == Fraction(dt, 0) && n > 0
    requires BobOf(s).offset + 5.0 * ((n - 1) as real) * fract <= 3.0
    requires BobOf(s).offset + 5.0 * (n as real) * fract > 3.0
    ensures Ticks(s, axis, dt, n).motion.SpinAndBob?
    ensures BobOf(Ticks(s, axis, dt, n)) == Bob(false, BobOf(s).offset + 5.0 * (n as real) * fract)
  {
    TurnsDown(BobOf(s), fract, n);
    TicksFollowBobRun(s, axis, dt, n);
  }

  /**
   * Symmetrically, an octahedron going down is turned up by the first update
   * that carries its height below -3.
   */
  lemma RepeatedTicksTurnUp(s: ObjectState, axis: Vec3, dt: int, fract: real, n: nat)
    requires s.motion == SpinAndBob(false) && dt > 0 && fract == Fraction(dt, 0) && n > 0
    requires BobOf(s).offset - 5.0 * ((n - 1) as real) * fract >= -3.0
    requires BobOf(s).offset - 5.0 * (n as real) * fract < -3.0
    ensures Ticks(s, axis, dt, n).motion.SpinAndBob?
    ensures BobOf(Ticks(s, axis, dt, n)) == Bob(true, BobOf(s).offset - 5.0 * (n as real) * fract)
  {
    TurnsUp(BobOf(s), fract, n);
    TicksFollowBobRun(s, axis, dt, n);
  }

  /**
   * A scene object's animated fields: the model-view matrix history, the
   * time of the last update and the update behaviour. The geometry and the
   * rotation axis passed to the factory do not change.
   */
  class SceneObject {
    const mesh: Mesh
    const axis: Vec3
    var modelView: seq<Op>
    var currentTime: int
    var motion: Motion

    function State(): ObjectState
      reads this
    {
      ObjectState(modelView, currentTime, motion)
    }

    /** A bobbing object's oscillator is in phase. */
    ghost predicate Valid()
      reads this
    {
      motion.SpinAndBob? ==> InPhase(BobOf(State()))
    }

    /**
     * The common part of the factories: `mat4.create()` translated by
     * `translation`, the timestamp `Date.now()`, and for the octahedron
     * `up = true`.
     */
    constructor (mesh: Mesh, translation: Vec3, axis: Vec3, bobs: bool, now: int)
      ensures this.mesh == mesh && this.axis == axis
      ensures State() == ObjectState([Translate(translation)], now, if bobs then SpinAndBob(true) else Spin)
      ensures Valid() <==> (bobs ==> translation.y <= 3.0)
    {
      this.mesh := mesh;
      this.axis := axis;
      modelView := [Translate(translation)];
      currentTime := now;
      motion := if bobs then SpinAndBob(true) else Spin;
      VerticalOffsetSnoc([], Translate(translation));
    }

    /** The object's `update` closure, with the clock reading passed in as `now`. */
    method Update(now: int)
      modifies this
      ensures State() == Tick(old(State()), axis, now)
      ensures old(Valid()) ==> Valid()
    {
      ghost var before := State();
      ghost var after := Tick(before, axis, now);
      TickEffect(before, axis, now);
      var deltat := now - currentTime;
      currentTime := now;
      var fract := deltat as real / Duration as real;
      assert fract == Fraction(now, before.currentTime);
      modelView := modelView + [Rotate(fract, axis)];
      match motion {
        case Spin =>
          assert modelView == after.modelView;
        case SpinAndBob(up) =>
          if up {
            modelView := modelView + [Translate(Vec3(0.0, 5.0 * fract, 0.0))];
            assert modelView == after.modelView;
            assert VerticalOffset(modelView) == BobStep(BobOf(before), fract).offset;
            if VerticalOffset(modelView) > 3.0 {
              motion := SpinAndBob(false);
            }
          } else {
            modelView := modelView + [Translate(Vec3(0.0, -5.0 * fract, 0.0))];
            assert modelView == after.modelView;
            assert VerticalOffset(modelView) == BobStep(BobOf(before), fract).offset;
            if VerticalOffset(modelView) < -3.0 {
              motion := SpinAndBob(true);
            }
          }
          assert motion == after.motion;
          if InPhase(BobOf(before)) {
            BobStepKeepsPhase(BobOf(before), fract);
          }
      }
    }
  }
}
