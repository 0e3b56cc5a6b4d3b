/**
 * engine/particle.go: one particle of a particle system. A live particle
 * ages by dt per Update, moves by its velocity per Update (whatever dt is),
 * fades its colour from StartColor towards EndColor over its Duration and
 * expires once its age reaches the Duration.
 */
module Particles {
  import opened Engine
  import opened Tweens

  /** The fields of a Particle, as one value. */
  datatype ParticleState = ParticleState(
    position: Vector3,
    velocity: Vector3,
    duration: real,
    acculTime: real,
    startColor: RGBA,
    endColor: RGBA,
    renderColor: RGBA,
    isAlive: bool)

  /** Go's zero colour, color.RGBA{}. */
  const Transparent := RGBA(0, 0, 0, 0)

  /**
   * NewParticle: a one-second particle at the origin, at rest and not alive;
   * its colours keep Go's zero value.
   */
  const NewState := ParticleState(Zero, Zero, 1.0, 0.0, Transparent, Transparent, Transparent, false)

  /**
   * Go's uint8(x) for a float64: truncation toward zero, exact when x lies in
   * (-1, 256). Outside that range Go leaves the result to the platform; the
   * model then gives 0.
   */
  function ToByte(x: real): Byte {
    if 0.0 <= x < 256.0 then x.Floor else 0
  }

  /**
   * One colour channel of Update: the tween from start to end over the
   * duration, sampled at time t and converted to a byte. A zero duration
   * makes Go divide by zero, whose conversion the platform decides; the
   * model then gives 0.
   */
  function Channel(t: real, start: Byte, end: Byte, duration: real): Byte {
    if duration == 0.0 then 0
    else ToByte(LinearEasing(t, start as real, -(start as real - end as real), duration))
  }

  /** The colour Update renders: red, green and blue eased at the current age, alpha from StartColor. */
  function Eased(p: ParticleState): RGBA {
    RGBA(Channel(p.acculTime, p.startColor.r, p.endColor.r, p.duration),
         Channel(p.acculTime, p.startColor.g, p.endColor.g, p.duration),
         Channel(p.acculTime, p.startColor.b, p.endColor.b, p.duration),
         p.startColor.a)
  }

  /**
   * Particle.Update on the value: a dead particle stays as it is; a live one
   * takes the colour eased at its age, then ages by dt, moves by its
   * velocity, and dies when the new age reaches its duration.
   */
  function Stepped(p: ParticleState, dt: real): ParticleState {
    if !p.isAlive then p
    else
      var age := p.acculTime + dt;
      p.(renderColor := Eased(p), acculTime := age,
         position := Add(p.position, p.velocity), isAlive := !(age >= p.duration))
  }

  /** n Updates with the same dt. */
  function Steps(p: ParticleState, dt: real, n: nat): ParticleState
    decreases n
  {
    if n == 0 then p else Stepped(Steps(p, dt, n - 1), dt)
  }

  // ---------------------------------------------------------------------
  // The particle object
  // ---------------------------------------------------------------------

  class Particle {
    /** Position and Velocity are *Vector3 in Go; here they are values. */
    var position: Vector3
    var velocity: Vector3
    var duration: real
    var acculTime: real
    var startColor: RGBA
    var endColor: RGBA
    var renderColor: RGBA
    var isAlive: bool

    function State(): ParticleState
      reads this
    {
      ParticleState(position, velocity, duration, acculTime, startColor, endColor, renderColor, isAlive)
    }

    /** NewParticle. */
    constructor ()
      ensures State() == NewState
    {
      position := Zero;
      velocity := Zero;
      duration := 1.0;
      acculTime := 0.0;
      startColor := Transparent;
      endColor := Transparent;
      renderColor := Transparent;
      isAlive := false;
    }

    /** Overwrite every field: what a foreign callback given this particle may do. */
    method Assign(s: ParticleState)
      modifies this
      ensures State() == s
    {
      position, velocity, duration, acculTime := s.position, s.velocity, s.duration, s.acculTime;
      startColor, endColor, renderColor, isAlive := s.startColor, s.endColor, s.renderColor, s.isAlive;
    }

    /** Update: see Stepped. */
    method Update(dt: real)
      modifies this
      ensures State() == Stepped(old(State()), dt)
    {
      if !isAlive {
        return;
      }
      var re := Channel(acculTime, startColor.r, endColor.r, duration);
      var gr := Channel(acculTime, startColor.g, endColor.g, duration);
      var bl := Channel(acculTime, startColor.b, endColor.b, duration);
      renderColor := RGBA(re, gr, bl, startColor.a);
      acculTime := acculTime + dt;
      position := Add(position, velocity);
      if acculTime >= duration {
        isAlive := false;
      }
    }
  }

  // ---------------------------------------------------------------------
  // Properties of Update
  // ---------------------------------------------------------------------

  /** Update on a dead particle changes nothing. */
  lemma DeadStaysPut(p: ParticleState, dt: real)
    requires !p.isAlive
    ensures Stepped(p, dt) == p
  {
  }

  /**
   * Update on a live particle: the age grows by dt, the position by the
   * velocity (not scaled by dt), alpha comes from StartColor, and the particle
   * survives exactly when the new age is still below its duration. Velocity,
   * duration and the two end colours are never touched.
   */
  lemma LiveStep(p: ParticleState, dt: real)
    requires p.isAlive
    ensures var q := Stepped(p, dt);
            && q.acculTime == p.acculTime + dt
            && q.position == Vector3(p.position.x + p.velocity.x, p.position.y + p.velocity.y,
                                     p.position.z + p.velocity.z)
            && q.renderColor.a == p.startColor.a
            && (q.isAlive <==> p.acculTime + dt < p.duration)
            && q.velocity == p.velocity && q.duration == p.duration
            && q.startColor == p.startColor && q.endColor == p.endColor
  {
  }

  /** A byte converted to float64 and back is itself. */
  lemma ToByteOfByte(b: Byte)
    ensures ToByte(b as real) == b
  {
  }

  /**
   * The colour is eased at the age before the increment, so the first Update
   * after a trigger (age 0) renders StartColor's red, green and blue.
   */
  lemma FirstUpdateShowsStartColor(p: ParticleState, dt: real)
    requires p.isAlive && p.acculTime == 0.0 && p.duration != 0.0
    ensures Stepped(p, dt).renderColor == p.startColor
  {
    EasingStartsAtStart(p.startColor.r as real, -(p.startColor.r as real - p.endColor.r as real), p.duration);
    EasingStartsAtStart(p.startColor.g as real, -(p.startColor.g as real - p.endColor.g as real), p.duration);
    EasingStartsAtStart(p.startColor.b as real, -(p.startColor.b as real - p.endColor.b as real), p.duration);
    ToByteOfByte(p.startColor.r);
    ToByteOfByte(p.startColor.g);
    ToByteOfByte(p.startColor.b);
  }

  /**
   * Within the particle's lifetime every channel lies between its start and
   * end values: the float-to-byte conversion never leaves the exact range.
   */
  lemma ChannelBetween(t: real, start: Byte, end: Byte, duration: real)
    requires duration > 0.0 && 0.0 <= t <= duration
    ensures start <= end ==> start <= Channel(t, start, end, duration) <= end
    ensures end <= start ==> end <= Channel(t, start, end, duration) <= start
  {
    var c := -(start as real - end as real);
    EasingBetweenEnds(t, start as real, c, duration);
  }

  /** dt added up n times. */
  function Elapsed(dt: real, n: nat): real
    decreases n
  {
    if n == 0 then 0.0 else Elapsed(dt, n - 1) + dt
  }

  /** v added up n times. */
  function Travelled(v: Vector3, n: nat): Vector3
    decreases n
  {
    if n == 0 then Zero else Add(Travelled(v, n - 1), v)
  }

  /**
   * A particle triggered at age 0 and updated n times with a positive dt is
   * alive exactly while n steps of dt stay below its duration; while alive its
   * age is those n steps and it has moved by n velocities.
   */
  lemma {:induction false} LifetimeBySteps(p: ParticleState, dt: real, n: nat)
    requires p.isAlive && p.acculTime == 0.0 && dt > 0.0
    ensures var q := Steps(p, dt, n);
            && (q.isAlive <==> n == 0 || Elapsed(dt, n) < p.duration)
            && (q.isAlive ==> q.acculTime == Elapsed(dt, n)
                               && q.position == Add(p.position, Travelled(p.velocity, n)))
            && q.velocity == p.velocity && q.duration == p.duration
    decreases n
  {
    if n > 0 {
      var k := n - 1;
      LifetimeBySteps(p, dt, k);
      var prev := Steps(p, dt, k);
      assert Steps(p, dt, n) == Stepped(prev, dt);
      if prev.isAlive {
        LiveStep(prev, dt);
      } else {
        DeadStaysPut(prev, dt);
      }
    }
  }

  /** n steps of dt are n * dt. */
  lemma {:induction false} ElapsedIsProduct(dt: real, n: nat)
    ensures Elapsed(dt, n) == (n as real) * dt
    decreases n
  {
    if n > 0 {
      ElapsedIsProduct(dt, n - 1);
      NextMultiple(n - 1, n, dt);
    }
  }

  /** n velocities are the velocity scaled by n. */
  lemma {:induction false} TravelledIsScaled(v: Vector3, n: nat)
    ensures Travelled(v, n) == ScaleBy(v, n as real)
    decreases n
  {
    if n > 0 {
      TravelledIsScaled(v, n - 1);
      NextMultiple(n - 1, n, v.x);
      NextMultiple(n - 1, n, v.y);
      NextMultiple(n - 1, n, v.z);
    }
  }

  /**
   * The same with products: alive exactly while n * dt is below the
   * duration, at age n * dt and n velocities from the start.
   */
  lemma Lifetime(p: ParticleState, dt: real, n: nat)
    requires p.isAlive && p.acculTime == 0.0 && dt > 0.0
    ensures var q := Steps(p, dt, n);
            && (q.isAlive <==> n == 0 || (n as real) * dt < p.duration)
            && (q.isAlive ==> q.acculTime == (n as real) * dt
                               && q.position == Add(p.position, ScaleBy(p.velocity, n as real)))
  {
    LifetimeBySteps(p, dt, n);
    ElapsedIsProduct(dt, n);
    TravelledIsScaled(p.velocity, n);
  }

  /** One more multiple of x. */
  lemma NextMultiple(k: nat, n: nat, x: real)
    requires n == k + 1
    ensures (n as real) * x == (k as real) * x + x
    ensures x * (n as real) == x * (k as real) + x
  {
  }
}
