/**
 * engine/particle_system.go: a fixed set of particle slots. Update advances
 * the live particles, Render hands each live particle to the renderer in
 * slot order, and TriggerParticle revives the first dead slot and hands it
 * to the triggerer to configure.
 *
 * The two callbacks are foreign code. The renderer's drawing is not
 * modelled: Render returns the slots it hands over, in call order. The
 * triggerer is modelled as a function from the revived particle's state to
 * the state the callback leaves it in; it touches no other particle.
 */
module ParticleSystems {
  import opened Engine
  import opened Pools
  import opened Particles

  /** Which slots hold a live particle. */
  function Flags(ps: seq<Particle>): seq<bool>
    reads ps
  {
    seq(|ps|, k requires 0 <= k < |ps| reads ps => ps[k].isAlive)
  }

  /** The first dead slot at or after i, or -1 when every one of them is alive. */
  function FirstDeadFrom(alive: seq<bool>, i: nat): (r: int)
    requires i <= |alive|
    ensures r == -1 || i <= r < |alive|
    ensures r == -1 ==> forall k :: i <= k < |alive| ==> alive[k]
    ensures r != -1 ==> !alive[r] && forall k :: i <= k < r ==> alive[k]
    decreases |alive| - i
  {
    if i == |alive| then -1 else if !alive[i] then i else FirstDeadFrom(alive, i + 1)
  }

  /** The live slots, in increasing order. */
  function LiveSlots(alive: seq<bool>): seq<nat>
  {
    if alive == [] then []
    else LiveSlots(alive[..|alive| - 1]) + (if alive[|alive| - 1] then [|alive| - 1] else [])
  }

  /** The number of live slots. */
  function LiveCount(alive: seq<bool>): nat
  {
    if alive == [] then 0 else LiveCount(alive[..|alive| - 1]) + (if alive[|alive| - 1] then 1 else 0)
  }

  /** LiveSlots lists exactly the live slots. */
  lemma {:induction false} LiveSlotsMembers(alive: seq<bool>)
    ensures forall k :: k in LiveSlots(alive) <==> 0 <= k < |alive| && alive[k]
    decreases |alive|
  {
    if alive != [] {
      var n := |alive|;
      var init := alive[..n - 1];
      LiveSlotsMembers(init);
      assert forall k :: 0 <= k < n - 1 ==> init[k] == alive[k];
    }
  }

  /** LiveSlots is strictly increasing, so no slot is handed over twice, and it has LiveCount entries. */
  lemma {:induction false} LiveSlotsIncreasing(alive: seq<bool>)
    ensures forall a, b :: 0 <= a < b < |LiveSlots(alive)| ==> LiveSlots(alive)[a] < LiveSlots(alive)[b]
    ensures |LiveSlots(alive)| == LiveCount(alive)
    decreases |alive|
  {
    if alive != [] {
      var n := |alive|;
      var init := alive[..n - 1];
      LiveSlotsIncreasing(init);
      LiveSlotsMembers(init);
      var front := LiveSlots(init);
      if alive[n - 1] {
        var r := front + [n - 1];
        assert LiveSlots(alive) == r;
        forall a, b | 0 <= a < b < |r|
          ensures r[a] < r[b]
        {
          if b < |front| {
            assert r[a] == front[a] && r[b] == front[b];
          } else {
            assert r[a] == front[a] && front[a] in front;
          }
        }
      } else {
        assert LiveSlots(alive) == front;
      }
    }
  }

  /**
   * Reviving one dead slot raises the live count by one when the slot ends
   * alive, and leaves it when the triggerer leaves the slot dead.
   */
  lemma {:induction false} LiveCountAfterRevive(alive: seq<bool>, j: nat, now: bool)
    requires j < |alive| && !alive[j]
    ensures LiveCount(alive[j := now]) == LiveCount(alive) + (if now then 1 else 0)
    decreases |alive|
  {
    var n := |alive|;
    var after := alive[j := now];
    if j < n - 1 {
      assert after[..n - 1] == alive[..n - 1][j := now];
      LiveCountAfterRevive(alive[..n - 1], j, now);
    } else {
      assert after[..n - 1] == alive[..n - 1];
    }
  }

  class ParticleSystem {
    var particles: seq<Particle>
    /** The trigger callback, as what it does to the revived particle. */
    const triggerer: ParticleState -> ParticleState

    /** The slots hold distinct particles. */
    ghost predicate Valid()
      reads this
    {
      Distinct(particles)
    }

    /** NewParticleSystem: a system of count new particles. A negative count makes Go's make panic. */
    constructor (count: int, triggerer: ParticleState -> ParticleState)
      requires count >= 0
      ensures Valid() && this.triggerer == triggerer && |particles| == count
      ensures forall k :: 0 <= k < count ==> fresh(particles[k]) && particles[k].State() == NewState
    {
      this.triggerer := triggerer;
      particles := [];
      new;
      Initialize(count);
    }

    /** Initialize: count new particles, none of them alive. */
    method Initialize(count: int)
      requires count >= 0
      modifies this
      ensures Valid() && |particles| == count
      ensures forall k :: 0 <= k < count ==> fresh(particles[k]) && particles[k].State() == NewState
    {
      var ps: seq<Particle> := [];
      while |ps| < count
        invariant |ps| <= count && Distinct(ps)
        invariant forall k :: 0 <= k < |ps| ==> fresh(ps[k]) && ps[k].State() == NewState
      {
        var p := new Particle();
        ps := ps + [p];
      }
      particles := ps;
    }

    /** Update: each live particle is updated; dead ones are not touched. */
    method Update(dt: real)
      requires Valid()
      modifies particles
      ensures forall k :: 0 <= k < |particles| ==> particles[k].State() == Stepped(old(particles[k].State()), dt)
    {
      var i := 0;
      while i < |particles|
        invariant 0 <= i <= |particles|
        invariant forall k :: 0 <= k < i ==> particles[k].State() == Stepped(old(particles[k].State()), dt)
        invariant forall k :: i <= k < |particles| ==> particles[k].State() == old(particles[k].State())
      {
        var p := particles[i];
        if p.isAlive {
          p.Update(dt);
        }
        i := i + 1;
      }
    }

    /** Render: the slots handed to the renderer, one per live particle, in slot order. */
    method Render() returns (rendered: seq<nat>)
      ensures rendered == LiveSlots(Flags(particles))
    {
      rendered := [];
      var i := 0;
      while i < |particles|
        invariant 0 <= i <= |particles|
        invariant rendered == LiveSlots(Flags(particles)[..i])
      {
        assert Flags(particles)[..i + 1][..i] == Flags(particles)[..i];
        if particles[i].isAlive {
          rendered := rendered + [i];
        }
        i := i + 1;
      }
      assert Flags(particles)[..i] == Flags(particles);
    }

    /**
     * TriggerParticle: the first dead slot comes alive with RenderColor =
     * StartColor and age 0, and the triggerer then configures it; every
     * other slot is untouched. When all are alive nothing changes.
     */
    method TriggerParticle()
      requires Valid()
      modifies particles
      ensures var j := old(FirstDeadFrom(Flags(particles), 0));
              j != -1 ==> particles[j].State()
                          == triggerer(old(particles[j].State()).(isAlive := true,
                                                                  renderColor := old(particles[j].startColor),
                                                                  acculTime := 0.0))
      ensures var j := old(FirstDeadFrom(Flags(particles), 0));
              forall k :: 0 <= k < |particles| && k != j ==> particles[k].State() == old(particles[k].State())
      ensures LiveCount(Flags(particles)) <= old(LiveCount(Flags(particles))) + 1
    {
      ghost var before := Flags(particles);
      var i := 0;
      while i < |particles| && particles[i].isAlive
        invariant 0 <= i <= |particles|
        invariant FirstDeadFrom(before, 0) == FirstDeadFrom(before, i)
      {
        i := i + 1;
      }
      if i == |particles| {
        return;
      }
      var p := particles[i];
      assert forall k :: 0 <= k < |particles| && k != i ==> particles[k] != p;
      Revive(p, triggerer);
      LiveCountAfterRevive(before, i, p.isAlive);
      assert Flags(particles) == before[i := p.isAlive];
    }
  }

  /** The body of TriggerParticle's match: revive p, then run the triggerer on it. */
  method Revive(p: Particle, triggerer: ParticleState -> ParticleState)
    modifies p
    ensures p.State() == triggerer(old(p.State()).(isAlive := true, renderColor := old(p.startColor), acculTime := 0.0))
  {
    p.isAlive := true;
    p.renderColor := p.startColor;
    p.acculTime := 0.0;
    p.Assign(triggerer(p.State()));
  }

}
