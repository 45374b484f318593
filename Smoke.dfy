/** The ambient hookah-smoke simulation (`SmokeManager`).

    Fixed-point units replace the source's floating point:
      - life and base alpha in thousandths (1000 is 1.0),
      - intensity in hundredths (100 is 1.0),
      - positions, velocities and radii in hundredths of a pixel.
    Random draws are parameters whose ranges are those the source's `Math.random`
    expressions produce; drawing is recorded as the alpha each surviving particle is painted
    with, in units of 10^-8. */
module Smoke {

  const FullLife := 1000          // life of a fresh particle
  const RunDecay := 5             // life lost per running frame (0.005)
  const FadeDecay := 10           // life lost per fade-out frame (0.01)
  const FullIntensity := 100      // 1.0
  const IntensityStep := 2        // 0.02
  const MaxParticles := 100
  const BatchSize := 3            // particles per spawn tick
  const SpawnIntervalMs := 100
  const SourceInset := 100        // the source sits 100 px from the right and bottom edges

  datatype Particle = Particle(x: int, y: int, vx: int, vy: int, radius: int, alpha: int, life: int)

  /** The random part of one new particle, already scaled to model units. */
  datatype Draw = Draw(dx: int, vx: int, vy: int, radius: int, alpha: int)

  /** Ranges of `(r - 0.5) * 50`, `(r - 0.5) * 2`, `-1 - 2r`, `20 + 40r` and `0.05 + 0.15r`
      for r in [0, 1). */
  predicate ValidDraw(d: Draw) {
    -2500 <= d.dx < 2500 && -100 <= d.vx < 100 && -300 < d.vy <= -100 &&
    2000 <= d.radius < 6000 && 50 <= d.alpha < 200
  }

  predicate ValidDraws(draws: seq<Draw>) {
    forall k :: 0 <= k < |draws| ==> ValidDraw(draws[k])
  }

  /** Range of the horizontal drift `(r - 0.5) * 0.1` added to vx on each running frame. */
  predicate ValidDrifts(drifts: seq<int>) {
    forall k :: 0 <= k < |drifts| ==> -5 <= drifts[k] < 5
  }

  /** The attributes a particle keeps for its whole life, and its life in (0, 1]. */
  predicate Shaped(p: Particle) {
    -300 < p.vy <= -100 && 2000 <= p.radius < 6000 && 50 <= p.alpha < 200
  }

  predicate WellFormed(p: Particle) {
    Shaped(p) && 0 < p.life <= FullLife
  }

  /** A particle born at the smoke source, near the bottom-right corner of the viewport. */
  function Spawn(d: Draw, viewWidth: int, viewHeight: int): (p: Particle)
    requires ValidDraw(d)
    ensures WellFormed(p) && p.life == FullLife
    ensures p.y == (viewHeight - SourceInset) * 100
    ensures (viewWidth - SourceInset) * 100 - 2500 <= p.x < (viewWidth - SourceInset) * 100 + 2500
  {
    Particle((viewWidth - SourceInset) * 100 + d.dx, (viewHeight - SourceInset) * 100,
             d.vx, d.vy, d.radius, d.alpha, FullLife)
  }

  function Spawned(draws: seq<Draw>, viewWidth: int, viewHeight: int): (ps: seq<Particle>)
    requires ValidDraws(draws)
    ensures |ps| == |draws|
    ensures forall k :: 0 <= k < |ps| ==> ps[k] == Spawn(draws[k], viewWidth, viewHeight)
  {
    seq(|draws|, k requires 0 <= k < |draws| => Spawn(draws[k], viewWidth, viewHeight))
  }

  function Min(a: int, b: int): int { if a < b then a else b }

  /** One more spawned particle, appended after a given pool. */
  lemma SpawnedSnoc(base: seq<Particle>, draws: seq<Draw>, i: nat, viewWidth: int, viewHeight: int)
    requires ValidDraws(draws) && i < |draws|
    ensures base + Spawned(draws[..i + 1], viewWidth, viewHeight) ==
      base + Spawned(draws[..i], viewWidth, viewHeight) + [Spawn(draws[i], viewWidth, viewHeight)]
  {
    assert Spawned(draws[..i + 1], viewWidth, viewHeight) ==
      Spawned(draws[..i], viewWidth, viewHeight) + [Spawn(draws[i], viewWidth, viewHeight)];
  }

  /** The pool after one spawn tick: the new particles appended, then `slice(-100)`
      when the pool has grown past the cap. */
  function SpawnPool(ps: seq<Particle>, draws: seq<Draw>, viewWidth: int, viewHeight: int): (r: seq<Particle>)
    requires ValidDraws(draws) && |draws| == BatchSize
    ensures |ps| <= MaxParticles ==> |r| == Min(|ps| + BatchSize, MaxParticles)
    ensures |r| <= MaxParticles
    ensures |ps| <= MaxParticles ==> r[|r| - BatchSize..] == Spawned(draws, viewWidth, viewHeight)
    ensures forall k :: 0 <= k < |r| - BatchSize ==> r[k] in ps
    ensures |ps| <= MaxParticles ==> r[..|r| - BatchSize] == ps[|ps| - (|r| - BatchSize)..]
  {
    var all := ps + Spawned(draws, viewWidth, viewHeight);
    if |all| > MaxParticles then all[|all| - MaxParticles..] else all
  }

  /** Spawning keeps every particle of the pool well formed. */
  lemma SpawnPoolWellFormed(ps: seq<Particle>, draws: seq<Draw>, viewWidth: int, viewHeight: int)
    requires ValidDraws(draws) && |draws| == BatchSize
    requires forall p :: p in ps ==> WellFormed(p)
    ensures forall p :: p in SpawnPool(ps, draws, viewWidth, viewHeight) ==> WellFormed(p)
  {
    var all := ps + Spawned(draws, viewWidth, viewHeight);
    assert forall p :: p in all ==> WellFormed(p);
  }

  /** The intensity after a spawn tick: it rises by 0.02 only while below 1.0. */
  function RaiseIntensity(i: int): int {
    if i < FullIntensity then i + IntensityStep else i
  }

  /** From any reachable intensity a spawn tick stays on the 0.02 grid and never passes 1.0. */
  lemma RaiseIntensityKeepsSteps(i: int)
    requires 0 <= i <= FullIntensity && i % IntensityStep == 0
    ensures 0 < RaiseIntensity(i) <= FullIntensity && RaiseIntensity(i) % IntensityStep == 0
  {
  }

  /** The intensity after a fade-out frame: `Math.max(0, i - 0.02)`. */
  function LowerIntensity(i: int): (r: int)
    ensures r >= 0 && r <= (if i > 0 then i else 0)
  {
    if i - IntensityStep > 0 then i - IntensityStep else 0
  }

  /** Intensity after k spawn ticks. */
  function Ramp(i: int, k: nat): int {
    if k == 0 then i else RaiseIntensity(Ramp(i, k - 1))
  }

  /** Starting from any reachable intensity, k spawn ticks raise it by 0.02 each until it
      reaches exactly 1.0, where it stays: full intensity after 50 ticks from zero. */
  lemma {:induction false} RampReachesFull(i: int, k: nat)
    requires 0 <= i <= FullIntensity && i % IntensityStep == 0
    ensures Ramp(i, k) == Min(i + IntensityStep * k, FullIntensity)
  {
    if k > 0 {
      RampReachesFull(i, k - 1);
    }
  }

  /** One running frame for one particle: move, drift horizontally, age by 0.005. */
  function RunStep(p: Particle, drift: int): Particle {
    p.(x := p.x + p.vx, y := p.y + p.vy, vx := p.vx + drift, life := p.life - RunDecay)
  }

  /** One fade-out frame for one particle: move without drift, age by 0.01. */
  function FadeStep(p: Particle): Particle {
    p.(x := p.x + p.vx, y := p.y + p.vy, life := p.life - FadeDecay)
  }

  function Alive(p: Particle): seq<Particle> {
    if p.life > 0 then [p] else []
  }

  /** `filter(p => p.life > 0)`, written from the right so that a loop can extend it. */
  function Survivors(qs: seq<Particle>): seq<Particle> {
    if qs == [] then [] else Survivors(qs[..|qs| - 1]) + Alive(qs[|qs| - 1])
  }

  /** A particle survives the filter exactly when it is in the input and still alive. */
  lemma {:induction false} SurvivorsExact(qs: seq<Particle>)
    ensures forall q :: q in Survivors(qs) <==> q in qs && q.life > 0
    ensures |Survivors(qs)| <= |qs|
  {
    if qs != [] {
      SurvivorsExact(qs[..|qs| - 1]);
      assert qs == qs[..|qs| - 1] + [qs[|qs| - 1]];
    }
  }

  /** Filtering keeps relative order: the survivors of a + b are those of a, then those of b. */
  lemma {:induction false} SurvivorsAppend(a: seq<Particle>, b: seq<Particle>)
    ensures Survivors(a + b) == Survivors(a) + Survivors(b)
  {
    if b != [] {
      var b' := b[..|b| - 1];
      assert (a + b)[..|a + b| - 1] == a + b';
      assert (a + b)[|a + b| - 1] == b[|b| - 1];
      SurvivorsAppend(a, b');
      calc {
        Survivors(a + b);
        Survivors(a + b') + Alive(b[|b| - 1]);
        Survivors(a) + Survivors(b') + Alive(b[|b| - 1]);
        Survivors(a) + Survivors(b);
      }
    } else {
      assert a + b == a;
    }
  }

  function Advanced(ps: seq<Particle>, drifts: seq<int>): (qs: seq<Particle>)
    requires |drifts| >= |ps|
    ensures |qs| == |ps| && forall k :: 0 <= k < |ps| ==> qs[k] == RunStep(ps[k], drifts[k])
  {
    seq(|ps|, k requires 0 <= k < |ps| => RunStep(ps[k], drifts[k]))
  }

  function Faded(ps: seq<Particle>): (qs: seq<Particle>)
    ensures |qs| == |ps| && forall k :: 0 <= k < |ps| ==> qs[k] == FadeStep(ps[k])
  {
    seq(|ps|, k requires 0 <= k < |ps| => FadeStep(ps[k]))
  }

  /** The pool after one running frame (`animate`). */
  function RunningFrame(ps: seq<Particle>, drifts: seq<int>): seq<Particle>
    requires |drifts| >= |ps|
  {
    Survivors(Advanced(ps, drifts))
  }

  /** The pool after one fade-out frame (`fadeOut`). */
  function FadeFrame(ps: seq<Particle>): seq<Particle> {
    Survivors(Faded(ps))
  }

  /** Painted alpha `p.alpha * p.life * intensity` of each particle, in units of 10^-8. */
  function Drawn(ps: seq<Particle>, intensity: int): (a: seq<int>)
    ensures |a| == |ps|
    ensures intensity == 0 ==> forall k :: 0 <= k < |a| ==> a[k] == 0
  {
    seq(|ps|, k requires 0 <= k < |ps| => ps[k].alpha * ps[k].life * intensity)
  }

  /** A running frame ages every particle by 0.005 and keeps only the live ones, in order,
      so it preserves the particle invariant and never grows the pool. */
  lemma RunningFrameProperties(ps: seq<Particle>, drifts: seq<int>)
    requires |drifts| >= |ps|
    requires forall p :: p in ps ==> WellFormed(p)
    ensures |RunningFrame(ps, drifts)| <= |ps|
    ensures forall q :: q in RunningFrame(ps, drifts) ==> WellFormed(q) && q.life <= FullLife - RunDecay
    ensures forall q :: q in RunningFrame(ps, drifts) <==>
      q.life > 0 && exists k :: 0 <= k < |ps| && q == RunStep(ps[k], drifts[k])
  {
    var qs := Advanced(ps, drifts);
    SurvivorsExact(qs);
    forall q | q in RunningFrame(ps, drifts)
      ensures WellFormed(q) && q.life <= FullLife - RunDecay
    {
      var k :| 0 <= k < |qs| && qs[k] == q;
      assert ps[k] in ps;
    }
  }

  /** A fade-out frame ages every particle by 0.01 and applies no drift. */
  lemma {:induction false} FadeFrameLowers(ps: seq<Particle>, bound: int)
    requires forall p :: p in ps ==> WellFormed(p) && p.life <= bound
    ensures |FadeFrame(ps)| <= |ps|
    ensures forall q :: q in FadeFrame(ps) ==> WellFormed(q) && q.life <= bound - FadeDecay
    ensures forall q :: q in FadeFrame(ps) ==> exists k :: 0 <= k < |ps| && q == FadeStep(ps[k]) && q.vx == ps[k].vx
  {
    var qs := Faded(ps);
    SurvivorsExact(qs);
    forall q | q in FadeFrame(ps)
      ensures WellFormed(q) && q.life <= bound - FadeDecay
      ensures exists k :: 0 <= k < |ps| && q == FadeStep(ps[k]) && q.vx == ps[k].vx
    {
      var k :| 0 <= k < |qs| && qs[k] == q;
      assert ps[k] in ps;
    }
  }

  function FadeFrames(ps: seq<Particle>, k: nat): seq<Particle>
    decreases k
  {
    if k == 0 then ps else FadeFrames(FadeFrame(ps), k - 1)
  }

  /** Filtering a frame in which every particle has died leaves nothing. */
  lemma {:induction false} SurvivorsOfDead(qs: seq<Particle>)
    requires forall k :: 0 <= k < |qs| ==> qs[k].life <= 0
    ensures Survivors(qs) == []
  {
    if qs != [] {
      SurvivorsOfDead(qs[..|qs| - 1]);
    }
  }

  /** Termination of the fade-out: particles whose life is at most 0.01 * k are all gone
      after k fade-out frames; a pool of particles created at life 1.0 is empty after 100. */
  lemma {:induction false} FadeEmptiesPool(ps: seq<Particle>, k: nat)
    requires k >= 1
    requires forall p :: p in ps ==> WellFormed(p) && p.life <= FadeDecay * k
    ensures FadeFrames(ps, k) == []
    decreases k
  {
    if k == 1 {
      var qs := Faded(ps);
      forall j | 0 <= j < |qs|
        ensures qs[j].life <= 0
      {
        assert ps[j] in ps;
      }
      SurvivorsOfDead(qs);
    } else {
      FadeFrameLowers(ps, FadeDecay * k);
      FadeEmptiesPool(FadeFrame(ps), k - 1);
    }
  }

  /** The `filter` callback of `animate` run over the whole pool: the survivors of one
      running frame and the alpha each is painted with. */
  method AdvanceAll(ps: seq<Particle>, drifts: seq<int>, intensity: int)
    returns (kept: seq<Particle>, drawn: seq<int>)
    requires |drifts| >= |ps|
    ensures kept == RunningFrame(ps, drifts)
    ensures drawn == Drawn(kept, intensity)
  {
    kept, drawn := [], [];
    var i := 0;
    while i < |ps|
      invariant 0 <= i <= |ps|
      invariant kept == Survivors(Advanced(ps[..i], drifts))
      invariant drawn == Drawn(kept, intensity)
    {
      ghost var before := Advanced(ps[..i], drifts);
      var p := RunStep(ps[i], drifts[i]);
      AdvancedSnoc(ps, drifts, i);
      SurvivorsSnoc(before, p);
      if p.life > 0 {
        DrawnSnoc(kept, p, intensity);
        kept := kept + [p];
        drawn := drawn + [p.alpha * p.life * intensity];
      }
      i := i + 1;
    }
    assert ps[..|ps|] == ps;
  }

  lemma AdvancedSnoc(ps: seq<Particle>, drifts: seq<int>, i: nat)
    requires i < |ps| <= |drifts|
    ensures Advanced(ps[..i + 1], drifts) == Advanced(ps[..i], drifts) + [RunStep(ps[i], drifts[i])]
  {
  }

  lemma FadedSnoc(ps: seq<Particle>, i: nat)
    requires i < |ps|
    ensures Faded(ps[..i + 1]) == Faded(ps[..i]) + [FadeStep(ps[i])]
  {
  }

  lemma SurvivorsSnoc(qs: seq<Particle>, p: Particle)
    ensures Survivors(qs + [p]) == Survivors(qs) + Alive(p)
  {
    assert (qs + [p])[..|qs|] == qs;
  }

  lemma DrawnSnoc(ps: seq<Particle>, p: Particle, intensity: int)
    ensures Drawn(ps + [p], intensity) == Drawn(ps, intensity) + [p.alpha * p.life * intensity]
  {
  }

  /** The `filter` callback of `fadeOut` run over the whole pool. */
  method FadeAll(ps: seq<Particle>, intensity: int) returns (kept: seq<Particle>, drawn: seq<int>)
    ensures kept == FadeFrame(ps)
    ensures drawn == Drawn(kept, intensity)
  {
    kept, drawn := [], [];
    var i := 0;
    while i < |ps|
      invariant 0 <= i <= |ps|
      invariant kept == Survivors(Faded(ps[..i]))
      invariant drawn == Drawn(kept, intensity)
    {
      ghost var before := Faded(ps[..i]);
      var p := FadeStep(ps[i]);
      FadedSnoc(ps, i);
      SurvivorsSnoc(before, p);
      if p.life > 0 {
        DrawnSnoc(kept, p, intensity);
        kept := kept + [p];
        drawn := drawn + [p.alpha * p.life * intensity];
      }
      i := i + 1;
    }
    assert ps[..|ps|] == ps;
  }

  class SmokeManager {
    var particles: seq<Particle>
    var isActive: bool
    var intensity: int
    /** Pending `setTimeout(createParticles, 100)` callbacks. */
    var spawnTimers: nat
    /** Whether the `animate` frame loop holds a requested animation frame. */
    var animating: bool
    /** Pending `requestAnimationFrame(fadeOut)` callbacks. */
    var fadeFrames: nat

    ghost predicate Valid()
      reads this
    {
      |particles| <= MaxParticles &&
      (forall p :: p in particles ==> WellFormed(p)) &&
      0 <= intensity <= FullIntensity && intensity % IntensityStep == 0 &&
      (!isActive ==> intensity == 0)
    }

    constructor ()
      ensures Valid()
      ensures particles == [] && !isActive && intensity == 0
      ensures spawnTimers == 0 && !animating && fadeFrames == 0
    {
      particles := [];
      isActive := false;
      intensity := 0;
      spawnTimers := 0;
      animating := false;
      fadeFrames := 0;
    }

    /** Stop when active, start otherwise. Returns the alphas painted by the frame that the
        start or stop runs at once. */
    method ToggleSmoke(draws: seq<Draw>, drifts: seq<int>, viewWidth: int, viewHeight: int)
      returns (drawn: seq<int>)
      requires Valid()
      requires |draws| == BatchSize && ValidDraws(draws)
      requires |drifts| >= MaxParticles && ValidDrifts(drifts)
      modifies this
      ensures Valid()
      ensures isActive == !old(isActive)
      ensures old(isActive) ==> intensity == 0 && !animating && particles == FadeFrame(old(particles))
      ensures old(isActive) ==> drawn == Drawn(particles, 0)
      ensures old(isActive) ==> forall k :: 0 <= k < |drawn| ==> drawn[k] == 0
      ensures old(isActive) ==>
        spawnTimers == old(spawnTimers) && fadeFrames == old(fadeFrames) + (if old(particles) != [] then 1 else 0)
      ensures !old(isActive) ==>
        (animating && particles == RunningFrame(SpawnPool(old(particles), draws, viewWidth, viewHeight), drifts))
      ensures !old(isActive) ==>
        intensity == RaiseIntensity(old(intensity)) && drawn == Drawn(particles, intensity) &&
        spawnTimers == old(spawnTimers) + 1 && fadeFrames == old(fadeFrames)
    {
      if isActive {
        var more;
        drawn, more := StopSmoke();
      } else {
        drawn := StartSmoke(draws, drifts, viewWidth, viewHeight);
      }
    }

    method StartSmoke(draws: seq<Draw>, drifts: seq<int>, viewWidth: int, viewHeight: int)
      returns (drawn: seq<int>)
      requires Valid()
      requires |draws| == BatchSize && ValidDraws(draws)
      requires |drifts| >= MaxParticles && ValidDrifts(drifts)
      modifies this
      ensures Valid()
      ensures isActive && animating
      ensures particles == RunningFrame(SpawnPool(old(particles), draws, viewWidth, viewHeight), drifts)
      ensures intensity == RaiseIntensity(old(intensity))
      ensures spawnTimers == old(spawnTimers) + 1 && fadeFrames == old(fadeFrames)
      ensures drawn == Drawn(particles, intensity)
    {
      isActive := true;
      CreateParticles(draws, viewWidth, viewHeight);
      drawn := Animate(drifts);
    }

    /** Stops spawning at once, zeroes the intensity, cancels the running frame loop and
        runs the first fade-out frame; every particle is therefore painted with alpha 0. */
    method StopSmoke() returns (drawn: seq<int>, rescheduled: bool)
      requires Valid()
      modifies this
      ensures Valid()
      ensures !isActive && intensity == 0 && !animating
      ensures rescheduled <==> old(particles) != []
      ensures particles == FadeFrame(old(particles))
      ensures drawn == Drawn(particles, 0)
      ensures forall k :: 0 <= k < |drawn| ==> drawn[k] == 0
      ensures spawnTimers == old(spawnTimers)
      ensures fadeFrames == old(fadeFrames) + (if rescheduled then 1 else 0)
    {
      isActive := false;
      intensity := 0;
      animating := false;
      drawn, rescheduled := FadeOut();
    }

    /** One spawn tick (`createParticles`): a no-op when inactive; otherwise three new
        particles, the pool trimmed to its newest 100, the intensity raised, and the next
        tick scheduled. */
    method CreateParticles(draws: seq<Draw>, viewWidth: int, viewHeight: int)
      requires Valid()
      requires |draws| == BatchSize && ValidDraws(draws)
      modifies this
      ensures Valid()
      ensures isActive == old(isActive) && animating == old(animating) && fadeFrames == old(fadeFrames)
      ensures !isActive ==> particles == old(particles) && intensity == old(intensity) && spawnTimers == old(spawnTimers)
      ensures isActive ==> particles == SpawnPool(old(particles), draws, viewWidth, viewHeight)
      ensures isActive ==> intensity == RaiseIntensity(old(intensity)) && spawnTimers == old(spawnTimers) + 1
    {
      if !isActive {
        return;
      }
      PushBatch(draws, viewWidth, viewHeight);
      if |particles| > MaxParticles {
        particles := particles[|particles| - MaxParticles..];
      }
      assert particles == SpawnPool(old(particles), draws, viewWidth, viewHeight);
      SpawnPoolWellFormed(old(particles), draws, viewWidth, viewHeight);
      RaiseIntensityKeepsSteps(intensity);
      if intensity < FullIntensity {
        intensity := intensity + IntensityStep;
      }
      spawnTimers := spawnTimers + 1;
    }

    /** The spawning loop of `createParticles`: the batch is pushed onto the pool in order. */
    method PushBatch(draws: seq<Draw>, viewWidth: int, viewHeight: int)
      requires ValidDraws(draws)
      modifies this
      ensures particles == old(particles) + Spawned(draws, viewWidth, viewHeight)
      ensures isActive == old(isActive) && intensity == old(intensity) && spawnTimers == old(spawnTimers)
      ensures animating == old(animating) && fadeFrames == old(fadeFrames)
    {
      var i := 0;
      while i < |draws|
        invariant 0 <= i <= |draws|
        invariant particles == old(particles) + Spawned(draws[..i], viewWidth, viewHeight)
        invariant isActive == old(isActive) && intensity == old(intensity) && spawnTimers == old(spawnTimers)
        invariant animating == old(animating) && fadeFrames == old(fadeFrames)
      {
        SpawnedSnoc(old(particles), draws, i, viewWidth, viewHeight);
        particles := particles + [Spawn(draws[i], viewWidth, viewHeight)];
        i := i + 1;
      }
      assert draws[..i] == draws;
    }

    /** A pending spawn timer fires: it is consumed, and `createParticles` runs. Once the
        smoke is stopped, each pending timer fires once more and schedules nothing. */
    method SpawnTimerFires(draws: seq<Draw>, viewWidth: int, viewHeight: int)
      requires Valid() && spawnTimers > 0
      requires |draws| == BatchSize && ValidDraws(draws)
      modifies this
      ensures Valid()
      ensures isActive == old(isActive) && animating == old(animating) && fadeFrames == old(fadeFrames)
      ensures !isActive ==> spawnTimers == old(spawnTimers) - 1 && particles == old(particles) && intensity == old(intensity)
      ensures isActive ==> spawnTimers == old(spawnTimers) && particles == SpawnPool(old(particles), draws, viewWidth, viewHeight)
      ensures isActive ==> intensity == RaiseIntensity(old(intensity))
    {
      spawnTimers := spawnTimers - 1;
      CreateParticles(draws, viewWidth, viewHeight);
    }

    /** One running frame (`animate`): every particle moves, drifts and ages by 0.005; dead
        ones are dropped; the survivors are painted at `alpha * life * intensity`. */
    method Animate(drifts: seq<int>) returns (drawn: seq<int>)
      requires Valid()
      requires |drifts| >= |particles| && ValidDrifts(drifts)
      modifies this
      ensures Valid()
      ensures particles == RunningFrame(old(particles), drifts)
      ensures drawn == Drawn(particles, intensity)
      ensures animating
      ensures isActive == old(isActive) && intensity == old(intensity)
      ensures spawnTimers == old(spawnTimers) && fadeFrames == old(fadeFrames)
    {
      var kept;
      kept, drawn := AdvanceAll(particles, drifts, intensity);
      RunningFrameProperties(particles, drifts);
      particles := kept;
      animating := true;
    }

    /** One fade-out frame (`fadeOut`). When the intensity is 0 and the pool empty it cancels
        the frame loop and reschedules nothing; otherwise it lowers the intensity (never below
        0), ages every particle by 0.01 without drift, drops dead ones, paints the rest and
        requests the next fade-out frame. */
    method FadeOut() returns (drawn: seq<int>, rescheduled: bool)
      requires Valid()
      modifies this
      ensures Valid()
      ensures rescheduled <==> !(old(intensity) <= 0 && old(particles) == [])
      ensures rescheduled ==> particles == FadeFrame(old(particles)) && intensity == LowerIntensity(old(intensity))
      ensures rescheduled ==> drawn == Drawn(particles, intensity) && animating == old(animating)
      ensures !rescheduled ==> particles == [] && intensity == 0 && drawn == [] && !animating
      ensures fadeFrames == old(fadeFrames) + (if rescheduled then 1 else 0)
      ensures isActive == old(isActive) && spawnTimers == old(spawnTimers)
    {
      if intensity <= 0 && particles == [] {
        animating := false;
        drawn := [];
        rescheduled := false;
        return;
      }
      intensity := LowerIntensity(intensity);
      var kept;
      kept, drawn := FadeAll(particles, intensity);
      FadeFrameLowers(particles, FullLife);
      particles := kept;
      fadeFrames := fadeFrames + 1;
      rescheduled := true;
    }

    /** A pending fade-out frame fires. */
    method FadeFrameFires() returns (drawn: seq<int>, rescheduled: bool)
      requires Valid() && fadeFrames > 0
      modifies this
      ensures Valid()
      ensures rescheduled <==> !(old(intensity) <= 0 && old(particles) == [])
      ensures rescheduled ==> particles == FadeFrame(old(particles)) && intensity == LowerIntensity(old(intensity))
      ensures rescheduled ==> drawn == Drawn(particles, intensity) && animating == old(animating)
      ensures !rescheduled ==> particles == [] && intensity == 0 && drawn == [] && !animating
      ensures fadeFrames == old(fadeFrames) - (if rescheduled then 0 else 1)
      ensures isActive == old(isActive) && spawnTimers == old(spawnTimers)
    {
      fadeFrames := fadeFrames - 1;
      drawn, rescheduled := FadeOut();
    }

    /** Runs the fade-out frame loop until it stops rescheduling itself. It always stops:
        at most 100 frames paint and age particles, after which the pool is empty, the
        intensity is 0 and the frame loops are cancelled. */
    method RunFadeOutToEnd() returns (frames: nat)
      requires Valid()
      modifies this
      ensures Valid()
      ensures fadeFrames == 0 && frames <= FullLife / FadeDecay
      ensures old(fadeFrames) > 0 ==> particles == [] && intensity == 0 && !animating
      ensures isActive == old(isActive) && spawnTimers == old(spawnTimers)
    {
      frames := 0;
      while fadeFrames > 0
        invariant Valid()
        invariant isActive == old(isActive) && spawnTimers == old(spawnTimers)
        invariant frames <= FullLife / FadeDecay
        invariant forall p :: p in particles ==> p.life <= FullLife - FadeDecay * frames
        invariant intensity == 0 || intensity <= FullIntensity - IntensityStep * frames
        invariant old(fadeFrames) > 0 && fadeFrames == 0 ==> particles == [] && intensity == 0 && !animating
        decreases FullLife / FadeDecay - frames, fadeFrames
      {
        ghost var before := particles;
        if before != [] {
          assert before[0] in before;
        }
        var drawn, again := FadeFrameFires();
        if again {
          FadeFrameLowers(before, FullLife - FadeDecay * frames);
          frames := frames + 1;
        }
      }
    }
  }
}
