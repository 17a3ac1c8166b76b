/**
 * The fireworks button: a show that a click starts or stops, that a one-second countdown ends,
 * that launch attempts feed with rockets, and that the animation loop moves frame by frame.
 * Rockets climb until they reach their target height and burst into 80 sparks; sparks fall,
 * slow down and burn out.
 *
 * Timers, animation frames and `Math.random` are not run here: every timer expiry is an event
 * method, and every random draw is a parameter with the range `Math.random` gives it.
 */
module FireworksButton {
  import opened Wrappers
  import opened Types
  import opened Text
  import opened Reals

  /** The ten rocket colours. */
  const Colors: seq<string> := [
    "#ff0000", "#ff6600", "#ffff00", "#00ff00", "#00ffff",
    "#0066ff", "#9933ff", "#ff00ff", "#ff3399", "#ffcc00"
  ]
  /** Sparks per explosion. */
  const ParticleCount: nat := 80
  /** How far a rocket climbs each frame (canvas y grows downwards). */
  const Ascent: real := 8.0
  /** Added to a spark's vertical speed each frame. */
  const Gravity: real := 0.15
  /** A spark's horizontal speed is multiplied by this each frame. */
  const AirDrag: real := 0.98
  /** A launch attempt fires only when its draw is above this. */
  const LaunchThreshold: real := 0.3
  /** The staggered launches of one burst are this many milliseconds apart. */
  const BurstSpacing: nat := 100

  datatype Firework = Firework(x: real, y: real, targetY: real, color: string, exploded: bool)

  datatype Particle = Particle(
    x: real, y: real, vx: real, vy: real, color: string, size: real, life: real, maxLife: real)

  /** The canvas's pixel size (the window's inner size). */
  datatype Canvas = Canvas(width: nat, height: nat)

  /** A `Math.random()` result. */
  predicate Unit(r: real) { 0.0 <= r < 1.0 }

  /** A cosine or sine value. */
  predicate Trig(c: real) { -1.0 <= c <= 1.0 }

  /** The three draws of one rocket: horizontal position, target height and colour. */
  datatype LaunchDraw = LaunchDraw(x: real, target: real, color: real)

  predicate ValidLaunch(d: LaunchDraw) { Unit(d.x) && Unit(d.target) && Unit(d.color) }

  /**
   * The draws of one spark: the cosine and sine of its angle (spread evenly round the circle
   * with a small random jitter), and the speed, life and size draws.
   */
  datatype SparkDraw = SparkDraw(cos: real, sin: real, speed: real, life: real, size: real)

  predicate ValidSpark(d: SparkDraw)
  {
    Trig(d.cos) && Trig(d.sin) && Unit(d.speed) && Unit(d.life) && Unit(d.size)
  }

  /** Draws for a whole explosion. */
  predicate ValidBurst(draws: seq<SparkDraw>)
  {
    |draws| == ParticleCount && forall i :: 0 <= i < |draws| ==> ValidSpark(draws[i])
  }

  /** One explosion's draws for every rocket of the frame (only the bursting rockets use theirs). */
  predicate ValidFrameDraws(fireworks: seq<Firework>, draws: seq<seq<SparkDraw>>)
  {
    |draws| == |fireworks| && forall i :: 0 <= i < |draws| ==> ValidBurst(draws[i])
  }

  // ---------------------------------------------------------------------------------------
  // Launching

  /** `Math.floor(r * COLORS.length)`: always a valid index. */
  function ColorIndex(r: real): (i: nat)
    requires Unit(r)
    ensures i < |Colors|
  {
    (r * 10.0).Floor
  }

  /** `createFirework` once a canvas exists: a rocket at the bottom edge aiming for the top part. */
  function NewFirework(canvas: Canvas, d: LaunchDraw): Firework
    requires ValidLaunch(d)
  {
    Firework(
      Scale(d.x, canvas.width as real),
      canvas.height as real,
      100.0 + Scale(d.target, canvas.height as real * 0.3),
      Colors[ColorIndex(d.color)],
      false)
  }

  /** `createFirework`: without a canvas nothing happens, otherwise one rocket is pushed. */
  function Create(fireworks: seq<Firework>, canvas: Option<Canvas>, d: LaunchDraw): seq<Firework>
    requires ValidLaunch(d)
  {
    if canvas.None? then fireworks else fireworks + [NewFirework(canvas.value, d)]
  }

  /** `launchFirework`: `createFirework` runs only when the draw beats 0.3. */
  function LaunchAttempt(fireworks: seq<Firework>, canvas: Option<Canvas>, chance: real, d: LaunchDraw): seq<Firework>
    requires ValidLaunch(d)
  {
    if chance > LaunchThreshold then Create(fireworks, canvas, d) else fireworks
  }

  /** A new rocket starts on the bottom edge, inside the canvas, aiming between 100 and 100 + 0.3 height. */
  lemma NewFireworkPlacement(canvas: Canvas, d: LaunchDraw)
    requires ValidLaunch(d)
    ensures var f := NewFirework(canvas, d);
      && f.y == canvas.height as real
      && 0.0 <= f.x <= canvas.width as real
      && 100.0 <= f.targetY <= 100.0 + (canvas.height as real) * 0.3
      && (canvas.height > 0 ==> f.targetY < 100.0 + (canvas.height as real) * 0.3)
      && f.color in Colors
      && !f.exploded
  {
  }

  /** A launch attempt adds at most one rocket, at the end, exactly when the draw beats 0.3 and a canvas exists. */
  lemma LaunchAddsAtMostOne(fireworks: seq<Firework>, canvas: Option<Canvas>, chance: real, d: LaunchDraw)
    requires ValidLaunch(d)
    ensures var r := LaunchAttempt(fireworks, canvas, chance, d);
      && r[..|fireworks|] == fireworks
      && (|r| == |fireworks| + 1 <==> chance > LaunchThreshold && canvas.Some?)
      && (|r| == |fireworks| <==> !(chance > LaunchThreshold && canvas.Some?))
      && (|r| == |fireworks| + 1 ==> r[|fireworks|] == NewFirework(canvas.value, d))
  {
  }

  // ---------------------------------------------------------------------------------------
  // Exploding

  /** One spark of an explosion: at the rocket's target point, in the rocket's colour. */
  function Spark(fw: Firework, d: SparkDraw): Particle
  {
    var velocity := 2.0 + d.speed * 4.0;
    var life := 50.0 + d.life * 40.0;
    Particle(fw.x, fw.targetY, d.cos * velocity, d.sin * velocity, fw.color, 2.0 + d.size * 3.0, life, life)
  }

  /** The sparks `explodeFirework` pushes, one per draw, in order. */
  function Sparks(fw: Firework, draws: seq<SparkDraw>): seq<Particle>
  {
    if draws == [] then [] else Sparks(fw, draws[..|draws| - 1]) + [Spark(fw, draws[|draws| - 1])]
  }

  /** The push loop of `explodeFirework`. */
  method ExplodeFirework(fw: Firework, draws: seq<SparkDraw>) returns (sparks: seq<Particle>)
    requires |draws| == ParticleCount
    ensures sparks == Sparks(fw, draws)
  {
    sparks := [];
    var i := 0;
    while i < ParticleCount
      invariant 0 <= i <= ParticleCount
      invariant sparks == Sparks(fw, draws[..i])
    {
      assert draws[..i + 1][..i] == draws[..i];
      sparks := sparks + [Spark(fw, draws[i])];
      i := i + 1;
    }
    assert draws[..ParticleCount] == draws;
  }

  /** Spark i comes from draw i. */
  lemma {:induction false} SparksIndexed(fw: Firework, draws: seq<SparkDraw>)
    ensures |Sparks(fw, draws)| == |draws|
    ensures forall i :: 0 <= i < |draws| ==> Sparks(fw, draws)[i] == Spark(fw, draws[i])
  {
    if draws != [] {
      SparksIndexed(fw, draws[..|draws| - 1]);
    }
  }

  /** A spark starts with full life, between 50 and 90, and size between 2 and 5. */
  predicate FreshSpark(p: Particle)
  {
    p.life == p.maxLife && 50.0 <= p.maxLife < 90.0 && 2.0 <= p.size < 5.0
  }

  lemma SparkIsFresh(fw: Firework, d: SparkDraw)
    requires ValidSpark(d)
    ensures FreshSpark(Spark(fw, d))
  {
  }

  /** An explosion makes exactly 80 fresh sparks at the rocket's (x, targetY), in its colour. */
  lemma ExplosionShape(fw: Firework, draws: seq<SparkDraw>)
    requires ValidBurst(draws)
    ensures var sparks := Sparks(fw, draws);
      && |sparks| == ParticleCount
      && forall i :: 0 <= i < |sparks| ==>
           && sparks[i].x == fw.x && sparks[i].y == fw.targetY && sparks[i].color == fw.color
           && FreshSpark(sparks[i])
  {
    SparksIndexed(fw, draws);
    forall i | 0 <= i < |draws|
      ensures FreshSpark(Sparks(fw, draws)[i])
    {
      SparkIsFresh(fw, draws[i]);
    }
  }

  // ---------------------------------------------------------------------------------------
  // Rockets in a frame

  /** `fw.y -= 8`. */
  function Ascend(fw: Firework): Firework
  {
    fw.(y := fw.y - Ascent)
  }

  /** A rocket that reaches its target height this frame. */
  predicate Bursts(fw: Firework)
  {
    !fw.exploded && Ascend(fw).y <= fw.targetY
  }

  /** A rocket that is still climbing after this frame. */
  predicate Climbs(fw: Firework)
  {
    !fw.exploded && Ascend(fw).y > fw.targetY
  }

  /** What a frame makes of the rockets: the ones still climbing, and the sparks of the rest. */
  datatype Outcome = Outcome(kept: seq<Firework>, sparks: seq<Particle>)

  /**
   * The rocket filter of `animate`: exploded rockets are dropped, the others climb 8; one that
   * reaches its target is dropped and its sparks are pushed, the rest are kept. The result is
   * the kept rockets and the sparks, in order.
   */
  function Advance(fireworks: seq<Firework>, draws: seq<seq<SparkDraw>>): Outcome
    requires |draws| == |fireworks|
  {
    if fireworks == [] then Outcome([], [])
    else
      var n := |fireworks| - 1;
      var front := Advance(fireworks[..n], draws[..n]);
      var fw := fireworks[n];
      if fw.exploded then front
      else if Ascend(fw).y <= fw.targetY then front.(sparks := front.sparks + Sparks(Ascend(fw), draws[n]))
      else front.(kept := front.kept + [Ascend(fw)])
  }

  /** Advance with its last rocket split off. */
  lemma AdvanceLast(fireworks: seq<Firework>, draws: seq<seq<SparkDraw>>)
    requires |draws| == |fireworks| && fireworks != []
    ensures var n := |fireworks| - 1;
      var front := Advance(fireworks[..n], draws[..n]);
      var fw := fireworks[n];
      var r := Advance(fireworks, draws);
      && (Climbs(fw) ==> r == Outcome(front.kept + [Ascend(fw)], front.sparks))
      && (Bursts(fw) ==> r == Outcome(front.kept, front.sparks + Sparks(Ascend(fw), draws[n])))
      && (fw.exploded ==> r == front)
  {
  }

  /** The loop of the rocket filter, with `explodeFirework` called on each bursting rocket. */
  method AdvanceFireworks(fireworks: seq<Firework>, draws: seq<seq<SparkDraw>>)
    returns (kept: seq<Firework>, sparks: seq<Particle>)
    requires ValidFrameDraws(fireworks, draws)
    ensures Outcome(kept, sparks) == Advance(fireworks, draws)
  {
    kept, sparks := [], [];
    var i := 0;
    while i < |fireworks|
      invariant 0 <= i <= |fireworks|
      invariant Outcome(kept, sparks) == Advance(fireworks[..i], draws[..i])
    {
      assert fireworks[..i + 1][..i] == fireworks[..i];
      assert draws[..i + 1][..i] == draws[..i];
      var fw := fireworks[i];
      if !fw.exploded {
        fw := fw.(y := fw.y - Ascent);
        if fw.y <= fw.targetY {
          var burst := ExplodeFirework(fw, draws[i]);
          sparks := sparks + burst;
        } else {
          kept := kept + [fw];
        }
      }
      i := i + 1;
    }
    assert fireworks[..i] == fireworks;
    assert draws[..i] == draws;
  }

  /** Number of rockets in the list that burst this frame. */
  function BurstCount(fireworks: seq<Firework>): nat
  {
    if fireworks == [] then 0
    else BurstCount(fireworks[..|fireworks| - 1]) + (if Bursts(fireworks[|fireworks| - 1]) then 1 else 0)
  }

  /**
   * Conservation: with no exploded rocket in the list, every rocket is either kept or turned
   * into exactly 80 sparks.
   */
  lemma {:induction false} AdvanceConserves(fireworks: seq<Firework>, draws: seq<seq<SparkDraw>>)
    requires ValidFrameDraws(fireworks, draws)
    requires forall i :: 0 <= i < |fireworks| ==> !fireworks[i].exploded
    ensures var r := Advance(fireworks, draws);
      && |r.kept| + BurstCount(fireworks) == |fireworks|
      && |r.sparks| == ParticleCount * BurstCount(fireworks)
  {
    if fireworks != [] {
      var n := |fireworks| - 1;
      AdvanceConserves(fireworks[..n], draws[..n]);
      AdvanceLast(fireworks, draws);
      SparksIndexed(Ascend(fireworks[n]), draws[n]);
    }
  }

  /** The kept rockets are exactly the climbing ones, each 8 higher than before. */
  lemma {:induction false} AdvanceKeepsClimbers(fireworks: seq<Firework>, draws: seq<seq<SparkDraw>>)
    requires |draws| == |fireworks|
    ensures var kept := Advance(fireworks, draws).kept;
      forall f :: f in kept <==> exists i :: 0 <= i < |fireworks| && Climbs(fireworks[i]) && f == Ascend(fireworks[i])
  {
    if fireworks != [] {
      var n := |fireworks| - 1;
      AdvanceKeepsClimbers(fireworks[..n], draws[..n]);
      AdvanceLast(fireworks, draws);
      var kept := Advance(fireworks, draws).kept;
      var front := Advance(fireworks[..n], draws[..n]).kept;
      forall f | f in kept
        ensures exists i :: 0 <= i < |fireworks| && Climbs(fireworks[i]) && f == Ascend(fireworks[i])
      {
        if f in front {
          var i :| 0 <= i < n && Climbs(fireworks[..n][i]) && f == Ascend(fireworks[..n][i]);
          assert fireworks[..n][i] == fireworks[i];
        } else {
          assert f == Ascend(fireworks[n]);
        }
      }
      forall i | 0 <= i < |fireworks| && Climbs(fireworks[i])
        ensures Ascend(fireworks[i]) in kept
      {
        if i < n {
          assert fireworks[..n][i] == fireworks[i];
        }
      }
    }
  }

  /** Every spark of a frame is fresh when the frame's draws are valid. */
  lemma {:induction false} AdvanceSparksFresh(fireworks: seq<Firework>, draws: seq<seq<SparkDraw>>)
    requires ValidFrameDraws(fireworks, draws)
    ensures forall i :: 0 <= i < |Advance(fireworks, draws).sparks| ==> FreshSpark(Advance(fireworks, draws).sparks[i])
  {
    if fireworks != [] {
      var n := |fireworks| - 1;
      AdvanceSparksFresh(fireworks[..n], draws[..n]);
      AdvanceLast(fireworks, draws);
      ExplosionShape(Ascend(fireworks[n]), draws[n]);
    }
  }

  /** Every kept rocket is still unexploded. */
  lemma {:induction false} AdvanceKeepsUnexploded(fireworks: seq<Firework>, draws: seq<seq<SparkDraw>>)
    requires |draws| == |fireworks|
    ensures forall i :: 0 <= i < |Advance(fireworks, draws).kept| ==> !Advance(fireworks, draws).kept[i].exploded
  {
    if fireworks != [] {
      var n := |fireworks| - 1;
      AdvanceKeepsUnexploded(fireworks[..n], draws[..n]);
      AdvanceLast(fireworks, draws);
    }
  }

  // ---------------------------------------------------------------------------------------
  // Sparks in a frame

  /** One frame of a spark: move by the old velocity, then gravity, drag and one life less. */
  function Step(p: Particle): Particle
  {
    p.(x := p.x + p.vx, y := p.y + p.vy, vy := p.vy + Gravity, vx := p.vx * AirDrag, life := p.life - 1.0)
  }

  /** The spark filter of `animate`: every spark steps, and the ones whose life is spent are dropped. */
  function Age(particles: seq<Particle>): seq<Particle>
  {
    if particles == [] then []
    else
      var q := Step(particles[|particles| - 1]);
      Age(particles[..|particles| - 1]) + (if q.life <= 0.0 then [] else [q])
  }

  /** The loop of the spark filter. */
  method AgeParticles(particles: seq<Particle>) returns (alive: seq<Particle>)
    ensures alive == Age(particles)
  {
    alive := [];
    var i := 0;
    while i < |particles|
      invariant 0 <= i <= |particles|
      invariant alive == Age(particles[..i])
    {
      assert particles[..i + 1][..i] == particles[..i];
      var p := particles[i];
      p := p.(x := p.x + p.vx, y := p.y + p.vy);
      p := p.(vy := p.vy + Gravity);
      p := p.(vx := p.vx * AirDrag);
      p := p.(life := p.life - 1.0);
      if !(p.life <= 0.0) {
        alive := alive + [p];
      }
      i := i + 1;
    }
    assert particles[..i] == particles;
  }

  /**
   * A spark survives the frame iff its life was above 1; the survivors are the stepped sparks,
   * in order.
   */
  lemma {:induction false} AgeSurvivors(particles: seq<Particle>)
    ensures |Age(particles)| <= |particles|
    ensures forall i :: 0 <= i < |particles| && particles[i].life > 1.0 ==> Step(particles[i]) in Age(particles)
    ensures forall q :: q in Age(particles) ==> q.life > 0.0 && exists i :: 0 <= i < |particles| && q == Step(particles[i])
  {
    if particles != [] {
      var n := |particles| - 1;
      AgeSurvivors(particles[..n]);
      forall i | 0 <= i < |particles| && particles[i].life > 1.0
        ensures Step(particles[i]) in Age(particles)
      {
        if i < n {
          assert particles[..n][i] == particles[i];
        }
      }
      forall q | q in Age(particles)
        ensures exists i :: 0 <= i < |particles| && q == Step(particles[i])
      {
        if q in Age(particles[..n]) {
          var i :| 0 <= i < n && q == Step(particles[..n][i]);
          assert particles[..n][i] == particles[i];
        } else {
          assert q == Step(particles[n]);
        }
      }
    }
  }

  /** A spark in flight: some life left, never more than it started with, which was below 90. */
  predicate Alive(p: Particle)
  {
    0.0 < p.life <= p.maxLife && 50.0 <= p.maxLife < 90.0
  }

  /** The opacity a spark is drawn with. */
  function Opacity(p: Particle): real
    requires Alive(p)
  {
    p.life / p.maxLife
  }

  /** A fresh spark is alive. */
  lemma FreshIsAlive(p: Particle)
    requires FreshSpark(p)
    ensures Alive(p)
  {
  }

  /** Survivors of a frame are alive and below full life. */
  lemma {:induction false} AgeKeepsAlive(particles: seq<Particle>)
    requires forall i :: 0 <= i < |particles| ==> Alive(particles[i])
    ensures forall i :: 0 <= i < |Age(particles)| ==> Alive(Age(particles)[i])
    ensures forall i :: 0 <= i < |Age(particles)| ==> Age(particles)[i].life < Age(particles)[i].maxLife
  {
    if particles != [] {
      var n := |particles| - 1;
      AgeKeepsAlive(particles[..n]);
    }
  }

  /** A spark below full life is drawn with an opacity strictly between 0 and 1. */
  lemma OpacityBetween(p: Particle)
    requires Alive(p) && p.life < p.maxLife
    ensures 0.0 < Opacity(p) < 1.0
  {
    RatioBetween(p.life, p.maxLife);
  }

  /** A frame lowers the largest life by one. */
  lemma {:induction false} AgeLowersLife(particles: seq<Particle>, bound: real)
    requires forall i :: 0 <= i < |particles| ==> particles[i].life <= bound
    ensures forall i :: 0 <= i < |Age(particles)| ==> Age(particles)[i].life <= bound - 1.0
  {
    if particles != [] {
      AgeLowersLife(particles[..|particles| - 1], bound);
    }
  }

  /** n frames of the spark filter with no new sparks. */
  function AgeFrames(particles: seq<Particle>, n: nat): seq<Particle>
    decreases n
  {
    if n == 0 then particles else AgeFrames(Age(particles), n - 1)
  }

  /** Sparks with at most one life left are all dropped by the next frame. */
  lemma {:induction false} AgeSpent(particles: seq<Particle>)
    requires forall i :: 0 <= i < |particles| ==> particles[i].life <= 1.0
    ensures Age(particles) == []
  {
    if particles != [] {
      AgeSpent(particles[..|particles| - 1]);
    }
  }

  /** With no new sparks, sparks whose life is at most n (n >= 1) are all gone after n frames. */
  lemma {:induction false} SparksBurnOut(particles: seq<Particle>, n: nat)
    requires 1 <= n
    requires forall i :: 0 <= i < |particles| ==> particles[i].life <= n as real
    ensures AgeFrames(particles, n) == []
    decreases n
  {
    if n == 1 {
      AgeSpent(particles);
    } else {
      AgeLowersLife(particles, n as real);
      SparksBurnOut(Age(particles), n - 1);
    }
  }

  // ---------------------------------------------------------------------------------------
  // The show

  /**
   * What the component keeps between events: `isActive`, `timeRemaining`, the rocket and
   * spark lists, whether the countdown interval, the burst interval and an animation frame are
   * pending, the number of handles in `timeoutsRef`, the delays of the staggered launches still
   * waiting to fire, and every value sent to `onActiveChange`, in order.
   */
  datatype Show = Show(
    active: bool, remaining: nat,
    fireworks: seq<Firework>, particles: seq<Particle>,
    countdownSet: bool, burstSet: bool, frameSet: bool,
    timeouts: nat, pending: seq<nat>, notified: seq<bool>)

  const Initial: Show := Show(false, 0, [], [], false, false, false, 0, [], [])

  /**
   * What holds between events: `timeoutsRef` stays empty, both intervals run exactly while the
   * show is active, no listed rocket is exploded and every listed spark is alive.
   */
  predicate Inv(s: Show)
  {
    && s.timeouts == 0
    && s.countdownSet == s.active && s.burstSet == s.active
    && (forall i :: 0 <= i < |s.fireworks| ==> !s.fireworks[i].exploded)
    && (forall i :: 0 <= i < |s.particles| ==> Alive(s.particles[i]))
  }

  /**
   * `stopFireworks`: inactive, no time left, `false` notified (whether or not the show was
   * running), `timeoutsRef` emptied, both intervals and the animation frame cancelled, both
   * lists emptied. The staggered launches are not in `timeoutsRef`, so they stay pending.
   */
  function Stop(s: Show): Show
  {
    s.(active := false, remaining := 0, notified := s.notified + [false], timeouts := 0,
       countdownSet := false, burstSet := false, frameSet := false, fireworks := [], particles := [])
  }

  /** A launch attempt on the show. */
  function Launch(s: Show, canvas: Option<Canvas>, chance: real, d: LaunchDraw): Show
    requires ValidLaunch(d)
  {
    s.(fireworks := LaunchAttempt(s.fireworks, canvas, chance, d))
  }

  /**
   * The start branch of `handleClick`: active, the whole duration on the clock, `true`
   * notified, both intervals set, the animation frame requested by the effect that watches
   * `isActive`, and one immediate launch attempt.
   */
  function Start(s: Show, durationMinutes: nat, canvas: Option<Canvas>, chance: real, d: LaunchDraw): Show
    requires ValidLaunch(d)
  {
    var started := s.(active := true, remaining := durationMinutes * 60, notified := s.notified + [true],
                      countdownSet := true, burstSet := true, frameSet := true);
    Launch(started, canvas, chance, d)
  }

  /** `handleClick`: ignored outside the formed tree, a stop while active, a start otherwise. */
  function Click(s: Show, mode: TreeMode, durationMinutes: nat, canvas: Option<Canvas>, chance: real, d: LaunchDraw): Show
    requires ValidLaunch(d)
  {
    if mode != Formed then s
    else if s.active then Stop(s)
    else Start(s, durationMinutes, canvas, chance, d)
  }

  /** One expiry of the one-second countdown interval: at one second or less it stops the show. */
  function Tick(s: Show): Show
  {
    if !s.countdownSet then s
    else if s.remaining <= 1 then Stop(s).(remaining := 0)
    else s.(remaining := s.remaining - 1)
  }

  /** `1 + Math.floor(Math.random() * 3)`. */
  function BurstSize(r: real): (k: nat)
    requires Unit(r)
    ensures 1 <= k <= 3
  {
    1 + (r * 3.0).Floor
  }

  /** The delays `i * 100` of the k staggered launches of one burst. */
  function BurstDelays(k: nat): seq<nat>
  {
    seq(k, i => i * BurstSpacing)
  }

  /** One expiry of the 600 ms burst interval: 1 to 3 launches are scheduled, none stored in `timeoutsRef`. */
  function Burst(s: Show, r: real): Show
    requires Unit(r)
  {
    if !s.burstSet then s else s.(pending := s.pending + BurstDelays(BurstSize(r)))
  }

  /** Staggered launch j fires: it leaves the waiting list and makes a launch attempt, active or not. */
  function Staggered(s: Show, j: nat, canvas: Option<Canvas>, chance: real, d: LaunchDraw): Show
    requires j < |s.pending| && ValidLaunch(d)
  {
    Launch(s.(pending := s.pending[..j] + s.pending[j + 1..]), canvas, chance, d)
  }

  /**
   * One run of `animate`, when a frame is pending. Without a canvas it returns and requests no
   * further frame. Otherwise rockets climb and burst, all sparks (the new ones included) age,
   * and another frame is requested while the show is active or anything is left to draw.
   */
  function Frame(s: Show, canvas: Option<Canvas>, draws: seq<seq<SparkDraw>>): Show
    requires ValidFrameDraws(s.fireworks, draws)
  {
    if !s.frameSet then s
    else if canvas.None? then s.(frameSet := false)
    else
      var r := Advance(s.fireworks, draws);
      var ps := Age(s.particles + r.sparks);
      s.(fireworks := r.kept, particles := ps, frameSet := s.active || |r.kept| > 0 || |ps| > 0)
  }

  // Properties of the show

  lemma InitialInv()
    ensures Inv(Initial) && !Initial.active && Initial.notified == []
  {
  }

  /** Outside the formed tree a click changes nothing and notifies nothing. */
  lemma ClickOutsideFormed(s: Show, durationMinutes: nat, canvas: Option<Canvas>, chance: real, d: LaunchDraw)
    requires ValidLaunch(d)
    ensures Click(s, Chaos, durationMinutes, canvas, chance, d) == s
  {
  }

  /** A click on a running show stops it. */
  lemma ClickWhileActiveStops(s: Show, durationMinutes: nat, canvas: Option<Canvas>, chance: real, d: LaunchDraw)
    requires ValidLaunch(d) && s.active
    ensures var t := Click(s, Formed, durationMinutes, canvas, chance, d);
      && !t.active && t.remaining == 0 && t.fireworks == [] && t.particles == []
      && !t.countdownSet && !t.burstSet && !t.frameSet
      && t.notified == s.notified + [false]
  {
  }

  /**
   * A click on a stopped show starts it: active, duration * 60 seconds on the clock, `true`
   * notified once, intervals set, sparks untouched, and at most one rocket added by the
   * immediate launch attempt.
   */
  lemma ClickWhileInactiveStarts(s: Show, durationMinutes: nat, canvas: Option<Canvas>, chance: real, d: LaunchDraw)
    requires ValidLaunch(d) && !s.active
    ensures var t := Click(s, Formed, durationMinutes, canvas, chance, d);
      && t.active && t.remaining == durationMinutes * 60
      && t.notified == s.notified + [true]
      && t.countdownSet && t.burstSet && t.frameSet
      && t.particles == s.particles && t.pending == s.pending
      && t.fireworks[..|s.fireworks|] == s.fireworks
      && (|t.fireworks| == |s.fireworks| + 1 <==> chance > LaunchThreshold && canvas.Some?)
      && (|t.fireworks| == |s.fireworks| <==> !(chance > LaunchThreshold && canvas.Some?))
  {
    LaunchAddsAtMostOne(s.fireworks, canvas, chance, d);
  }

  /** A second stop has the same effect as the first, except that it notifies `false` again. */
  lemma SecondStopNotifiesAgain(s: Show)
    ensures Stop(Stop(s)) == Stop(s).(notified := s.notified + [false, false])
  {
  }

  /** k countdown ticks. */
  function Ticks(s: Show, k: nat): Show
  {
    if k == 0 then s else Tick(Ticks(s, k - 1))
  }

  /** Before the clock reaches one second, each tick takes exactly one second off and nothing else. */
  lemma {:induction false} TicksCountDown(s: Show, k: nat)
    requires s.countdownSet && k < s.remaining
    ensures Ticks(s, k) == s.(remaining := s.remaining - k)
  {
    if k > 0 {
      TicksCountDown(s, k - 1);
    }
  }

  /**
   * With n seconds on a running countdown (n >= 1), the show is still active after each of the
   * first n - 1 ticks, and the n-th tick stops it with the clock at 0 and one `false` notified.
   */
  lemma CountdownRunsOut(s: Show, n: nat)
    requires Inv(s) && s.active && s.remaining == n && 1 <= n
    ensures forall k :: 0 <= k < n ==> Ticks(s, k).active && Ticks(s, k).remaining == n - k
    ensures !Ticks(s, n).active && Ticks(s, n).remaining == 0
    ensures Ticks(s, n).notified == s.notified + [false]
    ensures Ticks(s, n).fireworks == [] && Ticks(s, n).particles == []
  {
    forall k | 0 <= k < n
      ensures Ticks(s, k).active && Ticks(s, k).remaining == n - k
    {
      TicksCountDown(s, k);
    }
    TicksCountDown(s, n - 1);
  }

  /** A burst schedules one to three launches at 0, 100 and 200 ms after the earlier ones. */
  lemma BurstSchedules(s: Show, r: real)
    requires Unit(r) && s.burstSet
    ensures var t := Burst(s, r);
      && 1 <= |t.pending| - |s.pending| <= 3
      && t.pending[..|s.pending|] == s.pending
      && (forall i :: |s.pending| <= i < |t.pending| ==> t.pending[i] == (i - |s.pending|) * BurstSpacing)
      && t.timeouts == s.timeouts
      && t.fireworks == s.fireworks
  {
  }

  /**
   * Stop does not cancel a waiting staggered launch: when it fires afterwards it still adds a
   * rocket, although the show is inactive, and no frame will move it until the next start.
   */
  lemma StopLeavesStaggeredLaunches(s: Show, j: nat, canvas: Canvas, chance: real, d: LaunchDraw)
    requires j < |s.pending| && ValidLaunch(d) && chance > LaunchThreshold
    ensures var t := Staggered(Stop(s), j, Some(canvas), chance, d);
      && !t.active && !t.frameSet
      && t.fireworks == [NewFirework(canvas, d)]
      && |t.pending| == |s.pending| - 1
  {
  }

  /**
   * A frame on a pending animation frame with a canvas: every unexploded rocket is either kept
   * (8 higher) or replaced by 80 sparks, and the spark list holds at most the old sparks plus
   * the new ones.
   */
  lemma FrameConserves(s: Show, canvas: Canvas, draws: seq<seq<SparkDraw>>)
    requires Inv(s) && s.frameSet && ValidFrameDraws(s.fireworks, draws)
    ensures var t := Frame(s, Some(canvas), draws);
      && |t.fireworks| + BurstCount(s.fireworks) == |s.fireworks|
      && |t.particles| <= |s.particles| + ParticleCount * BurstCount(s.fireworks)
      && (t.frameSet <==> s.active || |t.fireworks| > 0 || |t.particles| > 0)
  {
    var r := Advance(s.fireworks, draws);
    AdvanceConserves(s.fireworks, draws);
    AgeSurvivors(s.particles + r.sparks);
  }

  /** While the show is active and the canvas is there, every frame requests the next one. */
  lemma FrameKeepsRunning(s: Show, canvas: Canvas, draws: seq<seq<SparkDraw>>)
    requires s.frameSet && s.active && ValidFrameDraws(s.fireworks, draws)
    ensures Frame(s, Some(canvas), draws).frameSet
  {
  }

  /** Without a canvas a frame does nothing but stop the animation loop. */
  lemma FrameWithoutCanvas(s: Show, draws: seq<seq<SparkDraw>>)
    requires ValidFrameDraws(s.fireworks, draws)
    ensures Frame(s, None, draws) == s.(frameSet := false)
  {
  }

  /** The launch attempt keeps the invariant. */
  lemma LaunchInv(s: Show, canvas: Option<Canvas>, chance: real, d: LaunchDraw)
    requires Inv(s) && ValidLaunch(d)
    ensures Inv(Launch(s, canvas, chance, d))
  {
    var t := Launch(s, canvas, chance, d);
    LaunchAddsAtMostOne(s.fireworks, canvas, chance, d);
    forall i | 0 <= i < |t.fireworks|
      ensures !t.fireworks[i].exploded
    {
      if i < |s.fireworks| {
        assert t.fireworks[i] == t.fireworks[..|s.fireworks|][i];
      }
    }
  }

  /** Every click keeps the invariant. */
  lemma ClickInv(s: Show, mode: TreeMode, durationMinutes: nat, canvas: Option<Canvas>, chance: real, d: LaunchDraw)
    requires Inv(s) && ValidLaunch(d)
    ensures Inv(Click(s, mode, durationMinutes, canvas, chance, d))
  {
    if mode == Formed && !s.active {
      var started := s.(active := true, remaining := durationMinutes * 60, notified := s.notified + [true],
                        countdownSet := true, burstSet := true, frameSet := true);
      LaunchInv(started, canvas, chance, d);
    }
  }

  /** Countdown ticks, bursts and staggered launches keep the invariant. */
  lemma TimersInv(s: Show, r: real, j: nat, canvas: Option<Canvas>, chance: real, d: LaunchDraw)
    requires Inv(s) && Unit(r) && ValidLaunch(d) && j < |s.pending|
    ensures Inv(Tick(s)) && Inv(Burst(s, r))
    ensures Inv(Staggered(s, j, canvas, chance, d))
  {
    LaunchInv(s.(pending := s.pending[..j] + s.pending[j + 1..]), canvas, chance, d);
  }

  /** A frame keeps the invariant: kept rockets are unexploded and every spark left is alive. */
  lemma FrameInv(s: Show, canvas: Option<Canvas>, draws: seq<seq<SparkDraw>>)
    requires Inv(s) && ValidFrameDraws(s.fireworks, draws)
    ensures Inv(Frame(s, canvas, draws))
  {
    if s.frameSet && canvas.Some? {
      var r := Advance(s.fireworks, draws);
      AdvanceKeepsUnexploded(s.fireworks, draws);
      AdvanceSparksFresh(s.fireworks, draws);
      var all := s.particles + r.sparks;
      forall i | 0 <= i < |all|
        ensures Alive(all[i])
      {
        if i >= |s.particles| {
          var k := i - |s.particles|;
          assert all[i] == r.sparks[k];
          FreshIsAlive(r.sparks[k]);
        }
      }
      AgeKeepsAlive(all);
      var t := Frame(s, canvas, draws);
      assert t.fireworks == r.kept && t.particles == Age(all);
      assert t.active == s.active && t.frameSet == (s.active || |r.kept| > 0 || |Age(all)| > 0);
    }
  }

  // ---------------------------------------------------------------------------------------
  // The clock

  /** `formatTime`: whole minutes, a colon, and the seconds padded to two digits. */
  function FormatTime(seconds: nat): string
  {
    ToRadix(seconds / 60, 10) + ":" + PadStart(ToRadix(seconds % 60, 10), 2, '0')
  }

  /** Reads `m:ss` back: decimal minutes, a colon, exactly two decimal digits. */
  function ParseTime(t: string): Option<nat>
  {
    var k := IndexOf(t, ':');
    if k == |t| then None
    else
      var mins, secs := t[..k], t[k + 1..];
      if 1 <= |mins| && AllDigits(mins, 10) && |secs| == 2 && AllDigits(secs, 10)
      then Some(DigitsValue(mins, 10) * 60 + DigitsValue(secs, 10))
      else None
  }

  /** The seconds part is always exactly two digits: the tens and the units of seconds mod 60. */
  lemma FormatTimeShape(seconds: nat)
    ensures var t := FormatTime(seconds);
      && |t| >= 4
      && t[..|t| - 3] == ToRadix(seconds / 60, 10)
      && t[|t| - 3] == ':'
      && t[|t| - 2..] == [DigitChar(seconds % 60 / 10), DigitChar(seconds % 60 % 10)]
  {
    DecimalPair(seconds % 60);
  }

  /** Two decimal digits denote tens * 10 + units. */
  lemma TwoDigits(p: string)
    requires |p| == 2 && AllDigits(p, 10)
    ensures DigitsValue(p, 10) == DigitValue(p[0]) * 10 + DigitValue(p[1])
  {
    var first := p[..1];
    assert first[..0] == [];
    assert DigitsValue(first, 10) == DigitValue(p[0]);
    assert DigitsValue(p, 10) == DigitsValue(first, 10) * 10 + DigitValue(p[1]);
  }

  /** Reading the clock back gives the seconds: minutes * 60 + seconds, with seconds below 60. */
  lemma FormatTimeRoundTrip(seconds: nat)
    ensures ParseTime(FormatTime(seconds)) == Some(seconds)
  {
    var t := FormatTime(seconds);
    var m := ToRadix(seconds / 60, 10);
    var secs := seconds % 60;
    var p := PadStart(ToRadix(secs, 10), 2, '0');
    FormatTimeShape(seconds);
    ToRadixRoundTrip(seconds / 60, 10);
    DigitCharValue(secs / 10);
    DigitCharValue(secs % 10);
    assert p == [DigitChar(secs / 10), DigitChar(secs % 10)];
    assert t == m + ":" + p;
    forall i | 0 <= i < |m|
      ensures t[i] != ':'
    {
      assert t[i] == m[i];
      assert DigitValue(':') == -1;
    }
    IndexOfAt(t, ':', |m|);
    assert t[..|m|] == m;
    assert t[|m| + 1..] == p;
    TwoDigits(p);
  }

  // ---------------------------------------------------------------------------------------
  // The component

  /**
   * The component's refs and state, changed in place by its event handlers. The canvas element
   * exists only while the tree is formed, so each handler is given the canvas as it finds it.
   */
  class FireworksButton {
    const durationMinutes: nat
    var active: bool
    var remaining: nat
    var fireworks: seq<Firework>
    var particles: seq<Particle>
    var countdownSet: bool
    var burstSet: bool
    var frameSet: bool
    var timeouts: nat
    var pending: seq<nat>
    var notified: seq<bool>

    function State(): Show
      reads this
    {
      Show(active, remaining, fireworks, particles, countdownSet, burstSet, frameSet, timeouts, pending, notified)
    }

    /** Mounting with `durationMinutes` (2 unless the parent passes one). */
    constructor(durationMinutes: nat)
      ensures this.durationMinutes == durationMinutes
      ensures State() == Initial
    {
      this.durationMinutes := durationMinutes;
      active, remaining := false, 0;
      fireworks, particles := [], [];
      countdownSet, burstSet, frameSet := false, false, false;
      timeouts, pending, notified := 0, [], [];
    }

    method StopFireworks()
      modifies this
      ensures State() == Stop(old(State()))
    {
      active := false;
      remaining := 0;
      notified := notified + [false];
      timeouts := 0;
      countdownSet := false;
      burstSet := false;
      frameSet := false;
      fireworks := [];
      particles := [];
    }

    method CreateFirework(canvas: Option<Canvas>, d: LaunchDraw)
      requires ValidLaunch(d)
      modifies this
      ensures State() == old(State()).(fireworks := Create(old(fireworks), canvas, d))
    {
      if canvas.None? {
        return;
      }
      fireworks := fireworks + [NewFirework(canvas.value, d)];
    }

    method LaunchFirework(canvas: Option<Canvas>, chance: real, d: LaunchDraw)
      requires ValidLaunch(d)
      modifies this
      ensures State() == Launch(old(State()), canvas, chance, d)
    {
      if chance > LaunchThreshold {
        CreateFirework(canvas, d);
      }
    }

    method HandleClick(mode: TreeMode, canvas: Option<Canvas>, chance: real, d: LaunchDraw)
      requires ValidLaunch(d)
      modifies this
      ensures State() == Click(old(State()), mode, durationMinutes, canvas, chance, d)
    {
      if mode != Formed {
        return;
      }
      if active {
        StopFireworks();
      } else {
        active := true;
        remaining := durationMinutes * 60;
        notified := notified + [true];
        countdownSet := true;
        frameSet := true;
        LaunchFirework(canvas, chance, d);
        burstSet := true;
      }
    }

    method CountdownTick()
      modifies this
      ensures State() == Tick(old(State()))
    {
      if !countdownSet {
        return;
      }
      if remaining <= 1 {
        StopFireworks();
        remaining := 0;
      } else {
        remaining := remaining - 1;
      }
    }

    method BurstTick(r: real)
      requires Unit(r)
      modifies this
      ensures State() == Burst(old(State()), r)
    {
      if !burstSet {
        return;
      }
      var count := 1 + (r * 3.0).Floor;
      assert count == BurstSize(r);
      var delays: seq<nat> := [];
      var i := 0;
      while i < count
        invariant 0 <= i <= count
        invariant delays == BurstDelays(i)
      {
        assert BurstDelays(i + 1) == BurstDelays(i) + [i * BurstSpacing];
        delays := delays + [i * BurstSpacing];
        i := i + 1;
      }
      pending := pending + delays;
    }

    method StaggeredLaunch(j: nat, canvas: Option<Canvas>, chance: real, d: LaunchDraw)
      requires j < |pending| && ValidLaunch(d)
      modifies this
      ensures State() == Staggered(old(State()), j, canvas, chance, d)
    {
      pending := pending[..j] + pending[j + 1..];
      LaunchFirework(canvas, chance, d);
    }

    method Animate(canvas: Option<Canvas>, draws: seq<seq<SparkDraw>>)
      requires ValidFrameDraws(fireworks, draws)
      modifies this
      ensures State() == Frame(old(State()), canvas, draws)
    {
      if !frameSet {
        return;
      }
      if canvas.None? {
        frameSet := false;
        return;
      }
      var kept, sparks := AdvanceFireworks(fireworks, draws);
      fireworks := kept;
      particles := AgeParticles(particles + sparks);
      frameSet := active || |fireworks| > 0 || |particles| > 0;
    }
  }
}
