/**
 * The tree's ornaments: pools of instances generated once (balls, gifts, yellow and blue lights
 * in random proportions, 50 red orbiting particles, 100 snowflakes), and the rule that moves
 * each instance every frame: snowflakes fall and wrap round to the top, red particles chase
 * their orbit, and everything else glides toward the position that matches the tree's mode.
 *
 * `Math.random`, `pow`, `sin`, `cos` and `acos` are not evaluated: their results are
 * parameters with the ranges those functions give. Positions are exact reals.
 */
module Ornaments {
  import opened Wrappers
  import opened Types
  import opened Reals

  datatype OrnamentType = Ball | Gift | Light | BlueLight | RedParticle | Snowflake

  datatype Vec3 = Vec3(x: real, y: real, z: real)

  /** The orbit of a red particle. */
  datatype Orbit = Orbit(radius: real, speed: real, height: real)

  /** How a snowflake falls: its fall speed, its sideways drift and the height it restarts from. */
  datatype Fall = Fall(fallSpeed: real, drift: real, resetHeight: real)

  datatype InstanceData = InstanceData(
    chaosPos: Vec3, targetPos: Vec3, kind: OrnamentType, color: string,
    scale: real, speed: real, orbit: Option<Orbit>, fall: Option<Fall>)

  /** The six instance lists, one per mesh. */
  datatype Pools = Pools(
    balls: seq<InstanceData>, gifts: seq<InstanceData>, lights: seq<InstanceData>,
    blueLights: seq<InstanceData>, redParticles: seq<InstanceData>, snowflakes: seq<InstanceData>)

  const NoPools := Pools([], [], [], [], [], [])

  const TreeHeight: real := 11.0
  const MaxRadius: real := 4.5
  const Gold := "#D4AF37"
  const Red := "#8B0000"
  const WhiteGold := "#F5E6BF"
  const Palette: seq<string> := [Gold, Red, Gold, WhiteGold]
  const LightColor := "#FFFFAA"
  const BlueLightColor := "#4488FF"
  const RedParticleColor := "#FF3333"
  const SnowColor := "#FFFFFF"
  const RedParticleCount: nat := 50
  const SnowflakeCount: nat := 100
  const SnowSpawnRadius: real := 15.0
  const GroundLevel: real := -2.0

  /** A `Math.random()` result. */
  predicate Unit(r: real) { 0.0 <= r < 1.0 }

  /** A sine or cosine value. */
  predicate Trig(c: real) { -1.0 <= c <= 1.0 }

  // ---------------------------------------------------------------------------------------
  // Generation

  /** The cascade of ifs that picks a type from one draw; a later match overrides an earlier one. */
  function TypeOf(rnd: real): OrnamentType
  {
    var t := Ball;
    var t := if rnd >= 0.5 && rnd < 0.8 then Gift else t;
    var t := if rnd >= 0.8 && rnd < 0.9 then Light else t;
    if rnd >= 0.9 then BlueLight else t
  }

  /** Half balls, then 30 % gifts, 10 % lights and 10 % blue lights, by interval of the draw. */
  lemma TypeBuckets(rnd: real)
    ensures rnd < 0.5 <==> TypeOf(rnd) == Ball
    ensures 0.5 <= rnd < 0.8 <==> TypeOf(rnd) == Gift
    ensures 0.8 <= rnd < 0.9 <==> TypeOf(rnd) == Light
    ensures 0.9 <= rnd <==> TypeOf(rnd) == BlueLight
  {
  }

  /** The draws of a point on a sphere: its radius draw and the sines and cosines of its angles. */
  datatype ShellDraw = ShellDraw(radius: real, sinPhi: real, cosPhi: real, cosTheta: real, sinTheta: real)

  predicate ValidShell(d: ShellDraw)
  {
    Unit(d.radius) && Trig(d.sinPhi) && Trig(d.cosPhi) && Trig(d.cosTheta) && Trig(d.sinTheta)
  }

  /** The scattered position: on a sphere of radius 15 to 30 round (0, 5, 0). */
  function ChaosPos(d: ShellDraw): Vec3
  {
    var cR := 15.0 + d.radius * 15.0;
    Vec3(cR * d.sinPhi * d.cosTheta, cR * d.sinPhi * d.sinTheta + 5.0, cR * d.cosPhi)
  }

  /**
   * The draws of one main ornament: the type draw, `pow(random, 2.5)`, the cosine and sine of
   * the winding angle, the radius, scale, colour and speed draws, and the scattered position.
   */
  datatype MainDraw = MainDraw(
    rnd: real, yNorm: real, cosTheta: real, sinTheta: real, radius: real,
    chaos: ShellDraw, scale: real, color: real, speed: real)

  predicate ValidMain(d: MainDraw)
  {
    && Unit(d.rnd) && Unit(d.yNorm) && Trig(d.cosTheta) && Trig(d.sinTheta) && Unit(d.radius)
    && ValidShell(d.chaos) && Unit(d.scale) && Unit(d.color) && Unit(d.speed)
  }

  /** The formed position: on a spiral round the trunk, narrowing with height. */
  function MainTarget(d: MainDraw): Vec3
  {
    var y := d.yNorm * TreeHeight + 0.5;
    var r := MaxRadius * (1.0 - d.yNorm) * 1.0 + d.radius * 0.5;
    Vec3(r * d.cosTheta, y, r * d.sinTheta)
  }

  /** `Math.floor(random * palette.length)`. */
  function PaletteIndex(r: real): (i: nat)
    requires Unit(r)
    ensures i < |Palette|
  {
    (r * 4.0).Floor
  }

  /** One main ornament, built from its draws. */
  function MainInstance(d: MainDraw): InstanceData
    requires ValidMain(d)
  {
    var kind := TypeOf(d.rnd);
    var scale := if kind == Light || kind == BlueLight then 0.1 else 0.13 + d.scale * 0.08;
    var color :=
      if kind == Light then LightColor
      else if kind == BlueLight then BlueLightColor
      else Palette[PaletteIndex(d.color)];
    InstanceData(ChaosPos(d.chaos), MainTarget(d), kind, color, scale, 0.5 + d.speed * 1.5, None, None)
  }

  /**
   * Lights have scale exactly 0.1 and the other main ornaments a scale in [0.13, 0.21); all
   * have speed in [0.5, 2.0) and a formed height in [0.5, 11.5); lights are yellow or blue and
   * the rest take a palette colour.
   */
  lemma MainInstanceRanges(d: MainDraw)
    requires ValidMain(d)
    ensures var o := MainInstance(d);
      && o.kind == TypeOf(d.rnd)
      && (o.kind == Light || o.kind == BlueLight ==> o.scale == 0.1)
      && (o.kind == Ball || o.kind == Gift ==> 0.13 <= o.scale < 0.21 && o.color in Palette)
      && (o.kind == Light ==> o.color == LightColor)
      && (o.kind == BlueLight ==> o.color == BlueLightColor)
      && 0.5 <= o.speed < 2.0
      && 0.5 <= o.targetPos.y < 11.5
      && o.orbit.None? && o.fall.None?
  {
    assert 0.0 <= d.yNorm * TreeHeight < TreeHeight;
  }

  /** The push at the end of the main loop: into the list of the ornament's own type. */
  function PushMain(p: Pools, o: InstanceData): Pools
  {
    match o.kind
    case Ball => p.(balls := p.balls + [o])
    case Gift => p.(gifts := p.gifts + [o])
    case Light => p.(lights := p.lights + [o])
    case BlueLight => p.(blueLights := p.blueLights + [o])
    case _ => p
  }

  /** The main loop over `count` ornaments. */
  function MainPools(draws: seq<MainDraw>): Pools
    requires forall i :: 0 <= i < |draws| ==> ValidMain(draws[i])
  {
    if draws == [] then NoPools
    else PushMain(MainPools(draws[..|draws| - 1]), MainInstance(draws[|draws| - 1]))
  }

  /** Every list holds only its own type. */
  predicate Sorted(p: Pools)
  {
    && (forall i :: 0 <= i < |p.balls| ==> p.balls[i].kind == Ball)
    && (forall i :: 0 <= i < |p.gifts| ==> p.gifts[i].kind == Gift)
    && (forall i :: 0 <= i < |p.lights| ==> p.lights[i].kind == Light)
    && (forall i :: 0 <= i < |p.blueLights| ==> p.blueLights[i].kind == BlueLight)
    && (forall i :: 0 <= i < |p.redParticles| ==> p.redParticles[i].kind == RedParticle)
    && (forall i :: 0 <= i < |p.snowflakes| ==> p.snowflakes[i].kind == Snowflake)
  }

  function MainTotal(p: Pools): nat
  {
    |p.balls| + |p.gifts| + |p.lights| + |p.blueLights|
  }

  /** The main ornaments in the order the loop generates them. */
  function MainInstances(draws: seq<MainDraw>): (os: seq<InstanceData>)
    requires forall i :: 0 <= i < |draws| ==> ValidMain(draws[i])
    ensures |os| == |draws|
  {
    if draws == [] then [] else MainInstances(draws[..|draws| - 1]) + [MainInstance(draws[|draws| - 1])]
  }

  /** Ornament `i` is built from draw `i`. */
  lemma {:induction false} MainInstancesIndexed(draws: seq<MainDraw>)
    requires forall i :: 0 <= i < |draws| ==> ValidMain(draws[i])
    ensures forall i :: 0 <= i < |draws| ==> MainInstances(draws)[i] == MainInstance(draws[i])
  {
    if draws != [] {
      MainInstancesIndexed(draws[..|draws| - 1]);
    }
  }

  /** The instances of kind `k`, in their order. */
  function OfKind(os: seq<InstanceData>, k: OrnamentType): (r: seq<InstanceData>)
    ensures forall i :: 0 <= i < |r| ==> r[i].kind == k
    ensures |r| <= |os|
  {
    if os == [] then []
    else OfKind(os[..|os| - 1], k) + (if os[|os| - 1].kind == k then [os[|os| - 1]] else [])
  }

  /** The filter by kind misses no instance of that kind. */
  lemma {:induction false} OfKindKeeps(os: seq<InstanceData>, k: OrnamentType, i: nat)
    requires i < |os| && os[i].kind == k
    ensures os[i] in OfKind(os, k)
  {
    if i < |os| - 1 {
      assert os[..|os| - 1][i] == os[i];
      OfKindKeeps(os[..|os| - 1], k, i);
    }
  }

  /** The list of `p` that the main loop pushes ornaments of kind `k` into. */
  function PoolOf(p: Pools, k: OrnamentType): seq<InstanceData>
  {
    match k
    case Ball => p.balls
    case Gift => p.gifts
    case Light => p.lights
    case BlueLight => p.blueLights
    case RedParticle => p.redParticles
    case Snowflake => p.snowflakes
  }

  /**
   * The main loop puts each of the `count` ornaments into exactly one of the four main lists,
   * the list of its own type, and none into the red-particle or snowflake lists: each list is
   * the generated ornaments of its type, in generation order.
   */
  lemma {:induction false} MainPoolsPartition(draws: seq<MainDraw>)
    requires forall i :: 0 <= i < |draws| ==> ValidMain(draws[i])
    ensures Sorted(MainPools(draws))
    ensures MainTotal(MainPools(draws)) == |draws|
    ensures MainPools(draws).redParticles == [] && MainPools(draws).snowflakes == []
    ensures forall k: OrnamentType :: PoolOf(MainPools(draws), k) == OfKind(MainInstances(draws), k)
  {
    if draws != [] {
      var pre := draws[..|draws| - 1];
      MainPoolsPartition(pre);
      var o := MainInstance(draws[|draws| - 1]);
      assert MainInstances(draws)[..|draws| - 1] == MainInstances(pre);
      assert MainPools(draws) == PushMain(MainPools(pre), o);
      forall k: OrnamentType
        ensures PoolOf(MainPools(draws), k) == OfKind(MainInstances(draws), k)
      {
        PushPoolOf(MainPools(pre), o, k);
      }
    }
  }

  /** A push appends a main ornament to the list of its own type and to no other list. */
  lemma PushPoolOf(p: Pools, o: InstanceData, k: OrnamentType)
    requires o.kind != RedParticle && o.kind != Snowflake
    ensures PoolOf(PushMain(p, o), k) == PoolOf(p, k) + (if o.kind == k then [o] else [])
  {
  }

  /** Every generated ornament lands in the list of the type its draw picked. */
  lemma MainPoolsMembership(draws: seq<MainDraw>, i: nat)
    requires forall i :: 0 <= i < |draws| ==> ValidMain(draws[i])
    requires i < |draws|
    ensures MainInstance(draws[i]) in PoolOf(MainPools(draws), TypeOf(draws[i].rnd))
  {
    MainPoolsPartition(draws);
    MainInstancesIndexed(draws);
    OfKindKeeps(MainInstances(draws), TypeOf(draws[i].rnd), i);
  }

  /** The draws of one red particle. */
  datatype RedDraw = RedDraw(
    radius: real, height: real, orbitSpeed: real, cosStart: real, sinStart: real,
    chaos: ShellDraw, scale: real, speed: real)

  predicate ValidRed(d: RedDraw)
  {
    && Unit(d.radius) && Unit(d.height) && Unit(d.orbitSpeed) && Trig(d.cosStart) && Trig(d.sinStart)
    && ValidShell(d.chaos) && Unit(d.scale) && Unit(d.speed)
  }

  /** One red particle: orbit radius 2 to 6, height 0 to 8, orbit speed 0.3 to 0.8. */
  function RedInstance(d: RedDraw): InstanceData
  {
    var radius := 2.0 + d.radius * (6.0 - 2.0);
    var height := 0.0 + d.height * (8.0 - 0.0);
    var orbitSpeed := 0.3 + d.orbitSpeed * (0.8 - 0.3);
    InstanceData(
      ChaosPos(d.chaos), Vec3(d.cosStart * radius, height, d.sinStart * radius),
      RedParticle, RedParticleColor, 0.08 + d.scale * 0.05, 0.5 + d.speed * 1.0,
      Some(Orbit(radius, orbitSpeed, height)), None)
  }

  function RedInstances(draws: seq<RedDraw>): seq<InstanceData>
  {
    if draws == [] then [] else RedInstances(draws[..|draws| - 1]) + [RedInstance(draws[|draws| - 1])]
  }

  /** The draws of one snowflake. */
  datatype SnowDraw = SnowDraw(
    cosSpawn: real, sinSpawn: real, radius: real, height: real, start: real,
    chaos: ShellDraw, scale: real, speed: real, fallSpeed: real, drift: real)

  predicate ValidSnow(d: SnowDraw)
  {
    && Trig(d.cosSpawn) && Trig(d.sinSpawn) && Unit(d.radius) && Unit(d.height) && Unit(d.start)
    && ValidShell(d.chaos) && Unit(d.scale) && Unit(d.speed) && Unit(d.fallSpeed) && Unit(d.drift)
  }

  /**
   * One snowflake: spawned at a height of 15 to 25, starting somewhere between that height and
   * the ground so that the fall looks continuous.
   */
  function SnowInstance(d: SnowDraw): InstanceData
    requires ValidSnow(d)
  {
    var spawnRadius := d.radius * SnowSpawnRadius;
    var spawnHeight := 15.0 + d.height * (25.0 - 15.0);
    var initialY := spawnHeight - Scale(d.start, spawnHeight - GroundLevel);
    InstanceData(
      ChaosPos(d.chaos), Vec3(d.cosSpawn * spawnRadius, initialY, d.sinSpawn * spawnRadius),
      Snowflake, SnowColor, 0.05 + d.scale * (0.15 - 0.05), 0.5 + d.speed * 1.0, None,
      Some(Fall(0.3 + d.fallSpeed * (0.8 - 0.3), -0.5 + d.drift * (0.5 - (-0.5)), spawnHeight)))
  }

  function SnowInstances(draws: seq<SnowDraw>): seq<InstanceData>
    requires forall i :: 0 <= i < |draws| ==> ValidSnow(draws[i])
  {
    if draws == [] then [] else SnowInstances(draws[..|draws| - 1]) + [SnowInstance(draws[|draws| - 1])]
  }

  /** The whole `useMemo`: the main ornaments, then the red particles, then the snowflakes. */
  function Generate(main: seq<MainDraw>, red: seq<RedDraw>, snow: seq<SnowDraw>): Pools
    requires forall i :: 0 <= i < |main| ==> ValidMain(main[i])
    requires forall i :: 0 <= i < |snow| ==> ValidSnow(snow[i])
  {
    MainPools(main).(redParticles := RedInstances(red), snowflakes := SnowInstances(snow))
  }

  /** The main generation loop, pushing each ornament into the list of its type. */
  method GenerateMain(main: seq<MainDraw>) returns (pools: Pools)
    requires forall i :: 0 <= i < |main| ==> ValidMain(main[i])
    ensures pools == MainPools(main)
  {
    pools := NoPools;
    var i := 0;
    while i < |main|
      invariant 0 <= i <= |main|
      invariant pools == MainPools(main[..i])
    {
      assert main[..i + 1][..i] == main[..i];
      var data := MainInstance(main[i]);
      if data.kind == Ball {
        pools := pools.(balls := pools.balls + [data]);
      } else if data.kind == Gift {
        pools := pools.(gifts := pools.gifts + [data]);
      } else if data.kind == Light {
        pools := pools.(lights := pools.lights + [data]);
      } else if data.kind == BlueLight {
        pools := pools.(blueLights := pools.blueLights + [data]);
      }
      i := i + 1;
    }
    assert main[..i] == main;
  }

  /** The red-particle loop. */
  method GenerateRedParticles(red: seq<RedDraw>) returns (particles: seq<InstanceData>)
    requires |red| == RedParticleCount
    ensures particles == RedInstances(red)
  {
    particles := [];
    var k := 0;
    while k < RedParticleCount
      invariant 0 <= k <= RedParticleCount
      invariant particles == RedInstances(red[..k])
    {
      assert red[..k + 1][..k] == red[..k];
      particles := particles + [RedInstance(red[k])];
      k := k + 1;
    }
    assert red[..k] == red;
  }

  /** The snowflake loop. */
  method GenerateSnowflakes(snow: seq<SnowDraw>) returns (flakes: seq<InstanceData>)
    requires |snow| == SnowflakeCount && forall i :: 0 <= i < |snow| ==> ValidSnow(snow[i])
    ensures flakes == SnowInstances(snow)
  {
    flakes := [];
    var m := 0;
    while m < SnowflakeCount
      invariant 0 <= m <= SnowflakeCount
      invariant flakes == SnowInstances(snow[..m])
    {
      assert snow[..m + 1][..m] == snow[..m];
      flakes := flakes + [SnowInstance(snow[m])];
      m := m + 1;
    }
    assert snow[..m] == snow;
  }

  /** The whole generation: the three loops in order. */
  method GenerateOrnaments(main: seq<MainDraw>, red: seq<RedDraw>, snow: seq<SnowDraw>) returns (pools: Pools)
    requires forall i :: 0 <= i < |main| ==> ValidMain(main[i])
    requires |red| == RedParticleCount
    requires |snow| == SnowflakeCount && forall i :: 0 <= i < |snow| ==> ValidSnow(snow[i])
    ensures pools == Generate(main, red, snow)
  {
    pools := GenerateMain(main);
    var particles := GenerateRedParticles(red);
    var flakes := GenerateSnowflakes(snow);
    pools := pools.(redParticles := particles, snowflakes := flakes);
  }

  /** Red particle i comes from draw i. */
  lemma {:induction false} RedInstancesIndexed(draws: seq<RedDraw>)
    ensures |RedInstances(draws)| == |draws|
    ensures forall i :: 0 <= i < |draws| ==> RedInstances(draws)[i] == RedInstance(draws[i])
  {
    if draws != [] {
      RedInstancesIndexed(draws[..|draws| - 1]);
    }
  }

  /** Snowflake i comes from draw i. */
  lemma {:induction false} SnowInstancesIndexed(draws: seq<SnowDraw>)
    requires forall i :: 0 <= i < |draws| ==> ValidSnow(draws[i])
    ensures |SnowInstances(draws)| == |draws|
    ensures forall i :: 0 <= i < |draws| ==> SnowInstances(draws)[i] == SnowInstance(draws[i])
  {
    if draws != [] {
      SnowInstancesIndexed(draws[..|draws| - 1]);
    }
  }

  /** A red particle's orbit: radius in [2, 6), height in [0, 8), speed in [0.3, 0.8), scale in [0.08, 0.13). */
  predicate RedInRange(o: InstanceData)
  {
    && o.kind == RedParticle && o.orbit.Some? && o.fall.None?
    && 2.0 <= o.orbit.value.radius < 6.0
    && 0.0 <= o.orbit.value.height < 8.0
    && 0.3 <= o.orbit.value.speed < 0.8
    && 0.08 <= o.scale < 0.13
    && 0.5 <= o.speed < 1.5
    && o.targetPos.y == o.orbit.value.height
  }

  /** A snowflake: restarts from a height in [15, 25), starts in (-2, restart height], scale in [0.05, 0.15). */
  predicate SnowInRange(o: InstanceData)
  {
    && o.kind == Snowflake && o.fall.Some? && o.orbit.None?
    && 15.0 <= o.fall.value.resetHeight < 25.0
    && GroundLevel < o.targetPos.y <= o.fall.value.resetHeight
    && 0.3 <= o.fall.value.fallSpeed < 0.8
    && -0.5 <= o.fall.value.drift < 0.5
    && 0.05 <= o.scale < 0.15
    && 0.5 <= o.speed < 1.5
  }

  lemma SnowInstanceInRange(d: SnowDraw)
    requires ValidSnow(d)
    ensures SnowInRange(SnowInstance(d))
  {
  }

  /**
   * Generation makes exactly 50 red particles and 100 snowflakes whatever `count` is, plus
   * `count` main ornaments sorted by type, with every red particle and snowflake in range.
   */
  lemma GenerateShape(main: seq<MainDraw>, red: seq<RedDraw>, snow: seq<SnowDraw>)
    requires forall i :: 0 <= i < |main| ==> ValidMain(main[i])
    requires |red| == RedParticleCount && forall i :: 0 <= i < |red| ==> ValidRed(red[i])
    requires |snow| == SnowflakeCount && forall i :: 0 <= i < |snow| ==> ValidSnow(snow[i])
    ensures var p := Generate(main, red, snow);
      && |p.redParticles| == RedParticleCount && |p.snowflakes| == SnowflakeCount
      && MainTotal(p) == |main|
      && Sorted(p)
      && (forall i :: 0 <= i < |p.redParticles| ==> RedInRange(p.redParticles[i]))
      && (forall i :: 0 <= i < |p.snowflakes| ==> SnowInRange(p.snowflakes[i]))
  {
    MainPoolsPartition(main);
    RedInstancesIndexed(red);
    SnowInstancesIndexed(snow);
    forall i | 0 <= i < |snow|
      ensures SnowInRange(SnowInstances(snow)[i])
    {
      SnowInstanceInRange(snow[i]);
    }
  }

  // ---------------------------------------------------------------------------------------
  // Motion

  /** An instance's transform: position, rotation angles and uniform scale. */
  datatype Transform = Transform(position: Vec3, rotation: Vec3, scale: real)

  /**
   * The per-instance wave values of one frame: sin(2t + i), cos(1.5t + i), the cosine and sine
   * of the orbit angle t * orbitSpeed + i / 2, sin(3t + i), sin(2t + chaos.x), sin(5t + chaos.y),
   * and the draws of a snowflake's restart point (cosine, sine, radius draw).
   */
  datatype Waves = Waves(
    sinTwo: real, cosOneHalf: real, orbitCos: real, orbitSin: real, sinThree: real,
    wobble: real, glow: real, resetCos: real, resetSin: real, resetRadius: real)

  predicate ValidWaves(w: Waves)
  {
    && Trig(w.sinTwo) && Trig(w.cosOneHalf) && Trig(w.orbitCos) && Trig(w.orbitSin)
    && Trig(w.sinThree) && Trig(w.wobble) && Trig(w.glow)
    && Trig(w.resetCos) && Trig(w.resetSin) && Unit(w.resetRadius)
  }

  /** `Vector3.lerp(dest, alpha)`: move the fraction alpha of the way to dest (alpha is not clamped). */
  function Lerp(a: Vec3, b: Vec3, alpha: real): Vec3
  {
    Vec3(a.x + (b.x - a.x) * alpha, a.y + (b.y - a.y) * alpha, a.z + (b.z - a.z) * alpha)
  }

  function Sq(v: real): real { v * v }

  /** The squared distance between two points. */
  function DistSq(a: Vec3, b: Vec3): real
  {
    Sq(a.x - b.x) + Sq(a.y - b.y) + Sq(a.z - b.z)
  }

  /** The snowflake rule, for a formed tree. */
  function FallStep(f: Fall, scale: real, delta: real, cur: Transform, w: Waves): Transform
    requires ValidWaves(w)
  {
    var p := cur.position;
    var y := p.y - f.fallSpeed * delta;
    var x := p.x + f.drift * delta;
    var x := x + w.sinTwo * 0.01;
    var z := p.z + w.cosOneHalf * 0.01;
    var r := w.resetRadius * SnowSpawnRadius;
    var pos := if y < GroundLevel then Vec3(w.resetCos * r, f.resetHeight, w.resetSin * r) else Vec3(x, y, z);
    var rot := cur.rotation;
    Transform(pos, Vec3(rot.x + delta * 0.5, rot.y + delta * 0.3, rot.z + delta * 0.2), scale)
  }

  /** The red-particle rule, for a formed tree: lerp toward the orbit point, float, pulse. */
  function OrbitStep(o: Orbit, scale: real, speed: real, delta: real, cur: Transform, w: Waves): Transform
  {
    Transform(Float(Lerp(cur.position, OrbitGoal(o, w), delta * speed), w.sinTwo), cur.rotation,
              scale * (1.0 + w.sinThree * 0.4))
  }

  /**
   * The general rule: lerp toward the target when formed and toward the scattered position
   * otherwise; near the target on a formed tree, wobble a little; gifts spin, everything else
   * turns to face the trunk (`lookAt` is three.js's, given as a parameter); lights pulse.
   */
  function GlideStep(d: InstanceData, formed: bool, delta: real, cur: Transform, w: Waves,
                     lookAt: (Vec3, Vec3) -> Vec3): Transform
  {
    var dest := if formed then d.targetPos else d.chaosPos;
    var p := Lerp(cur.position, dest, delta * d.speed);
    var p := if formed && DistSq(p, d.targetPos) < 0.25 then p.(y := p.y + w.wobble * 0.002) else p;
    var rot :=
      if d.kind == Gift then Vec3(cur.rotation.x + delta * 0.5, cur.rotation.y + delta * 0.2, cur.rotation.z)
      else lookAt(p, Vec3(0.0, p.y, 0.0));
    var pulse := if d.kind == Light || d.kind == BlueLight then 1.0 + w.glow * 0.3 else 1.0;
    Transform(p, rot, d.scale * pulse)
  }

  /** A snowflake with its fall data, on a formed tree. */
  predicate Falls(d: InstanceData, formed: bool)
  {
    d.kind == Snowflake && formed && d.fall.Some?
  }

  /** A red particle with a truthy orbit radius and speed, on a formed tree. */
  predicate Orbits(d: InstanceData, formed: bool)
  {
    d.kind == RedParticle && formed && d.orbit.Some? && d.orbit.value.radius != 0.0 && d.orbit.value.speed != 0.0
  }

  /** The body of the `forEach` in `updateMesh`: the first rule that applies. */
  function StepInstance(d: InstanceData, formed: bool, delta: real, cur: Transform, w: Waves,
                        lookAt: (Vec3, Vec3) -> Vec3): Transform
    requires ValidWaves(w)
  {
    if Falls(d, formed) then FallStep(d.fall.value, d.scale, delta, cur, w)
    else if Orbits(d, formed) then OrbitStep(d.orbit.value, d.scale, d.speed, delta, cur, w)
    else GlideStep(d, formed, delta, cur, w, lookAt)
  }

  /** `updateMesh`: every instance's transform is replaced by its step; a missing mesh is skipped. */
  method UpdateMesh(mesh: array?<Transform>, data: seq<InstanceData>, formed: bool, delta: real,
                    waves: seq<Waves>, lookAt: (Vec3, Vec3) -> Vec3)
    requires mesh != null ==> mesh.Length == |data|
    requires |waves| == |data| && forall i :: 0 <= i < |waves| ==> ValidWaves(waves[i])
    modifies mesh
    ensures mesh != null ==> forall i :: 0 <= i < mesh.Length ==>
      mesh[i] == StepInstance(data[i], formed, delta, old(mesh[i]), waves[i], lookAt)
  {
    if mesh == null {
      return;
    }
    var i := 0;
    while i < mesh.Length
      invariant 0 <= i <= mesh.Length
      invariant forall k :: 0 <= k < i ==> mesh[k] == StepInstance(data[k], formed, delta, old(mesh[k]), waves[k], lookAt)
      invariant forall k :: i <= k < mesh.Length ==> mesh[k] == old(mesh[k])
    {
      mesh[i] := StepInstance(data[i], formed, delta, mesh[i], waves[i], lookAt);
      i := i + 1;
    }
  }

  // ---------------------------------------------------------------------------------------
  // Properties of the motion

  /** Lerping toward a point multiplies the squared distance to it by (1 - alpha)^2. */
  lemma LerpDistance(a: Vec3, b: Vec3, alpha: real)
    ensures DistSq(Lerp(a, b, alpha), b) == Sq(1.0 - alpha) * DistSq(a, b)
  {
    var l := Lerp(a, b, alpha);
    LerpAxis(a.x, b.x, alpha);
    LerpAxis(a.y, b.y, alpha);
    LerpAxis(a.z, b.z, alpha);
    var k := Sq(1.0 - alpha);
    assert DistSq(l, b) == k * Sq(a.x - b.x) + k * Sq(a.y - b.y) + k * Sq(a.z - b.z);
  }

  /** One coordinate of a lerp. */
  lemma LerpAxis(a: real, b: real, alpha: real)
    ensures Sq(a + (b - a) * alpha - b) == Sq(1.0 - alpha) * Sq(a - b)
  {
    var u := a - b;
    var v := 1.0 - alpha;
    assert a + (b - a) * alpha - b == u * v;
    assert Sq(u * v) == (u * v) * (u * v);
    assert (u * v) * (u * v) == (u * u) * (v * v);
  }

  /** For a step between 0 and 2 the lerp never moves away from its destination. */
  lemma LerpApproaches(a: Vec3, b: Vec3, alpha: real)
    requires 0.0 <= alpha <= 2.0
    ensures DistSq(Lerp(a, b, alpha), b) <= DistSq(a, b)
  {
    LerpDistance(a, b, alpha);
    var v := 1.0 - alpha;
    var d := DistSq(a, b);
    SqNonneg(a.x - b.x);
    SqNonneg(a.y - b.y);
    SqNonneg(a.z - b.z);
    SqAtMostOne(v);
    MulMono(Sq(v), 1.0, d);
  }

  lemma SqNonneg(v: real)
    ensures 0.0 <= Sq(v)
  {
    if v < 0.0 {
      MulPos(-v, -v);
    } else {
      MulNonneg(v, v);
    }
  }

  lemma SqAtMostOne(v: real)
    requires -1.0 <= v <= 1.0
    ensures Sq(v) <= 1.0
  {
    var u := if v < 0.0 then -v else v;
    assert Sq(v) == u * u;
    MulMono(u, 1.0, u);
    MulMono(u, 1.0, 1.0);
  }

  /**
   * The general rule away from a formed tree's target: the instance is exactly the lerp toward
   * its destination, which is the scattered position whenever the tree is not formed (snowflakes
   * and red particles included); with a step in [0, 2] it never moves away from it.
   */
  lemma ScatterGlides(d: InstanceData, delta: real, cur: Transform, w: Waves, lookAt: (Vec3, Vec3) -> Vec3)
    requires ValidWaves(w) && 0.0 <= delta * d.speed <= 2.0
    ensures var t := StepInstance(d, false, delta, cur, w, lookAt);
      && t.position == Lerp(cur.position, d.chaosPos, delta * d.speed)
      && DistSq(t.position, d.chaosPos) <= DistSq(cur.position, d.chaosPos)
  {
    assert StepInstance(d, false, delta, cur, w, lookAt) == GlideStep(d, false, delta, cur, w, lookAt);
    LerpApproaches(cur.position, d.chaosPos, delta * d.speed);
  }

  /**
   * On a formed tree the general rule lerps toward the target; only once within 0.5 of it does
   * the wobble move the height, by at most 0.002.
   */
  lemma FormedGlides(d: InstanceData, delta: real, cur: Transform, w: Waves, lookAt: (Vec3, Vec3) -> Vec3)
    requires ValidWaves(w) && !Falls(d, true) && !Orbits(d, true)
    ensures var t := StepInstance(d, true, delta, cur, w, lookAt);
      var l := Lerp(cur.position, d.targetPos, delta * d.speed);
      && (DistSq(l, d.targetPos) >= 0.25 ==> t.position == l)
      && (DistSq(l, d.targetPos) < 0.25 ==>
            t.position.x == l.x && t.position.z == l.z && -0.002 <= t.position.y - l.y <= 0.002)
  {
    assert StepInstance(d, true, delta, cur, w, lookAt) == GlideStep(d, true, delta, cur, w, lookAt);
  }

  /**
   * A falling snowflake drops by fallSpeed * delta; if that takes it below the ground it
   * restarts at its restart height within 15 of the axis. It spins by delta * (0.5, 0.3, 0.2)
   * and keeps its own scale.
   */
  lemma SnowflakeFalls(d: InstanceData, delta: real, cur: Transform, w: Waves, lookAt: (Vec3, Vec3) -> Vec3)
    requires ValidWaves(w) && Falls(d, true)
    requires w.resetCos * w.resetCos + w.resetSin * w.resetSin == 1.0
    ensures var t := StepInstance(d, true, delta, cur, w, lookAt);
      var fell := cur.position.y - d.fall.value.fallSpeed * delta;
      && (fell >= GroundLevel ==> t.position.y == fell)
      && (fell < GroundLevel ==>
            t.position.y == d.fall.value.resetHeight
            && Sq(t.position.x) + Sq(t.position.z) <= Sq(SnowSpawnRadius))
      && t.rotation == Vec3(cur.rotation.x + delta * 0.5, cur.rotation.y + delta * 0.3, cur.rotation.z + delta * 0.2)
      && t.scale == d.scale
  {
    assert StepInstance(d, true, delta, cur, w, lookAt) == FallStep(d.fall.value, d.scale, delta, cur, w);
    var r := w.resetRadius * SnowSpawnRadius;
    RingPoint(w.resetCos, w.resetSin, r);
    SqMono(r, SnowSpawnRadius);
  }

  /** A point at angle (c, s) and distance r from the axis. */
  lemma RingPoint(c: real, s: real, r: real)
    requires c * c + s * s == 1.0
    ensures Sq(c * r) + Sq(s * r) == Sq(r)
  {
    assert Sq(c * r) == (c * c) * (r * r);
    assert Sq(s * r) == (s * s) * (r * r);
    assert (c * c) * (r * r) + (s * s) * (r * r) == (c * c + s * s) * (r * r);
  }

  lemma SqMono(a: real, b: real)
    requires 0.0 <= a <= b
    ensures Sq(a) <= Sq(b)
  {
    MulMono(a, b, a);
    MulMono(a, b, b);
  }

  /** A pulse 1 + sin * k with sin in [-1, 1] keeps a non-negative scale within [1 - k, 1 + k] times it. */
  lemma PulseBounds(scale: real, sine: real, k: real)
    requires 0.0 <= scale && Trig(sine) && 0.0 <= k
    ensures (1.0 - k) * scale <= scale * (1.0 + sine * k) <= (1.0 + k) * scale
  {
    MulMono(-1.0, sine, k);
    MulMono(sine, 1.0, k);
    MulMono(1.0 - k, 1.0 + sine * k, scale);
    MulMono(1.0 + sine * k, 1.0 + k, scale);
  }

  /** The point of its orbit a red particle heads for, at the current angle and its orbit height. */
  function OrbitGoal(o: Orbit, w: Waves): Vec3
  {
    Vec3(w.orbitCos * o.radius, o.height, w.orbitSin * o.radius)
  }

  /** The floating effect: `position.y += sine * 0.02`. */
  function Float(p: Vec3, sine: real): Vec3
  {
    p.(y := p.y + sine * 0.02)
  }

  /** Floating moves a point up or down by at most 0.02 and nowhere else. */
  lemma FloatBounds(p: Vec3, sine: real)
    requires Trig(sine)
    ensures Float(p, sine).x == p.x && Float(p, sine).z == p.z
    ensures -0.02 <= Float(p, sine).y - p.y <= 0.02
  {
  }

  /**
   * On a formed tree a red particle heads for its orbit point: it moves by the lerp toward
   * that point, which brings it no farther away for a step in [0, 2], then floats up or down
   * by at most 0.02, and keeps its rotation.
   */
  lemma OrbiterChases(d: InstanceData, delta: real, cur: Transform, w: Waves, lookAt: (Vec3, Vec3) -> Vec3)
    requires ValidWaves(w) && Orbits(d, true) && 0.0 <= delta * d.speed <= 2.0
    ensures var goal := OrbitGoal(d.orbit.value, w);
      var l := Lerp(cur.position, goal, delta * d.speed);
      var t := StepInstance(d, true, delta, cur, w, lookAt);
      && t.position == Float(l, w.sinTwo)
      && t.rotation == cur.rotation
      && DistSq(l, goal) <= DistSq(cur.position, goal)
  {
    var t := OrbitStep(d.orbit.value, d.scale, d.speed, delta, cur, w);
    assert StepInstance(d, true, delta, cur, w, lookAt) == t;
    LerpApproaches(cur.position, OrbitGoal(d.orbit.value, w), delta * d.speed);
  }

  /** An orbiting red particle pulses between 0.6 and 1.4 times its scale. */
  lemma RedParticlePulse(d: InstanceData, delta: real, cur: Transform, w: Waves, lookAt: (Vec3, Vec3) -> Vec3)
    requires ValidWaves(w) && Orbits(d, true) && 0.0 <= d.scale
    ensures var t := StepInstance(d, true, delta, cur, w, lookAt);
      0.6 * d.scale <= t.scale <= 1.4 * d.scale
  {
    var t := OrbitStep(d.orbit.value, d.scale, d.speed, delta, cur, w);
    assert StepInstance(d, true, delta, cur, w, lookAt) == t;
    assert t.scale == d.scale * (1.0 + w.sinThree * 0.4);
    PulseBounds(d.scale, w.sinThree, 0.4);
    assert (1.0 + 0.4) * d.scale == 1.4 * d.scale;
    assert t.scale <= (1.0 + 0.4) * d.scale;
  }

  /** A gliding light pulses between 0.7 and 1.3 times its scale. */
  lemma LightPulse(d: InstanceData, formed: bool, delta: real, cur: Transform, w: Waves, lookAt: (Vec3, Vec3) -> Vec3)
    requires ValidWaves(w) && (d.kind == Light || d.kind == BlueLight) && 0.0 <= d.scale
    ensures var t := StepInstance(d, formed, delta, cur, w, lookAt);
      0.7 * d.scale <= t.scale <= 1.3 * d.scale
  {
    var t := GlideStep(d, formed, delta, cur, w, lookAt);
    assert StepInstance(d, formed, delta, cur, w, lookAt) == t;
    assert t.scale == d.scale * (1.0 + w.glow * 0.3);
    PulseBounds(d.scale, w.glow, 0.3);
    assert (1.0 + 0.3) * d.scale == 1.3 * d.scale;
    assert t.scale <= (1.0 + 0.3) * d.scale;
  }
}
