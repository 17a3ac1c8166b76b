// One clickable envelope orbiting the tree: its animation class, stagger delay, orbit
// duration, starting place and the two gradients drawn from its colour.

module LetterEnvelope {
  import opened Wrappers
  import opened LetterModal

  /** The three animation phases of an envelope; a missing prop means orbiting. */
  datatype AnimationState = FlyingOut | FlyingIn | Orbiting

  const DefaultState: AnimationState := Orbiting

  const FlyOutClass: string := "animate-fly-out-from-gift"
  const FlyInClass: string := "animate-fly-into-gift"
  const OrbitClass: string := "animate-orbit-around-tree"

  /** Where an envelope is placed before its animation runs. */
  datatype Placement =
    | GiftAnchor                        // left 50%, top 100% - 32px: the gift box
    | Percent(left: real, top: real)    // left x%, top y%: its place on the orbit

  /** The CSS animation class of each state. */
  function AnimationClass(state: AnimationState): (c: string)
    ensures c in {FlyOutClass, FlyInClass, OrbitClass}
  {
    if state == FlyingOut then FlyOutClass
    else if state == FlyingIn then FlyInClass
    else OrbitClass
  }

  /** Different states get different classes, and the default state orbits. */
  lemma ClassesDistinct(s1: AnimationState, s2: AnimationState)
    ensures AnimationClass(s1) == AnimationClass(s2) <==> s1 == s2
    ensures AnimationClass(DefaultState) == OrbitClass
  {
  }

  /** The stagger delay in seconds, `index * 0.15`. */
  function AnimationDelay(index: nat): (d: real)
    ensures 0.0 <= d
  {
    index as real * 0.15
  }

  /** Later envelopes start strictly later. */
  lemma DelayIncreasing(i: nat, j: nat)
    requires i < j
    ensures AnimationDelay(i) < AnimationDelay(j)
  {
    assert AnimationDelay(j) - AnimationDelay(i) == (j - i) as real * 0.15;
  }

  /** The orbit period in seconds, `8 + (index % 4) * 2`. */
  function OrbitDuration(index: nat): (d: nat)
    ensures d in {8, 10, 12, 14}
  {
    8 + (index % 4) * 2
  }

  /** Envelopes four apart orbit at the same speed. */
  lemma OrbitPeriodic(index: nat)
    ensures OrbitDuration(index + 4) == OrbitDuration(index)
    ensures OrbitDuration(index) == 8 + 2 * (index % 4)
  {
    assert (index + 4) % 4 == index % 4;
  }

  /** `animationDuration`: the orbit period while orbiting, unset otherwise. */
  function AnimationDuration(state: AnimationState, index: nat): Option<nat>
  {
    if state == Orbiting then Some(OrbitDuration(index)) else None
  }

  /** The duration is set exactly while orbiting, and then it is one of the four periods. */
  lemma DurationOnlyWhileOrbiting(state: AnimationState, index: nat)
    ensures AnimationDuration(state, index).Some? <==> state == Orbiting
    ensures AnimationDuration(state, index).Some? ==>
      AnimationDuration(state, index).value in {8, 10, 12, 14}
  {
  }

  /** `getInitialPosition`. */
  function InitialPosition(state: AnimationState, x: real, y: real): Placement
  {
    if state == FlyingOut then GiftAnchor else Percent(x, y)
  }

  /** An envelope starts at the gift box iff it is flying out, and on its orbit otherwise. */
  lemma InitialAtGiftIffFlyingOut(state: AnimationState, x: real, y: real)
    ensures InitialPosition(state, x, y) == GiftAnchor <==> state == FlyingOut
    ensures state != FlyingOut ==> InitialPosition(state, x, y) == Percent(x, y)
  {
  }

  /** The two stops of the body gradient: the colour, then 20 darker. */
  function BodyEnd(color: string): (c: string)
    requires ValidColor(color)
    ensures |c| == 7 && c[0] == '#'
    ensures LowerHexColor(c)
  {
    AdjustBrightness(color, -20)
  }

  /** The first stop of the flap gradient: the colour, 10 lighter. */
  function FlapStart(color: string): (c: string)
    requires ValidColor(color)
    ensures |c| == 7 && c[0] == '#'
    ensures LowerHexColor(c)
  {
    AdjustBrightness(color, 10)
  }

  /** Channel by channel, the flap starts at least as light as the body ends. */
  lemma FlapLighterThanBody(color: string, k: nat)
    requires ValidColor(color) && k < 3
    ensures ChannelOut(FlapStart(color), k) >= ChannelOut(BodyEnd(color), k)
    ensures ChannelOut(FlapStart(color), k) == Clamp(ChannelIn(color, k) + 10)
    ensures ChannelOut(BodyEnd(color), k) == Clamp(ChannelIn(color, k) - 20)
  {
    MonotoneInAmount(color, -20, 10, k);
    ChannelsClamped(color, 10, k);
    ChannelsClamped(color, -20, k);
  }
}
