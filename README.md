# Merry Christmas Tree: a verified model of its state machines and arithmetic

This project models the decision logic of a React/three.js Christmas tree scene:

- The firework button. A click on the formed tree starts a timed show and a second click stops
  it. A one-second countdown ends the show. Launch attempts succeed 70 % of the time and come
  one at a time or in bursts of 1 to 3 every 600 ms. Rockets climb 8 pixels a frame and burst
  into 80 sparks. Sparks fall, slow down and burn out.
- The ornament pools and their per-frame motion. Balls, gifts and yellow and blue lights are
  bucketed by one random draw. There are fixed pools of 50 red orbiting particles and
  100 snowflakes. Snowflakes fall and wrap round to the top, red particles chase their orbit,
  and every other instance glides toward the position that matches the tree's mode.
- The letters overlay. Letters are chosen cyclically from `letters.json` and placed round the
  tree. They fly out of the gift box, orbit, and fly back in.
- The envelope's animation class, delay, orbit period and starting place.
- The `adjustBrightness` colour helper shared by the letter modal and the envelope.
- The zoom buttons and their indicator dots.
- The page's mode toggle, the fireworks lock, and the probe for photos under `/photos`.

Each source component is one module.

- Components whose handlers update state in place are classes: `FireworksButton`,
  `LettersOverlay` and `App`. Each class method is proved equal to a transition function on a
  datatype snapshot of its fields, via `State()`. The multi-step properties are lemmas about
  those functions.
- Loops are `while` loops proved equal to recursive definitions. These are the generation
  loops, the spark push loop, the two filters of the animation frame, the letter selection and
  the photo probe.
- Pure helpers are functions: `formatTime`, `adjustBrightness`, the envelope mappings and the
  zoom clamps.
- Timers, animation frames, `fetch` and `Math.random` do not run. Each timer expiry and each
  answer is an event, and each random draw is a parameter restricted to `[0, 1)`.
- `sin`, `cos`, `pow` and `acos` results are parameters in `[-1, 1]` or `[0, 1]`.
- Coordinates are exact reals.

Shared modules: `Wrappers` (Option), `Types` (`TreeMode`), and `Text`. `Text` provides
JavaScript's `toString(radix)`, `padStart`, `indexOf` and digit parsing. `Reals` provides
facts about real products.

Where the design and the code disagree, the model follows the code:

- `stopFireworks` does not cancel staggered launches that are still waiting. Their `setTimeout`
  handles are never stored in `timeoutsRef`.
- A spark moves by its old velocity before gravity and drag change that velocity.
- The unmount cleanup and `stopFireworks` are two separate routines.
- `stopFireworks` notifies `false` even when the show is already stopped.
- `exploded` is never set to true.

## Model

| member | source | states |
|---|---|---|
| FireworksButton.ColorIndex | components/FireworksButton.tsx:58 | `Math.floor(r * COLORS.length)` is always a valid colour index |
| FireworksButton.NewFireworkPlacement | components/FireworksButton.tsx:50-60 | a new rocket starts at y = height, x within the canvas, targetY in [100, 100 + 0.3·height) (closed when height is 0), a listed colour, not exploded |
| FireworksButton.LaunchAddsAtMostOne | components/FireworksButton.tsx:222-226 | a launch attempt keeps the old rockets and appends exactly one rocket iff the draw is > 0.3 and a canvas exists, otherwise none |
| FireworksButton.ExplodeFirework | components/FireworksButton.tsx:65-84 | the push loop yields exactly the sparks of the explosion's definition |
| FireworksButton.SparksIndexed | components/FireworksButton.tsx:68-83 | spark i is built from draw i, one spark per draw |
| FireworksButton.SparkIsFresh | components/FireworksButton.tsx:69-82 | each spark starts with life = maxLife in [50, 90) and size in [2, 5) |
| FireworksButton.ExplosionShape | components/FireworksButton.tsx:65-84 | an explosion makes exactly 80 fresh sparks at (x, targetY) in the rocket's colour |
| FireworksButton.AdvanceLast | components/FireworksButton.tsx:95-111 | the rocket filter decomposes rocket by rocket: a climber is kept 8 higher, a burster is replaced by its sparks, an exploded rocket is dropped |
| FireworksButton.AdvanceFireworks | components/FireworksButton.tsx:95-111 | the filter loop, with `explodeFirework` inside, computes the kept rockets and the new sparks of the definition |
| FireworksButton.AdvanceConserves | components/FireworksButton.tsx:95-111 | every unexploded rocket is either kept or turned into exactly 80 sparks |
| FireworksButton.AdvanceKeepsClimbers | components/FireworksButton.tsx:95-111 | a rocket is in the kept list iff it is some climbing rocket moved up by 8 |
| FireworksButton.AdvanceSparksFresh | components/FireworksButton.tsx:100 | every spark created in a frame is fresh |
| FireworksButton.AdvanceKeepsUnexploded | components/FireworksButton.tsx:96 | no kept rocket is exploded |
| FireworksButton.AgeParticles | components/FireworksButton.tsx:114-135 | the spark filter loop computes exactly the aged survivors of the definition |
| FireworksButton.AgeSurvivors | components/FireworksButton.tsx:114-121 | every spark whose life was above 1 survives as its stepped self; every survivor is some input spark stepped, with life > 0; there are never more survivors than sparks |
| FireworksButton.FreshIsAlive | components/FireworksButton.tsx:71-81 | a fresh spark satisfies the alive invariant |
| FireworksButton.AgeKeepsAlive | components/FireworksButton.tsx:119-121 | survivors of a frame stay alive and drop below full life |
| FireworksButton.OpacityBetween | components/FireworksButton.tsx:124 | a spark below full life is drawn with opacity life/maxLife strictly between 0 and 1 |
| FireworksButton.AgeLowersLife | components/FireworksButton.tsx:119 | if every spark's life is at most a bound, every survivor's life is at most that bound minus one |
| FireworksButton.AgeSpent | components/FireworksButton.tsx:119-121 | sparks with at most one life left all disappear in the next frame |
| FireworksButton.SparksBurnOut | components/FireworksButton.tsx:114-121 | with no new sparks, sparks of life at most n are all gone after n frames |
| FireworksButton.BurstSize | components/FireworksButton.tsx:233 | a burst has 1 to 3 launches |
| FireworksButton.InitialInv | components/FireworksButton.tsx:40-48 | the mounted component is inactive, has notified nothing, and satisfies the invariant |
| FireworksButton.ClickOutsideFormed | components/FireworksButton.tsx:189-192 | a click outside the formed tree changes nothing and notifies nothing |
| FireworksButton.ClickWhileActiveStops | components/FireworksButton.tsx:194-197 | a click on a running show stops it: inactive, clock 0, lists empty, intervals and frame cleared, `false` notified |
| FireworksButton.ClickWhileInactiveStarts | components/FireworksButton.tsx:198-229 | a click on a stopped show sets active and duration·60 seconds, notifies `true` once, sets both intervals, and adds a rocket iff the draw is > 0.3 with a canvas |
| FireworksButton.SecondStopNotifiesAgain | components/FireworksButton.tsx:146-151 | stopping twice is the same as stopping once except that `false` is notified twice |
| FireworksButton.TicksCountDown | components/FireworksButton.tsx:211-219 | before one second is left, each tick takes exactly one second off and changes nothing else |
| FireworksButton.CountdownRunsOut | components/FireworksButton.tsx:211-219 | from n ≥ 1 seconds the show is active for the first n − 1 ticks, and tick n stops it with the clock at 0, lists empty and `false` notified |
| FireworksButton.BurstSchedules | components/FireworksButton.tsx:232-236 | a burst appends 1 to 3 staggered launches at 0, 100, 200 ms, keeps earlier ones, and stores none in `timeoutsRef` |
| FireworksButton.StopLeavesStaggeredLaunches | components/FireworksButton.tsx:235 | after a stop, a waiting staggered launch still fires and adds a rocket to the stopped show |
| FireworksButton.FrameConserves | components/FireworksButton.tsx:86-144 | a frame keeps or bursts each rocket, keeps at most the old plus new sparks, and requests another frame iff active or anything is left |
| FireworksButton.FrameKeepsRunning | components/FireworksButton.tsx:137-139 | while active with a canvas, each frame requests the next |
| FireworksButton.FrameWithoutCanvas | components/FireworksButton.tsx:87-89 | without a canvas a frame only ends the animation loop |
| FireworksButton.LaunchInv | components/FireworksButton.tsx:222-226 | a launch attempt keeps the show invariant |
| FireworksButton.ClickInv | components/FireworksButton.tsx:185-239 | every click keeps the show invariant (intervals set exactly while active, `timeoutsRef` empty, kept rockets unexploded, sparks alive) |
| FireworksButton.TimersInv | components/FireworksButton.tsx:211-236 | countdown ticks, bursts and staggered launches keep the invariant |
| FireworksButton.FrameInv | components/FireworksButton.tsx:86-144 | a frame keeps the invariant |
| FireworksButton.FormatTimeShape | components/FireworksButton.tsx:303-307 | `formatTime` is the decimal minutes, a colon, and exactly two digits: the tens and the units of seconds mod 60 |
| FireworksButton.TwoDigits | components/FireworksButton.tsx:306 | two decimal digits denote tens·10 + units |
| FireworksButton.FormatTimeRoundTrip | components/FireworksButton.tsx:303-307 | reading the printed clock back as minutes·60 + seconds gives the original seconds |
| FireworksButton.FireworksButton.constructor | components/FireworksButton.tsx:40-48 | mounting gives the initial show |
| FireworksButton.FireworksButton.StopFireworks | components/FireworksButton.tsx:146-183 | `stopFireworks` in place: the show becomes `Stop` of the old show |
| FireworksButton.FireworksButton.CreateFirework | components/FireworksButton.tsx:50-63 | `createFirework` in place: no change without a canvas, else one rocket pushed |
| FireworksButton.FireworksButton.LaunchFirework | components/FireworksButton.tsx:222-226 | `launchFirework` in place |
| FireworksButton.FireworksButton.HandleClick | components/FireworksButton.tsx:185-239 | `handleClick` in place: the show becomes `Click` of the old show |
| FireworksButton.FireworksButton.CountdownTick | components/FireworksButton.tsx:211-219 | one expiry of the countdown interval in place |
| FireworksButton.FireworksButton.BurstTick | components/FireworksButton.tsx:232-237 | one expiry of the burst interval: its loop appends the delays 0, 100, … of 1 to 3 launches |
| FireworksButton.FireworksButton.StaggeredLaunch | components/FireworksButton.tsx:235 | a staggered launch fires: it leaves the waiting list and makes a launch attempt |
| FireworksButton.FireworksButton.Animate | components/FireworksButton.tsx:86-144 | one `animate` frame in place, through the two filter loops |
| Ornaments.TypeBuckets | components/Ornaments.tsx:62-66 | the type is ball iff rnd < 0.5, gift iff 0.5 ≤ rnd < 0.8, light iff 0.8 ≤ rnd < 0.9, blue light iff rnd ≥ 0.9 |
| Ornaments.PaletteIndex | components/Ornaments.tsx:101 | the palette index is always valid |
| Ornaments.MainInstanceRanges | components/Ornaments.tsx:94-112 | lights have scale exactly 0.1 and their own colour; balls and gifts have scale in [0.13, 0.21) and a palette colour; speed in [0.5, 2.0); formed height in [0.5, 11.5) |
| Ornaments.MainInstancesIndexed | components/Ornaments.tsx:60-112 | main ornament i is built from draw i |
| Ornaments.OfKindKeeps | components/Ornaments.tsx:114-117 | filtering by a type keeps every instance of that type |
| Ornaments.MainPoolsPartition | components/Ornaments.tsx:114-117 | each of the four main lists is exactly the generated ornaments of its type, in generation order; the red-particle and snowflake lists stay empty; the four lengths sum to `count` |
| Ornaments.MainPoolsMembership | components/Ornaments.tsx:114-117 | every generated ornament is in the list of the type its draw picked |
| Ornaments.GenerateMain | components/Ornaments.tsx:61-118 | the main generation loop computes the pools of the definition |
| Ornaments.GenerateRedParticles | components/Ornaments.tsx:131-168 | the red-particle loop computes the 50 particles of the definition |
| Ornaments.GenerateSnowflakes | components/Ornaments.tsx:185-224 | the snowflake loop computes the 100 flakes of the definition |
| Ornaments.GenerateOrnaments | components/Ornaments.tsx:42-227 | the whole generation computes the six pools of the definition |
| Ornaments.RedInstancesIndexed | components/Ornaments.tsx:131-168 | red particle i comes from draw i |
| Ornaments.SnowInstancesIndexed | components/Ornaments.tsx:185-224 | snowflake i comes from draw i |
| Ornaments.SnowInstanceInRange | components/Ornaments.tsx:187-221 | a snowflake restarts from a height in [15, 25), starts in (−2, that height], has scale in [0.05, 0.15) |
| Ornaments.GenerateShape | components/Ornaments.tsx:122-185 | generation makes exactly 50 red particles and 100 snowflakes whatever `count` is, all in range, plus `count` sorted main ornaments |
| Ornaments.UpdateMesh | components/Ornaments.tsx:253-393 | every instance's transform in the mesh array is replaced by its step; a missing mesh is skipped |
| Ornaments.LerpDistance | components/Ornaments.tsx:363-364 | a lerp multiplies the squared distance to the destination by (1 − step)² |
| Ornaments.LerpAxis | components/Ornaments.tsx:364 | the same factor holds for each coordinate |
| Ornaments.LerpApproaches | components/Ornaments.tsx:363-364 | with a step in [0, 2] the lerp never moves away from its destination |
| Ornaments.ScatterGlides | components/Ornaments.tsx:326-364 | outside the formed mode every instance, snowflakes and red particles included, lerps toward its scattered position and does not move away from it |
| Ornaments.FormedGlides | components/Ornaments.tsx:326-369 | on the formed tree the generic rule lerps toward the target, and only within 0.5 of it does the wobble move y, by at most 0.002 |
| Ornaments.SnowflakeFalls | components/Ornaments.tsx:260-294 | a formed snowflake drops by fallSpeed·delta; below −2 it restarts at resetHeight within radius 15; it spins by delta·(0.5, 0.3, 0.2) and keeps its scale |
| Ornaments.OrbiterChases | components/Ornaments.tsx:298-321 | a formed red particle moves by the lerp toward its orbit point (cos·radius, height, sin·radius), which brings it no farther away for a step in [0, 2], then floats; its rotation is kept |
| Ornaments.FloatBounds | components/Ornaments.tsx:312 | the floating effect moves a point only vertically, by at most 0.02 |
| Ornaments.RingPoint | components/Ornaments.tsx:278-281 | a restart point at angle (cos, sin) and radius r lies at distance r from the axis |
| Ornaments.PulseBounds | components/Ornaments.tsx:315-316 | a pulse 1 + sin·k keeps a scale within [1 − k, 1 + k] times itself |
| Ornaments.RedParticlePulse | components/Ornaments.tsx:315-316 | an orbiting red particle's scale stays in [0.6, 1.4]·scale |
| Ornaments.LightPulse | components/Ornaments.tsx:380-385 | a light's scale stays in [0.7, 1.3]·scale |
| LettersOverlay.Selection | components/LettersOverlay.tsx:43-47 | the selection has `letterCount` entries |
| LettersOverlay.SelectLetters | components/LettersOverlay.tsx:43-47 | the push loop computes the selection of the definition |
| LettersOverlay.SelectionIndexed | components/LettersOverlay.tsx:45-46 | entry i is `data[i mod |data|]`, or undefined when the file is empty |
| LettersOverlay.SelectionCycles | components/LettersOverlay.tsx:45-46 | with nonempty data entry i is letter i mod |data|, and the list repeats with period |data| |
| LettersOverlay.SelectionCoversData | components/LettersOverlay.tsx:45-46 | when at least |data| letters are shown, the first |data| entries are the file in order |
| LettersOverlay.EmptyDataSelectsNothing | components/LettersOverlay.tsx:45-46 | an empty file yields `letterCount` undefined entries |
| LettersOverlay.RadiusX | components/LettersOverlay.tsx:73 | the horizontal radius lies in [15, 25) |
| LettersOverlay.RadiusY | components/LettersOverlay.tsx:74 | the vertical radius lies in [12, 20) |
| LettersOverlay.Offset | components/LettersOverlay.tsx:78 | the random angle offset lies in [−15, 15) |
| LettersOverlay.BaseAngle | components/LettersOverlay.tsx:77 | the even share 360·index/total lies in [0, 360) |
| LettersOverlay.PositionAngle | components/LettersOverlay.tsx:77-79 | a letter's angle is within [−15, 15) of 360·index/total |
| LettersOverlay.PositionOnEllipse | components/LettersOverlay.tsx:82-84 | a letter lies on the drawn ellipse round (50, 50): ((x − 50)/radiusX)² + ((y − 50)/radiusY)² = 1, so less than 25 across and 20 up or down |
| LettersOverlay.OnAxis | components/LettersOverlay.tsx:83-84 | an offset of radius·c along an axis contributes c² to the ellipse equation |
| LettersOverlay.Positions | components/LettersOverlay.tsx:50-52 | there are `letterCount` positions |
| LettersOverlay.OnePositionPerLetter | components/LettersOverlay.tsx:50-52 | one position per selected letter, position i placed for index i of `letterCount` |
| LettersOverlay.EffectIdempotent | components/LettersOverlay.tsx:99-125 | re-running the gift-box effect on its own result changes nothing |
| LettersOverlay.MountIdle | components/LettersOverlay.tsx:26-31 | on mount the overlay is loading, the effect is idle, and one request is made iff active |
| LettersOverlay.OpenFliesOut | components/LettersOverlay.tsx:101-109 | opening the box while active and loaded sets flying-out and shows the letters with the 1800 ms timer; its expiry sets orbiting; nothing else changes |
| LettersOverlay.CloseFliesIn | components/LettersOverlay.tsx:112-121 | closing the box while letters show sets flying-in with the 1500 ms timer; its expiry hides them |
| LettersOverlay.CloseWhileHidden | components/LettersOverlay.tsx:112-124 | closing the box while letters are hidden changes nothing but the prop |
| LettersOverlay.LoadOnlyWhenActive | components/LettersOverlay.tsx:61-64 | a request starts iff the overlay turns active |
| LettersOverlay.FirstLoad | components/LettersOverlay.tsx:35-59 | a failed first load ends loading and leaves no letters; a successful one selects and places `letterCount` letters |
| LettersOverlay.RenderGuards | components/LettersOverlay.tsx:127-155 | something renders iff active, loaded and showing; envelopes iff also no letter is selected; otherwise the selected letter's modal |
| LettersOverlay.EnvelopesMatchLetters | components/LettersOverlay.tsx:135-145 | envelope i carries letter i's colour, position i, index i and the overlay's animation state |
| LettersOverlay.ClickThenClose | components/LettersOverlay.tsx:89-95 | clicking a shown envelope opens its letter in place of the envelopes; closing the modal restores the state |
| LettersOverlay.SetPropsInv | components/LettersOverlay.tsx:99-125 | new props keep the overlay invariant (a pending timer only while shown, flying-out with the box open, flying-in with it closed) |
| LettersOverlay.LoadedInv | components/LettersOverlay.tsx:43-56 | a successful load keeps the invariant |
| LettersOverlay.LoadFailedInv | components/LettersOverlay.tsx:57-59 | a failed load keeps the invariant |
| LettersOverlay.ExpireInv | components/LettersOverlay.tsx:106-118 | timer expiries keep the invariant |
| LettersOverlay.ClickInv | components/LettersOverlay.tsx:89-95 | clicks keep the invariant |
| LettersOverlay.LettersOverlay.constructor | components/LettersOverlay.tsx:26-31 | the mounted overlay is `Mount` |
| LettersOverlay.LettersOverlay.RunEffect | components/LettersOverlay.tsx:99-125 | the gift-box effect in place |
| LettersOverlay.LettersOverlay.Settle | components/LettersOverlay.tsx:125 | the effect runs again exactly when a dependency changed |
| LettersOverlay.LettersOverlay.ReceiveProps | components/LettersOverlay.tsx:34-64 | new props in place |
| LettersOverlay.LettersOverlay.LoadLetters | components/LettersOverlay.tsx:38-56 | a successful load in place, through the selection loop |
| LettersOverlay.LettersOverlay.LoadError | components/LettersOverlay.tsx:57-59 | a failed load in place |
| LettersOverlay.LettersOverlay.TimerExpires | components/LettersOverlay.tsx:106-118 | the pending timer fires in place |
| LettersOverlay.LettersOverlay.HandleLetterClick | components/LettersOverlay.tsx:89-91 | `handleLetterClick` in place |
| LettersOverlay.LettersOverlay.HandleCloseModal | components/LettersOverlay.tsx:93-95 | `handleCloseModal` in place |
| LetterEnvelope.AnimationClass | components/LetterEnvelope.tsx:25-30 | the class is one of the three animation classes |
| LetterEnvelope.ClassesDistinct | components/LetterEnvelope.tsx:18-30 | two states share a class iff they are equal, and the default state orbits |
| LetterEnvelope.AnimationDelay | components/LetterEnvelope.tsx:21 | the stagger delay is non-negative |
| LetterEnvelope.DelayIncreasing | components/LetterEnvelope.tsx:21 | later envelopes start strictly later |
| LetterEnvelope.OrbitDuration | components/LetterEnvelope.tsx:22 | the orbit period is 8, 10, 12 or 14 seconds |
| LetterEnvelope.OrbitPeriodic | components/LetterEnvelope.tsx:22 | envelopes four apart orbit with the same period |
| LetterEnvelope.DurationOnlyWhileOrbiting | components/LetterEnvelope.tsx:57 | a duration is set iff the state is orbiting, and then it is one of the four periods |
| LetterEnvelope.InitialAtGiftIffFlyingOut | components/LetterEnvelope.tsx:33-47 | the envelope starts at the gift box iff it flies out, on its orbit position otherwise |
| LetterEnvelope.BodyEnd | components/LetterEnvelope.tsx:71 | the body gradient's end is `#` and six lower-case hex digits |
| LetterEnvelope.FlapStart | components/LetterEnvelope.tsx:78 | the flap gradient's start is `#` and six lower-case hex digits |
| LetterEnvelope.FlapLighterThanBody | components/LetterEnvelope.tsx:71-78 | channel by channel the flap start, clamp(c + 10), is at least the body end, clamp(c − 20) |
| LetterModal.Hex | components/LetterModal.tsx:153 | a readable colour has six hex digits after its first `#` goes |
| LetterModal.Clamp | components/LetterModal.tsx:154 | `max(0, min(255, v))` lies in [0, 255], is v in range, 0 below and 255 above |
| LetterModal.ParsePair | components/LetterModal.tsx:154 | `parseInt` of two hex digits is 16·first + second, below 256 |
| LetterModal.ChannelIn | components/LetterModal.tsx:154-156 | each parsed channel is below 256 |
| LetterModal.Byte | components/LetterModal.tsx:157 | a channel prints as two lower-case hex digits |
| LetterModal.HexColor | components/LetterModal.tsx:157 | the template prints `#` and six lower-case hex digits |
| LetterModal.AdjustBrightness | components/LetterModal.tsx:152-158 | the result is always `#` followed by six lower-case hex digits |
| LetterModal.ChannelOut | components/LetterModal.tsx:157 | a printed channel reads back below 256 |
| LetterModal.ByteValue | components/LetterModal.tsx:157 | a printed channel reads back as itself |
| LetterModal.HexColorSlices | components/LetterModal.tsx:157 | the colour is `#` and the three printed bytes |
| LetterModal.HexColorChannels | components/LetterModal.tsx:157 | reading a printed colour back gives the channels it was printed from |
| LetterModal.ChannelsClamped | components/LetterModal.tsx:154-157 | each output channel is clamp(input channel + amount, 0, 255) |
| LetterModal.LowerDigitRoundTrip | components/LetterModal.tsx:157 | a lower-case digit parses and prints back as itself |
| LetterModal.PairRoundTrip | components/LetterModal.tsx:154-157 | printing a parsed lower-case pair gives the pair back |
| LetterModal.LowerHexIsValid | components/LetterModal.tsx:153 | a lower-case `#rrggbb` is readable, and its digits are everything after the `#` |
| LetterModal.LowerChannelRoundTrip | components/LetterModal.tsx:154-157 | each channel of a lower-case colour prints back as the pair it was read from |
| LetterModal.AdjustByZero | components/LetterModal.tsx:154-157 | amount 0 prints the parsed channels unchanged |
| LetterModal.ZeroAmountIsIdentity | components/LetterModal.tsx:152-158 | amount 0 returns a lower-case `#rrggbb` unchanged |
| LetterModal.StripLeadingHash | components/LetterModal.tsx:153 | `replace('#', '')` removes a leading `#` |
| LetterModal.StripKeepsDigits | components/LetterModal.tsx:153 | a colour without `#` in its first six characters keeps its six digits |
| LetterModal.HashOptional | components/LetterModal.tsx:153 | `#rrggbb` and `rrggbb` give the same result |
| LetterModal.SameDigitsSameResult | components/LetterModal.tsx:153-157 | the result depends only on the six digits read |
| LetterModal.MonotoneInAmount | components/LetterModal.tsx:154-156 | each output channel is monotone in amount |
| LetterModal.SaturatedChannels | components/LetterModal.tsx:154-156 | amount ≥ 255 saturates every channel to 255 and amount ≤ −255 empties it to 0 |
| LetterModal.Grey | components/LetterModal.tsx:157 | the saturated colours print as `#000000` and `#ffffff` |
| LetterModal.SaturatesToWhite | components/LetterModal.tsx:152-158 | amount ≥ 255 gives `#ffffff` |
| LetterModal.SaturatesToBlack | components/LetterModal.tsx:152-158 | amount ≤ −255 gives `#000000` |
| Text.DigitValue | components/LetterModal.tsx:154-156 | `parseInt` gives a digit character a value in 0..15, either case, and -1 for a non-digit |
| Text.DigitCharValue | components/LetterModal.tsx:157 | the digit `toString(radix)` emits for d is lower-case and reads back as d |
| Text.ToRadix | components/LetterModal.tsx:157 | `n.toString(radix)` is never empty |
| Text.PadStart | components/LetterModal.tsx:157 | `padStart(len, c)` has length max(len, the string's length) |
| Text.LeadingZero | components/FireworksButton.tsx:306 | a leading zero keeps a digit string's value |
| Text.IndexOf | components/LetterModal.tsx:153 | `indexOf` returns a position within the string holding the character, or the string's length when it is absent |
| Text.IndexOfFirst | components/LetterModal.tsx:153 | no character before the position `indexOf` returns is the searched one |
| Text.ToRadixRoundTrip | components/LetterModal.tsx:157 | `n.toString(radix)` reads back as n |
| Text.ToRadixDigits | components/LetterModal.tsx:157 | `toString(radix)` emits lower-case digits with no leading zero |
| Text.PadStartShape | components/LetterModal.tsx:157 | `padStart` prepends the fill up to the length and keeps the string as its suffix |
| Text.ZeroPadKeepsValue | components/FireworksButton.tsx:306 | zero padding keeps the number a digit string denotes |
| Text.HexPair | components/LetterModal.tsx:157 | a byte prints as its two hex digits, high one first |
| Text.DecimalPair | components/FireworksButton.tsx:306 | seconds below 100 print as their two decimal digits |
| Text.IndexOfAt | components/LetterModal.tsx:153 | the first occurrence is found at the first position holding the character |
| ZoomControls.ZoomIn | components/ZoomControls.tsx:17-19 | zoom-in gives max(minZoom, z − 3): at least both, and equal to one of them |
| ZoomControls.ZoomOut | components/ZoomControls.tsx:22-24 | zoom-out gives min(maxZoom, z + 3): at most both, and equal to one of them |
| ZoomControls.ZoomStaysInRange | components/ZoomControls.tsx:17-24 | from an in-range zoom both buttons stay in range, zoom-in not above z and zoom-out not below it |
| ZoomControls.ZoomRoundTrip | components/ZoomControls.tsx:17-24 | zoomOut(zoomIn(z)) = z when z − 3 ≥ minZoom and z ≤ maxZoom |
| ZoomControls.DisabledIffNoEffect | components/ZoomControls.tsx:27-28 | for an in-range zoom a button is disabled iff pressing it would not change the zoom |
| ZoomControls.DotLevels | components/ZoomControls.tsx:73 | three dots at min, the midpoint and max |
| ZoomControls.ActiveDots | components/ZoomControls.tsx:73-78 | dot i is lit iff |z − level i| < 5 |
| ZoomControls.AtMostOneDot | components/ZoomControls.tsx:73-78 | with the default range 8..50 at most one dot is lit, and the end dot is lit within 5 of each end |
| App.ToggleMode | App.tsx:111-113 | toggling always changes the mode |
| App.ToggleInvolution | App.tsx:111-113 | toggling swaps FORMED and CHAOS, and twice restores the mode |
| App.LockFollowsFireworks | App.tsx:131-135 | after the fireworks change both the active flag and the lock equal the new value, nothing else changes |
| App.InitialPage | App.tsx:53-62 | the page starts formed, zoom 28, no show, no lock, box closed, no photos |
| App.FirstFrom | App.tsx:79-92 | a found extension index is valid, from the starting one on, and answered ok; when none is found, no extension from the starting one on was answered ok |
| App.Paths | App.tsx:86 | one path per found photo |
| App.ProbePhotos | App.tsx:72-93 | the nested probe loop with `break` records exactly the paths of the definition |
| App.HitsAscending | App.tsx:75-87 | at most 22 photos, at most one per index, in ascending index order within 1..22 |
| App.HitsFirstPresent | App.tsx:79-88 | each recorded photo's extension is the first one answered ok for its index |
| App.FirstFromIsFirst | App.tsx:77-88 | no extension tried before the recorded one was answered ok: an error or a throw counts as absent |
| App.FirstFromFinds | App.tsx:79-88 | when some extension from the starting one on is answered ok, the search finds one at or before it |
| App.HitsComplete | App.tsx:75-88 | every index with some extension answered ok is recorded, with that extension or an earlier ok one |
| App.PathsShape | App.tsx:80 | each path is `/photos/photo{i}.{ext}` with decimal digits that read back as i |
| App.PhotoLoadOutcome | App.tsx:65-105 | loading is on during the probe and off after it; photos are replaced only when some were found |
| App.App.constructor | App.tsx:53-62 | the page starts in the initial state |
| App.App.HandleToggle | App.tsx:111-113 | `toggleMode` in place |
| App.App.HandleFireworksActiveChange | App.tsx:131-135 | `handleFireworksActiveChange` in place |
| App.App.HandleZoomChange | App.tsx:137-139 | `handleZoomChange` in place |
| App.App.HandleGiftBoxToggle | App.tsx:141-143 | `handleGiftBoxToggle` in place |
| App.App.LoadPhotosFromDirectory | App.tsx:66-106 | `loadPhotosFromDirectory` in place, through the probe loop |

## Left out

- Canvas drawing, three.js matrix decomposition, `setMatrixAt`, `setColorAt` and the `needsUpdate` flags: these are calls into rendering libraries. The model keeps the transforms they would write.
- The `lookAt` orientation of balls is a parameter: it is three.js's quaternion arithmetic. `rotationOffset` is generated but never read by the frame rule, so it is not modelled.
- `sin`, `cos`, `pow`, `acos` and `Math.random` do not run. Their results are parameters with their ranges. The snowflake restart point and a letter's position assume their cosine and sine satisfy cos² + sin² = 1. A letter's cosine and sine are not tied to the value of its `angle`.
- Floating point: arithmetic is on exact reals and integers. IEEE rounding, NaN and the printing of reals in CSS strings are not modelled.
- The frame callback of the ornaments makes six `updateMesh` calls, one per mesh and list. The model has one call, `Ornaments.UpdateMesh`, which each of the six would make.
- Ornaments.LerpApproaches: the step `delta·speed` is not clamped in the source, so the lemma requires it to lie in [0, 2]. Outside that range the lerp overshoots.
- Real timers, `requestAnimationFrame`, React effect scheduling and async continuations: each expiry, frame, answer and prop change is an explicit event.
- The stale `isActive` captured by `animate`: each frame reads the current state.
- The unmount cleanup of the firework button and the window resize listener.
- Console logging.
- The letter modal's Escape and backdrop click handlers.
- `fetch`: the photo probe asks a `probe` oracle, and the letter load is split into a success event and a failure event. JSON that is not an array of letters is not modelled.
- App.App.LoadPhotosFromDirectory: the async probe is one atomic step. It does not interleave with other handlers, so an upload that lands while the probe awaits, and is then overwritten when photos are found, is not modelled.
- LettersOverlay.LoadLetters: concurrent requests complete in any order, each as an event. The model does not track which request an answer belongs to.
- The crash on an empty `letters.json`: every selected entry is then undefined, and the overlay's render throws a TypeError at `letter.color` (components/LettersOverlay.tsx:140) before any envelope exists. The model does not crash: `LettersOverlay.Render` produces envelopes whose colour is `None`.
- LetterModal.AdjustBrightness: requires the six characters it parses to be hex digits. A malformed colour takes `parseInt`'s partial-parse path (`"1g"` reads as 1) or its NaN path; neither is modelled.
- FireworksButton.FireworksButton.constructor: `durationMinutes` is a natural number. A fractional or negative duration is not modelled.
- components/UIOverlay.tsx, components/GiftBox.tsx and vite.config.ts: markup, a click toggle, and build configuration.
- The letter load effect also reruns when `letterCount` changes. In the model `letterCount` is fixed at mount.
- The mode lock's effect on gesture input: `GestureController` and `types.ts` are not part of this model.
