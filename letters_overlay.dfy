// The overlay of letters that fly out of the gift box and orbit the tree while the firework
// show runs. Loading the letter file, the two animation timers and the clicks are events;
// each event is a transition function on `Overlay`, and the class runs them in place.

module LettersOverlay {
  import opened Wrappers
  import opened Reals
  import opened LetterEnvelope

  /** One entry of `letters.json`. */
  datatype Letter = Letter(id: int, title: string, content: string, from: string, color: string)

  /** A place on the orbit, in percent of the screen, with its angle in degrees. */
  datatype LetterPosition = LetterPosition(x: real, y: real, angle: real)

  /**
   * The three `Math.random()` draws of one position, in call order (horizontal radius,
   * vertical radius, angle offset), and the cosine and sine of the resulting angle, which lie
   * on the unit circle.
   */
  datatype PositionDraw = PositionDraw(rx: real, ry: real, offset: real, cos: real, sin: real)

  predicate ValidDraw(d: PositionDraw)
  {
    0.0 <= d.rx < 1.0 && 0.0 <= d.ry < 1.0 && 0.0 <= d.offset < 1.0
    && -1.0 <= d.cos <= 1.0 && -1.0 <= d.sin <= 1.0
    && d.cos * d.cos + d.sin * d.sin == 1.0
  }

  predicate ValidDraws(draws: seq<PositionDraw>)
  {
    forall i :: 0 <= i < |draws| ==> ValidDraw(draws[i])
  }

  const DefaultLetterCount: nat := 5
  /** The tree stands at the centre of the screen. */
  const CenterX: real := 50.0
  const CenterY: real := 50.0

  // ---------------------------------------------------------------------------
  // Choosing the letters
  // ---------------------------------------------------------------------------

  /**
   * Entry `i` of the selection: `data[i % data.length]`. With no data the index is NaN and
   * the entry is `undefined`.
   */
  function Pick(data: seq<Letter>, i: nat): Option<Letter>
  {
    if |data| == 0 then None else Some(data[i % |data|])
  }

  /** The first `n` entries the selection loop pushes. */
  function Selection(data: seq<Letter>, n: nat): (r: seq<Option<Letter>>)
    ensures |r| == n
  {
    if n == 0 then [] else Selection(data, n - 1) + [Pick(data, n - 1)]
  }

  /** The selection loop of `loadLetters`. */
  method SelectLetters(data: seq<Letter>, letterCount: nat) returns (selected: seq<Option<Letter>>)
    ensures selected == Selection(data, letterCount)
  {
    selected := [];
    var i := 0;
    while i < letterCount
      invariant 0 <= i <= letterCount
      invariant selected == Selection(data, i)
    {
      selected := selected + [Pick(data, i)];
      i := i + 1;
    }
  }

  /** The selection holds `n` entries, entry `i` cycling through the data. */
  lemma {:induction false} SelectionIndexed(data: seq<Letter>, n: nat)
    ensures forall i :: 0 <= i < n ==> Selection(data, n)[i] == Pick(data, i)
  {
    if n > 0 {
      SelectionIndexed(data, n - 1);
    }
  }

  /** With nonempty data, entry `i` is letter `i mod |data|`, and the list repeats with that period. */
  lemma SelectionCycles(data: seq<Letter>, n: nat, i: nat)
    requires 0 < |data| && i < n
    ensures Selection(data, n)[i] == Some(data[i % |data|])
    ensures i + |data| < n ==> Selection(data, n)[i + |data|] == Selection(data, n)[i]
  {
    SelectionIndexed(data, n);
    if i + |data| < n {
      ModShift(i, |data|);
    }
  }

  /** Adding the modulus leaves the remainder unchanged. */
  lemma ModShift(i: nat, m: nat)
    requires 0 < m
    ensures (i + m) % m == i % m
  {
    ModUnique(i + m, m, i / m + 1, i % m);
  }

  /** A remainder is the only one in range. */
  lemma ModUnique(x: int, m: int, q: int, r: int)
    requires 0 < m && x == q * m + r && 0 <= r < m
    ensures x % m == r
  {
    var q0, r0 := x / m, x % m;
    assert x == q0 * m + r0;
    var k := q - q0;
    assert k * m == r0 - r;
    if k >= 1 {
      assert false;
    } else if k <= -1 {
      assert false;
    }
  }

  /** When at least as many letters are shown as the file holds, every letter appears, in file order first. */
  lemma SelectionCoversData(data: seq<Letter>, n: nat, j: nat)
    requires j < |data| <= n
    ensures Selection(data, n)[j] == Some(data[j])
  {
    SelectionIndexed(data, n);
  }

  /** An empty file still yields `n` entries, all undefined. */
  lemma EmptyDataSelectsNothing(data: seq<Letter>, n: nat, i: nat)
    requires |data| == 0 && i < n
    ensures Selection(data, n)[i] == None
  {
    SelectionIndexed(data, n);
  }

  // ---------------------------------------------------------------------------
  // Placing the letters
  // ---------------------------------------------------------------------------

  /** `15 + Math.random() * 10`. */
  function RadiusX(d: PositionDraw): (r: real)
    requires ValidDraw(d)
    ensures 15.0 <= r < 25.0
  {
    15.0 + Scale(d.rx, 10.0)
  }

  /** `12 + Math.random() * 8`. */
  function RadiusY(d: PositionDraw): (r: real)
    requires ValidDraw(d)
    ensures 12.0 <= r < 20.0
  {
    12.0 + Scale(d.ry, 8.0)
  }

  /** `(Math.random() - 0.5) * 30`. */
  function Offset(d: PositionDraw): (o: real)
    requires ValidDraw(d)
    ensures -15.0 <= o < 15.0
  {
    (d.offset - 0.5) * 30.0
  }

  /** `(index / total) * 360`, the even share of the circle. */
  function BaseAngle(index: nat, total: nat): (a: real)
    requires index < total
    ensures 0.0 <= a < 360.0
  {
    var q := index as real / total as real;
    if index == 0 then
      assert q == 0.0;
      Scale(q, 360.0)
    else
      RatioBetween(index as real, total as real);
      Scale(q, 360.0)
  }

  /** `generatePositionAroundTree`. */
  function PositionAroundTree(index: nat, total: nat, d: PositionDraw): LetterPosition
    requires index < total && ValidDraw(d)
  {
    LetterPosition(
      CenterX + RadiusX(d) * d.cos,
      CenterY + RadiusY(d) * d.sin,
      BaseAngle(index, total) + Offset(d))
  }

  /** `|r * c| <= r` for a cosine or sine `c` and a radius `r`. */
  lemma OnRadius(r: real, c: real)
    requires 0.0 <= r && -1.0 <= c <= 1.0
    ensures -r <= r * c <= r
  {
    MulMono(c, 1.0, r);
    MulMono(-1.0, c, r);
  }

  /** A letter sits within 15 degrees of its even share of the circle. */
  lemma PositionAngle(index: nat, total: nat, d: PositionDraw)
    requires index < total && ValidDraw(d)
    ensures -15.0 <= PositionAroundTree(index, total, d).angle - BaseAngle(index, total) < 15.0
  {
  }

  /**
   * A letter sits on the ellipse round the centre whose radii are the drawn ones, so less than
   * 25 to either side and 20 up or down.
   */
  lemma PositionOnEllipse(index: nat, total: nat, d: PositionDraw)
    requires index < total && ValidDraw(d)
    ensures var p := PositionAroundTree(index, total, d);
      EllipseSq(p.x - CenterX, RadiusX(d)) + EllipseSq(p.y - CenterY, RadiusY(d)) == 1.0
    ensures -25.0 < PositionAroundTree(index, total, d).x - CenterX < 25.0
    ensures -20.0 < PositionAroundTree(index, total, d).y - CenterY < 20.0
  {
    var p := PositionAroundTree(index, total, d);
    assert p.x - CenterX == RadiusX(d) * d.cos && p.y - CenterY == RadiusY(d) * d.sin;
    OnAxis(RadiusX(d), d.cos);
    OnAxis(RadiusY(d), d.sin);
    OnRadiusBelow(RadiusX(d), d.cos, 25.0);
    OnRadiusBelow(RadiusY(d), d.sin, 20.0);
  }

  /** `(offset / radius)²`, one term of the ellipse equation. */
  function EllipseSq(offset: real, radius: real): real
    requires radius != 0.0
  {
    (offset / radius) * (offset / radius)
  }

  /** An offset of `r * c` along an axis of radius `r` contributes `c²` to the ellipse equation. */
  lemma OnAxis(r: real, c: real)
    requires r != 0.0
    ensures EllipseSq(r * c, r) == c * c
  {
    assert (r * c) / r == c;
  }

  /** A radius below `b` times a cosine or sine lies strictly between `-b` and `b`. */
  lemma OnRadiusBelow(r: real, c: real, b: real)
    requires 0.0 <= r < b && -1.0 <= c <= 1.0
    ensures -b < r * c < b
  {
    OnRadius(r, c);
  }

  /** The positions of `n` letters: one per letter, each from its own draws. */
  function Positions(n: nat, draws: seq<PositionDraw>): (ps: seq<LetterPosition>)
    requires |draws| == n && ValidDraws(draws)
    ensures |ps| == n
  {
    seq(n, i requires 0 <= i < n => PositionAroundTree(i, n, draws[i]))
  }

  /** There is exactly one position per selected letter, and position `i` is placed for index `i`. */
  lemma OnePositionPerLetter(data: seq<Letter>, n: nat, draws: seq<PositionDraw>, i: nat)
    requires |draws| == n && ValidDraws(draws) && i < n
    ensures |Positions(n, draws)| == |Selection(data, n)|
    ensures Positions(n, draws)[i] == PositionAroundTree(i, n, draws[i])
  {
    SelectionIndexed(data, n);
  }

  // ---------------------------------------------------------------------------
  // The overlay's state and its events
  // ---------------------------------------------------------------------------

  /** The pending timeout of the gift-box effect, if any. */
  datatype Timer = NoTimer | ToOrbit | ToHide

  /**
   * Props (`active`, `giftOpen`), React state, the pending timeout and the number of
   * `letters.json` requests still in flight.
   */
  datatype Overlay = Overlay(
    active: bool, giftOpen: bool,
    letters: seq<Option<Letter>>, positions: seq<LetterPosition>,
    selected: Option<Letter>, loading: bool,
    animation: AnimationState, showLetters: bool,
    timer: Timer, inFlight: nat)

  /** The first render; the load effect requests the file when active. */
  function Mount(active: bool, giftOpen: bool): Overlay
  {
    Overlay(active, giftOpen, [], [], None, true, Orbiting, false, NoTimer, if active then 1 else 0)
  }

  /**
   * The gift-box effect: the cleanup of the previous run clears its timeout, then nothing
   * happens while inactive or loading; an open box sends the letters flying out with the
   * 1800 ms timeout to orbiting; a closed box with letters shown flies them in with the
   * 1500 ms timeout to hiding.
   */
  function Effect(s: Overlay): Overlay
  {
    var t := s.(timer := NoTimer);
    if !t.active || t.loading then t
    else if t.giftOpen then t.(animation := FlyingOut, showLetters := true, timer := ToOrbit)
    else if t.showLetters then t.(animation := FlyingIn, timer := ToHide)
    else t
  }

  /** The effect's dependencies: `isGiftBoxOpen`, `isActive`, `isLoading`, `showLetters`. */
  predicate SameDeps(a: Overlay, b: Overlay)
  {
    a.giftOpen == b.giftOpen && a.active == b.active
    && a.loading == b.loading && a.showLetters == b.showLetters
  }

  /** After an update the effect runs again exactly when a dependency changed. */
  function Rerun(before: Overlay, after: Overlay): Overlay
  {
    if SameDeps(before, after) then after else Effect(after)
  }

  /** New props from the parent; the load effect requests the file again when it turns active. */
  function SetProps(s: Overlay, active: bool, giftOpen: bool): Overlay
  {
    var inFlight := if active && !s.active then s.inFlight + 1 else s.inFlight;
    Rerun(s, s.(active := active, giftOpen := giftOpen, inFlight := inFlight))
  }

  /** A request for `letters.json` answers with `data`; its letters and positions replace the old ones. */
  function Loaded(s: Overlay, letterCount: nat, data: seq<Letter>, draws: seq<PositionDraw>): Overlay
    requires |draws| == letterCount && ValidDraws(draws)
  {
    if s.inFlight == 0 then s
    else
      Rerun(s, s.(letters := Selection(data, letterCount), positions := Positions(letterCount, draws),
                  loading := false, inFlight := s.inFlight - 1))
  }

  /** A request for `letters.json` fails: loading ends and the letters stay as they were. */
  function LoadFailed(s: Overlay): Overlay
  {
    if s.inFlight == 0 then s
    else Rerun(s, s.(loading := false, inFlight := s.inFlight - 1))
  }

  /** The pending timeout fires. */
  function Expire(s: Overlay): Overlay
  {
    match s.timer
    case NoTimer => s
    case ToOrbit => s.(animation := Orbiting, timer := NoTimer)
    case ToHide => Rerun(s, s.(showLetters := false, timer := NoTimer))
  }

  /** The envelope with index `i` is on screen. */
  predicate EnvelopeShown(s: Overlay, i: nat)
  {
    s.active && !s.loading && s.showLetters && s.selected.None? && i < |s.letters|
  }

  /** `handleLetterClick` on envelope `i`; an envelope not on screen cannot be clicked. */
  function ClickLetter(s: Overlay, i: nat): Overlay
  {
    if EnvelopeShown(s, i) then s.(selected := s.letters[i]) else s
  }

  /** `handleCloseModal`. */
  function CloseModal(s: Overlay): Overlay
  {
    s.(selected := None)
  }

  /** What holds between events. */
  predicate Inv(s: Overlay)
  {
    && |s.positions| == |s.letters|
    && (s.loading ==> s.letters == [] && !s.showLetters && s.timer == NoTimer)
    && (s.timer != NoTimer ==> s.active && !s.loading && s.showLetters)
    && (s.timer == ToOrbit ==> s.giftOpen && s.animation == FlyingOut)
    && (s.timer == ToHide ==> !s.giftOpen && s.animation == FlyingIn)
    && (s.active && !s.loading && s.giftOpen ==> s.showLetters)
    && (s.active && !s.loading && !s.giftOpen && s.showLetters ==> s.timer == ToHide)
  }

  // ---------------------------------------------------------------------------
  // Rendering
  // ---------------------------------------------------------------------------

  /** The props of one `LetterEnvelope`; an undefined letter has no colour. */
  datatype EnvelopeProps = EnvelopeProps(
    color: Option<string>, x: real, y: real, index: nat, angle: real, animation: AnimationState)

  datatype View = Hidden | Envelopes(envelopes: seq<EnvelopeProps>) | Modal(letter: Letter)

  function Envelope(s: Overlay, i: nat): EnvelopeProps
    requires i < |s.letters| && |s.positions| == |s.letters|
  {
    var color := if s.letters[i].Some? then Some(s.letters[i].value.color) else None;
    EnvelopeProps(color, s.positions[i].x, s.positions[i].y, i, s.positions[i].angle, s.animation)
  }

  /** The three render guards, then the envelopes or, when a letter is selected, its modal. */
  function Render(s: Overlay): View
    requires |s.positions| == |s.letters|
  {
    if !s.active || s.loading || !s.showLetters then Hidden
    else if s.selected.None? then Envelopes(seq(|s.letters|, i requires 0 <= i < |s.letters| => Envelope(s, i)))
    else Modal(s.selected.value)
  }

  // ---------------------------------------------------------------------------
  // Properties
  // ---------------------------------------------------------------------------

  /** Running the effect again on its own result changes nothing (so a re-run it triggers is idle). */
  lemma EffectIdempotent(s: Overlay)
    ensures Effect(Effect(s)) == Effect(s)
  {
  }

  /** The effect does nothing on mount: the overlay is still loading. */
  lemma MountIdle(active: bool, giftOpen: bool)
    ensures Effect(Mount(active, giftOpen)) == Mount(active, giftOpen)
    ensures Inv(Mount(active, giftOpen))
    ensures Mount(active, giftOpen).inFlight == if active then 1 else 0
  {
  }

  /**
   * Opening the gift box while active and loaded sends the letters flying out and shows them;
   * the 1800 ms timeout then switches them to orbiting. Nothing else changes.
   */
  lemma OpenFliesOut(s: Overlay)
    requires Inv(s) && s.active && !s.loading && !s.giftOpen
    ensures var o := SetProps(s, true, true);
      o == s.(giftOpen := true, animation := FlyingOut, showLetters := true, timer := ToOrbit)
      && Expire(o) == o.(animation := Orbiting, timer := NoTimer)
  {
  }

  /**
   * Closing the gift box while the letters are shown sends them flying in; the 1500 ms
   * timeout then hides them.
   */
  lemma CloseFliesIn(s: Overlay)
    requires Inv(s) && s.active && !s.loading && s.giftOpen
    ensures var c := SetProps(s, true, false);
      c == s.(giftOpen := false, animation := FlyingIn, timer := ToHide)
      && Expire(c) == c.(showLetters := false, timer := NoTimer)
  {
    assert s.showLetters;
  }

  /** Closing the gift box while the letters are hidden changes nothing but the prop. */
  lemma CloseWhileHidden(s: Overlay)
    requires Inv(s) && !s.showLetters
    ensures SetProps(s, s.active, false) == s.(giftOpen := false)
  {
  }

  /** Letters are requested only when the overlay turns active. */
  lemma LoadOnlyWhenActive(s: Overlay, active: bool, giftOpen: bool)
    ensures SetProps(s, active, giftOpen).inFlight > s.inFlight <==> active && !s.active
    ensures Mount(false, giftOpen).inFlight == 0
  {
  }

  /** A failed first load ends loading and leaves no letters; a successful one selects and places them. */
  lemma FirstLoad(giftOpen: bool, letterCount: nat, data: seq<Letter>, draws: seq<PositionDraw>)
    requires |draws| == letterCount && ValidDraws(draws)
    ensures var f := LoadFailed(Mount(true, giftOpen));
      !f.loading && f.letters == [] && f.positions == [] && f.inFlight == 0
    ensures var l := Loaded(Mount(true, giftOpen), letterCount, data, draws);
      !l.loading && l.letters == Selection(data, letterCount)
      && l.positions == Positions(letterCount, draws) && l.inFlight == 0
  {
  }

  /** Nothing renders unless active, loaded and showing; the envelopes only while no letter is open. */
  lemma RenderGuards(s: Overlay)
    requires |s.positions| == |s.letters|
    ensures Render(s) != Hidden <==> s.active && !s.loading && s.showLetters
    ensures Render(s).Envelopes? <==> s.active && !s.loading && s.showLetters && s.selected.None?
    ensures Render(s).Modal? <==> s.active && !s.loading && s.showLetters && s.selected.Some?
    ensures Render(s).Modal? ==> Render(s).letter == s.selected.value
  {
  }

  /** Each drawn envelope is its letter at its position, in the overlay's animation state. */
  lemma EnvelopesMatchLetters(s: Overlay, i: nat)
    requires |s.positions| == |s.letters| && Render(s).Envelopes?
    ensures |Render(s).envelopes| == |s.letters|
    ensures i < |s.letters| ==>
      var e := Render(s).envelopes[i];
      e.index == i && e.x == s.positions[i].x && e.y == s.positions[i].y
      && e.angle == s.positions[i].angle && e.animation == s.animation
      && (s.letters[i].Some? <==> e.color.Some?)
      && (s.letters[i].Some? ==> e.color.value == s.letters[i].value.color)
  {
  }

  /** Clicking a shown envelope opens its letter in place of the envelopes; closing restores them. */
  lemma ClickThenClose(s: Overlay, i: nat)
    requires |s.positions| == |s.letters| && EnvelopeShown(s, i) && s.letters[i].Some?
    ensures Render(ClickLetter(s, i)) == Modal(s.letters[i].value)
    ensures CloseModal(ClickLetter(s, i)) == s
  {
  }

  /** Every event keeps the invariant. */
  lemma SetPropsInv(s: Overlay, active: bool, giftOpen: bool)
    requires Inv(s)
    ensures Inv(SetProps(s, active, giftOpen))
  {
  }

  lemma LoadedInv(s: Overlay, letterCount: nat, data: seq<Letter>, draws: seq<PositionDraw>)
    requires Inv(s) && |draws| == letterCount && ValidDraws(draws)
    ensures Inv(Loaded(s, letterCount, data, draws))
  {
    SelectionIndexed(data, letterCount);
  }

  lemma LoadFailedInv(s: Overlay)
    requires Inv(s)
    ensures Inv(LoadFailed(s))
  {
  }

  lemma ExpireInv(s: Overlay)
    requires Inv(s)
    ensures Inv(Expire(s))
  {
  }

  lemma ClickInv(s: Overlay, i: nat)
    requires Inv(s)
    ensures Inv(ClickLetter(s, i)) && Inv(CloseModal(s))
  {
  }

  // ---------------------------------------------------------------------------
  // The component
  // ---------------------------------------------------------------------------

  class LettersOverlay {
    const letterCount: nat
    var active: bool
    var giftOpen: bool
    var letters: seq<Option<Letter>>
    var positions: seq<LetterPosition>
    var selected: Option<Letter>
    var loading: bool
    var animation: AnimationState
    var showLetters: bool
    var timer: Timer
    var inFlight: nat

    function State(): Overlay
      reads this
    {
      Overlay(active, giftOpen, letters, positions, selected, loading, animation, showLetters, timer, inFlight)
    }

    constructor(isActive: bool, letterCount: nat, isGiftBoxOpen: bool)
      ensures this.letterCount == letterCount
      ensures State() == Mount(isActive, isGiftBoxOpen)
    {
      this.letterCount := letterCount;
      active, giftOpen := isActive, isGiftBoxOpen;
      letters, positions, selected := [], [], None;
      loading, animation, showLetters := true, Orbiting, false;
      timer := NoTimer;
      inFlight := if isActive then 1 else 0;
    }

    /** One run of the gift-box effect, after the cleanup of the last one. */
    method RunEffect()
      modifies this
      ensures State() == Effect(old(State()))
    {
      timer := NoTimer;
      if !active || loading {
        return;
      }
      if giftOpen {
        animation := FlyingOut;
        showLetters := true;
        timer := ToOrbit;
      } else if showLetters {
        animation := FlyingIn;
        timer := ToHide;
      }
    }

    /** Runs the effect when a dependency differs from `before`. */
    method Settle(before: Overlay)
      modifies this
      ensures State() == Rerun(before, old(State()))
    {
      if !SameDeps(before, State()) {
        RunEffect();
      }
    }

    method ReceiveProps(isActive: bool, isGiftBoxOpen: bool)
      modifies this
      ensures State() == SetProps(old(State()), isActive, isGiftBoxOpen)
    {
      var before := State();
      if isActive && !active {
        inFlight := inFlight + 1;
      }
      active, giftOpen := isActive, isGiftBoxOpen;
      Settle(before);
    }

    method LoadLetters(data: seq<Letter>, draws: seq<PositionDraw>)
      requires |draws| == letterCount && ValidDraws(draws)
      modifies this
      ensures State() == Loaded(old(State()), letterCount, data, draws)
    {
      if inFlight == 0 {
        return;
      }
      var before := State();
      var selectedLetters := SelectLetters(data, letterCount);
      letters := selectedLetters;
      positions := Positions(letterCount, draws);
      loading := false;
      inFlight := inFlight - 1;
      Settle(before);
    }

    method LoadError()
      modifies this
      ensures State() == LoadFailed(old(State()))
    {
      if inFlight == 0 {
        return;
      }
      var before := State();
      loading := false;
      inFlight := inFlight - 1;
      Settle(before);
    }

    method TimerExpires()
      modifies this
      ensures State() == Expire(old(State()))
    {
      match timer
      case NoTimer =>
      case ToOrbit =>
        animation := Orbiting;
        timer := NoTimer;
      case ToHide =>
        var before := State();
        showLetters := false;
        timer := NoTimer;
        Settle(before);
    }

    method HandleLetterClick(i: nat)
      modifies this
      ensures State() == ClickLetter(old(State()), i)
    {
      if EnvelopeShown(State(), i) {
        selected := letters[i];
      }
    }

    method HandleCloseModal()
      modifies this
      ensures State() == CloseModal(old(State()))
    {
      selected := None;
    }
  }
}
