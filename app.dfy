// The top-level page: the tree mode toggle, the lock taken while the firework show runs,
// and the probe for photos under `/photos` when the page mounts.

module App {
  import opened Wrappers
  import opened Types
  import opened Text

  /** The page state the modelled handlers touch. */
  datatype Page = Page(
    mode: TreeMode, zoom: int, fireworksActive: bool, lockMode: bool, giftOpen: bool,
    photos: seq<string>, loadingShare: bool)

  const DefaultZoom: int := 28

  /** The state on the first render. */
  const Initial: Page := Page(Formed, DefaultZoom, false, false, false, [], false)

  /** `toggleMode`: the other arrangement. */
  function ToggleMode(mode: TreeMode): (m: TreeMode)
    ensures m != mode
  {
    if mode == Formed then Chaos else Formed
  }

  /** Toggling twice restores the mode. */
  lemma ToggleInvolution(mode: TreeMode)
    ensures ToggleMode(ToggleMode(mode)) == mode
    ensures ToggleMode(Formed) == Chaos && ToggleMode(Chaos) == Formed
  {
  }

  /** `handleFireworksActiveChange`: the mode is locked exactly while the show runs. */
  function FireworksActiveChange(p: Page, isActive: bool): Page
  {
    p.(fireworksActive := isActive, lockMode := isActive)
  }

  lemma LockFollowsFireworks(p: Page, isActive: bool)
    ensures var q := FireworksActiveChange(p, isActive);
      q.fireworksActive == isActive && q.lockMode == isActive
      && q.(fireworksActive := p.fireworksActive, lockMode := p.lockMode) == p
  {
  }

  /** The first render: formed, zoom 28, no show, no lock, box closed, no photos. */
  lemma InitialPage()
    ensures Initial.mode == Formed && Initial.zoom == 28
    ensures !Initial.fireworksActive && !Initial.lockMode && !Initial.giftOpen
    ensures Initial.photos == [] && !Initial.loadingShare
  {
  }

  // ---------------------------------------------------------------------------
  // The photo probe
  // ---------------------------------------------------------------------------

  const MaxPhotos: nat := 22
  const Extensions: seq<string> := ["jpg", "jpeg", "png", "JPG", "JPEG", "PNG"]

  /** The outcome of one `HEAD` request: answered ok, answered with an error, or thrown. */
  datatype Response = Ok | NotOk | Failed

  /** `/photos/photo{i}.{ext}`. */
  function PhotoPath(i: nat, ext: string): string
  {
    "/photos/photo" + ToRadix(i, 10) + "." + ext
  }

  /** A photo found at index `index` with extension `ext`. */
  datatype Hit = Hit(index: nat, ext: string)

  /** Only an ok answer counts as present; an error answer or a thrown request counts as absent. */
  predicate Present(probe: string -> Response, i: nat, e: nat)
    requires e < |Extensions|
  {
    probe(PhotoPath(i, Extensions[e])) == Ok
  }

  /** The first extension, from `Extensions[e]` on, present for index `i`. */
  function FirstFrom(probe: string -> Response, i: nat, e: nat): (r: Option<nat>)
    requires e <= |Extensions|
    ensures r.Some? ==> e <= r.value < |Extensions| && Present(probe, i, r.value)
    ensures r.None? ==> forall d :: e <= d < |Extensions| ==> !Present(probe, i, d)
    decreases |Extensions| - e
  {
    if e == |Extensions| then None
    else if Present(probe, i, e) then Some(e)
    else FirstFrom(probe, i, e + 1)
  }

  /** The photos found for indices 1 through `n`, in index order. */
  function Hits(probe: string -> Response, n: nat): seq<Hit>
  {
    if n == 0 then []
    else
      var found := FirstFrom(probe, n, 0);
      Hits(probe, n - 1) + (if found.Some? then [Hit(n, Extensions[found.value])] else [])
  }

  function Paths(hits: seq<Hit>): (paths: seq<string>)
    ensures |paths| == |hits|
  {
    seq(|hits|, k requires 0 <= k < |hits| => PhotoPath(hits[k].index, hits[k].ext))
  }

  /** The loop of `loadPhotosFromDirectory`, asking `probe` for each candidate path in turn. */
  method ProbePhotos(probe: string -> Response) returns (photoUrls: seq<string>)
    ensures photoUrls == Paths(Hits(probe, MaxPhotos))
  {
    photoUrls := [];
    var i := 1;
    while i <= MaxPhotos
      invariant 1 <= i <= MaxPhotos + 1
      invariant photoUrls == Paths(Hits(probe, i - 1))
    {
      ghost var before := photoUrls;
      var e := 0;
      while e < |Extensions|
        invariant 0 <= e <= |Extensions|
        invariant photoUrls == before
        invariant FirstFrom(probe, i, 0) == FirstFrom(probe, i, e)
      {
        var photoPath := PhotoPath(i, Extensions[e]);
        var response := probe(photoPath);
        if response == Ok {
          photoUrls := photoUrls + [photoPath];
          assert Hits(probe, i) == Hits(probe, i - 1) + [Hit(i, Extensions[e])];
          assert Paths(Hits(probe, i)) == Paths(Hits(probe, i - 1)) + [photoPath];
          break;
        }
        e := e + 1;
      }
      if e == |Extensions| {
        assert Hits(probe, i) == Hits(probe, i - 1);
      }
      i := i + 1;
    }
  }

  /** At most one photo per index, in ascending index order, all within 1 through `n`. */
  lemma {:induction false} HitsAscending(probe: string -> Response, n: nat)
    ensures |Hits(probe, n)| <= n
    ensures forall k :: 0 <= k < |Hits(probe, n)| ==> 1 <= Hits(probe, n)[k].index <= n
    ensures forall j, k :: 0 <= j < k < |Hits(probe, n)| ==> Hits(probe, n)[j].index < Hits(probe, n)[k].index
  {
    if n > 0 {
      HitsAscending(probe, n - 1);
    }
  }

  /**
   * Each recorded photo is present, and it is the first present extension of its index in
   * the order jpg, jpeg, png, JPG, JPEG, PNG.
   */
  lemma {:induction false} HitsFirstPresent(probe: string -> Response, n: nat)
    ensures forall k :: 0 <= k < |Hits(probe, n)| ==>
      FirstFrom(probe, Hits(probe, n)[k].index, 0).Some?
      && Hits(probe, n)[k].ext == Extensions[FirstFrom(probe, Hits(probe, n)[k].index, 0).value]
  {
    if n > 0 {
      HitsFirstPresent(probe, n - 1);
    }
  }

  /** No extension before the first present one is present. */
  lemma {:induction false} FirstFromIsFirst(probe: string -> Response, i: nat, e: nat, d: nat)
    requires e <= d < |Extensions| && FirstFrom(probe, i, e).Some? && d < FirstFrom(probe, i, e).value
    ensures !Present(probe, i, d)
    decreases |Extensions| - e
  {
    if d > e {
      FirstFromIsFirst(probe, i, e + 1, d);
    }
  }

  /**
   * Every index with some present extension is recorded, with that extension or an earlier
   * present one.
   */
  lemma {:induction false} HitsComplete(probe: string -> Response, n: nat, i: nat, d: nat)
    requires 1 <= i <= n && d < |Extensions| && Present(probe, i, d)
    ensures FirstFrom(probe, i, 0).Some? && FirstFrom(probe, i, 0).value <= d
    ensures Hit(i, Extensions[FirstFrom(probe, i, 0).value]) in Hits(probe, n)
  {
    FirstFromFinds(probe, i, 0, d);
    if i < n {
      HitsComplete(probe, n - 1, i, d);
    }
  }

  /** A search that passes a present extension finds one, at or before it. */
  lemma {:induction false} FirstFromFinds(probe: string -> Response, i: nat, e: nat, d: nat)
    requires e <= d < |Extensions| && Present(probe, i, d)
    ensures FirstFrom(probe, i, e).Some? && FirstFrom(probe, i, e).value <= d
    decreases |Extensions| - e
  {
    if e < d && !Present(probe, i, e) {
      FirstFromFinds(probe, i, e + 1, d);
    }
  }

  /** Each recorded path names its index, in decimal digits that read back as the index, and its extension. */
  lemma PathsShape(hits: seq<Hit>, k: nat)
    requires k < |hits|
    ensures var digits := ToRadix(hits[k].index, 10);
      Paths(hits)[k] == "/photos/photo" + digits + "." + hits[k].ext
      && AllDigits(digits, 10) && DigitsValue(digits, 10) == hits[k].index
  {
    ToRadixRoundTrip(hits[k].index, 10);
  }

  /** The probe starts: the loading screen shows. */
  function BeginPhotoLoad(p: Page): Page
  {
    p.(loadingShare := true)
  }

  /** The probe ends: the photos are replaced only when some were found; loading always ends. */
  function EndPhotoLoad(p: Page, photoUrls: seq<string>): Page
  {
    p.(photos := if |photoUrls| > 0 then photoUrls else p.photos, loadingShare := false)
  }

  lemma PhotoLoadOutcome(p: Page, probe: string -> Response)
    ensures BeginPhotoLoad(p).loadingShare
    ensures var urls := Paths(Hits(probe, MaxPhotos));
      var q := EndPhotoLoad(BeginPhotoLoad(p), urls);
      !q.loadingShare && |urls| <= MaxPhotos
      && (|urls| == 0 ==> q.photos == p.photos) && (|urls| > 0 ==> q.photos == urls)
  {
    HitsAscending(probe, MaxPhotos);
  }

  class App {
    var mode: TreeMode
    var zoom: int
    var fireworksActive: bool
    var lockMode: bool
    var giftOpen: bool
    var photos: seq<string>
    var loadingShare: bool

    function State(): Page
      reads this
    {
      Page(mode, zoom, fireworksActive, lockMode, giftOpen, photos, loadingShare)
    }

    constructor()
      ensures State() == Initial
    {
      mode, zoom := Formed, DefaultZoom;
      fireworksActive, lockMode, giftOpen := false, false, false;
      photos, loadingShare := [], false;
    }

    method HandleToggle()
      modifies this
      ensures State() == old(State()).(mode := ToggleMode(old(mode)))
    {
      mode := ToggleMode(mode);
    }

    method HandleFireworksActiveChange(isActive: bool)
      modifies this
      ensures State() == FireworksActiveChange(old(State()), isActive)
    {
      fireworksActive := isActive;
      lockMode := isActive;
    }

    method HandleZoomChange(level: int)
      modifies this
      ensures State() == old(State()).(zoom := level)
    {
      zoom := level;
    }

    method HandleGiftBoxToggle(isOpen: bool)
      modifies this
      ensures State() == old(State()).(giftOpen := isOpen)
    {
      giftOpen := isOpen;
    }

    /** `loadPhotosFromDirectory`, run on mount. */
    method LoadPhotosFromDirectory(probe: string -> Response)
      modifies this
      ensures State() == EndPhotoLoad(BeginPhotoLoad(old(State())), Paths(Hits(probe, MaxPhotos)))
    {
      loadingShare := true;
      var photoUrls := ProbePhotos(probe);
      if |photoUrls| > 0 {
        photos := photoUrls;
      }
      loadingShare := false;
    }
  }
}
