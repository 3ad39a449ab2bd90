/** The decisions behind the embedded player: which game "play" loads, the
    fullscreen toggle, and the height of the game wrapper. */
module Player {
  import opened Wrappers
  import opened Text
  import opened Catalog

  /** The featured game's test in `startGame`: its lower-cased name contains
      both "dreadhead" and "parkour". */
  predicate IsFeatured(g: Game)
  {
    Contains(ToLower(g.name), "dreadhead") && Contains(ToLower(g.name), "parkour")
  }

  /** Record `k` is the first featured record of `games`. */
  ghost predicate FirstFeaturedAt(games: seq<Game>, k: int)
  {
    0 <= k < |games| && IsFeatured(games[k]) &&
    forall j :: 0 <= j < k ==> !IsFeatured(games[j])
  }

  /** `this.games.find(...)`: the first featured record, if any. */
  function FindFeatured(games: seq<Game>): (r: Option<Game>)
    ensures r.None? <==> forall k :: 0 <= k < |games| ==> !IsFeatured(games[k])
    ensures r.Some? ==> exists k :: FirstFeaturedAt(games, k) && games[k] == r.value
  {
    if games == [] then None
    else if IsFeatured(games[0]) then
      assert FirstFeaturedAt(games, 0);
      Some(games[0])
    else
      var r := FindFeatured(games[1..]);
      assert forall k :: 0 < k < |games| ==> games[k] == games[1..][k - 1];
      assert r.Some? ==> exists k :: FirstFeaturedAt(games, k) && games[k] == r.value by {
        if r.Some? {
          var k :| FirstFeaturedAt(games[1..], k) && games[1..][k] == r.value;
          assert FirstFeaturedAt(games, k + 1);
        }
      }
      r
  }

  /** There is at most one first featured record. */
  lemma FirstFeaturedUnique(games: seq<Game>, k: int, m: int)
    requires FirstFeaturedAt(games, k) && FirstFeaturedAt(games, m)
    ensures k == m
  {
  }

  /** Where `startGame` points the frame when nothing is found. */
  const FallbackSource: string := "./hop-warp/index.html"

  /** The frame source chosen by `startGame`: the url of the first featured
      record when that url is non-empty; otherwise the fallback path. A
      later featured record is never consulted. */
  function FrameSource(games: seq<Game>): (src: string)
    ensures (exists k :: FirstFeaturedAt(games, k) && games[k].url != "" && src == games[k].url)
      || (src == FallbackSource && forall k :: FirstFeaturedAt(games, k) ==> games[k].url == "")
  {
    var featured := FindFeatured(games);
    if featured.Some? && featured.value.url != "" then featured.value.url
    else
      assert forall k :: FirstFeaturedAt(games, k) ==> featured.Some? && games[k] == featured.value by {
        forall k | FirstFeaturedAt(games, k)
          ensures featured.Some? && games[k] == featured.value
        {
          if featured.Some? {
            var m :| FirstFeaturedAt(games, m) && games[m] == featured.value;
            FirstFeaturedUnique(games, k, m);
          }
        }
      }
      FallbackSource
  }

  /** Whether the document is fullscreen after `toggleFullscreen`, given
      whether the `.game-wrapper` element exists and whether the host offers
      one of the vendor entry points. Entering with no wrapper is the
      TypeError case: nothing changes. */
  function FullscreenAfterToggle(fullscreen: bool, hasWrapper: bool, supported: bool): (after: bool)
    ensures after != fullscreen <==> supported && (fullscreen || hasWrapper)
  {
    if !fullscreen then hasWrapper && supported
    else !supported
  }

  /** `toggleFullscreen` throws when it tries to enter fullscreen and the
      wrapper is missing. */
  predicate ToggleThrows(fullscreen: bool, hasWrapper: bool)
  {
    !fullscreen && !hasWrapper
  }

  /** With the wrapper present, toggling twice returns to the original state. */
  lemma ToggleTwiceRestores(fullscreen: bool, supported: bool)
    ensures FullscreenAfterToggle(FullscreenAfterToggle(fullscreen, true, supported), true, supported) == fullscreen
  {
  }

  /** The breakpoint and the two heights of `resizeGameFrame`. */
  const MobileBreakpoint: int := 768
  const MobileHeight: nat := 400
  const DesktopHeight: nat := 680

  /** `resizeGameFrame`'s height rule: 400px below the 768px breakpoint,
      680px from it on. */
  function FrameHeight(innerWidth: int): (px: nat)
    ensures px == MobileHeight <==> innerWidth < MobileBreakpoint
    ensures px == DesktopHeight <==> innerWidth >= MobileBreakpoint
  {
    if innerWidth < MobileBreakpoint then MobileHeight else DesktopHeight
  }
}
