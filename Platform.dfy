/** The page controller of app.js (`class GamePlatform`) and the free
    function `resizeGameFrame`. The elements the controller looks up by id
    are given to its constructor; a missing element is `null`. */
module Platform {
  import opened Wrappers
  import opened Catalog
  import opened Routing
  import opened Player
  import opened Legal
  import opened Dom

  /** What `fetch("./games.json")` followed by `response.json()` delivered:
      the `games` array, or a failure (network error or malformed JSON). */
  datatype FetchOutcome = Loaded(games: seq<Game>) | LoadFailed

  const LoadErrorMessage: string := "Failed to load games. Please try again later."

  class GamePlatform {
    var games: seq<Game>
    const currentCategory: string
    const doc: Document
    const grid: Grid?
    const loading: Loading?
    const overlay: Overlay?
    const frame: Frame?
    const fullscreenButton: FullscreenButton?
    const wrapper: Wrapper?
    const modal: Modal
    const modalBody: ModalBody

    /** `new GamePlatform()`: an empty catalog and the category of the page
        at `path` (`window.location.pathname`). `Init` is the asynchronous
        rest of the constructor. */
    constructor (path: string, doc: Document, grid: Grid?, loading: Loading?,
                 overlay: Overlay?, frame: Frame?, fullscreenButton: FullscreenButton?,
                 wrapper: Wrapper?, modal: Modal, modalBody: ModalBody)
      ensures games == [] && currentCategory == GetCurrentCategory(path)
      ensures this.doc == doc && this.grid == grid && this.loading == loading
      ensures this.overlay == overlay && this.frame == frame
      ensures this.fullscreenButton == fullscreenButton && this.wrapper == wrapper
      ensures this.modal == modal && this.modalBody == modalBody
    {
      games := [];
      currentCategory := GetCurrentCategory(path);
      this.doc := doc;
      this.grid := grid;
      this.loading := loading;
      this.overlay := overlay;
      this.frame := frame;
      this.fullscreenButton := fullscreenButton;
      this.wrapper := wrapper;
      this.modal := modal;
      this.modalBody := modalBody;
    }

    /** `init`: load the catalog, then render it. The remaining steps only
        register event handlers, which are the methods below. Without the
        loading indicator, rendering throws before it clears the grid, so
        the error message of a failed load stays. */
    method Init(outcome: FetchOutcome) returns (threw: bool)
      modifies this, grid, loading
      ensures games == if outcome.Loaded? then outcome.games else old(games)
      ensures threw <==> grid != null && loading == null
      ensures grid != null && loading != null ==> loading.hidden && grid.items == RenderedItems(games)
      ensures outcome.LoadFailed? && old(games) == [] && grid != null && loading != null ==>
        grid.items == [NoGamesPlaceholder]
      ensures grid != null && loading == null ==>
        grid.items == if outcome.LoadFailed? then [ErrorMessage(LoadErrorMessage)] else old(grid.items)
      ensures grid == null && loading != null ==>
        loading.hidden == (outcome.LoadFailed? || old(loading.hidden))
    {
      LoadGames(outcome);
      threw := RenderGames();
    }

    /** `loadGames`: success replaces the catalog; failure leaves it as it
        was and shows the error message. */
    method LoadGames(outcome: FetchOutcome)
      modifies this, grid, loading
      ensures outcome.Loaded? ==> games == outcome.games
      ensures outcome.Loaded? ==> (grid != null ==> unchanged(grid)) && (loading != null ==> unchanged(loading))
      ensures outcome.LoadFailed? ==> games == old(games)
      ensures outcome.LoadFailed? ==> loading != null ==> loading.hidden
      ensures outcome.LoadFailed? ==> grid != null ==> grid.items == [ErrorMessage(LoadErrorMessage)]
    {
      match outcome
      case Loaded(gs) =>
        games := gs;
      case LoadFailed =>
        ShowError(LoadErrorMessage);
    }

    /** `showError`: hide the loading indicator and replace the grid's
        content by the message, each only if the element exists. */
    method ShowError(message: string)
      modifies grid, loading
      ensures loading != null ==> loading.hidden
      ensures grid != null ==> grid.items == [ErrorMessage(message)]
    {
      if loading != null {
        loading.hidden := true;
      }
      if grid != null {
        grid.items := [ErrorMessage(message)];
      }
    }

    /** `renderGames`, with its 500ms timer callback run to completion. No
        grid: nothing happens. A grid without the loading indicator: the
        first `loading.classList` access throws and nothing changes.
        Otherwise the loading indicator ends hidden and the grid holds one
        card per record of `games` (the filtered view is computed and not
        used), or the placeholder when `games` is empty. */
    method RenderGames() returns (threw: bool)
      modifies grid, loading
      ensures threw <==> grid != null && loading == null
      ensures grid == null || loading == null ==>
        (grid != null ==> unchanged(grid)) && (loading != null ==> unchanged(loading))
      ensures grid != null && loading != null ==> loading.hidden && grid.items == RenderedItems(games)
    {
      if grid == null {
        return false;
      }
      if loading == null {
        return true;
      }
      threw := false;
      loading.hidden := false;
      grid.items := [];
      // The filtered view is computed here and never used afterwards.
      ghost var gamesToShow := GamesToShow(games, currentCategory);

      loading.hidden := true;
      if |games| == 0 {
        grid.items := [NoGamesPlaceholder];
        return;
      }
      for i := 0 to |games|
        invariant loading.hidden
        invariant grid.items == CardsFor(games[..i])
      {
        grid.items := grid.items + [CardItem(CreateCard(games[i]))];
      }
      assert games[..|games|] == games;
    }

    /** `startGame`: with the overlay, the frame and the fullscreen button
        all present, hide the overlay, point the frame at the featured game
        (or the fallback path) and show the frame and the button; with any
        of them missing, change nothing. */
    method StartGame()
      modifies overlay, frame, fullscreenButton
      ensures overlay != null && frame != null && fullscreenButton != null ==>
        overlay.display == Hidden &&
        frame.src == FrameSource(games) && frame.display == Block &&
        fullscreenButton.display == Block && fullscreenButton.icon == old(fullscreenButton.icon)
      ensures overlay == null || frame == null || fullscreenButton == null ==>
        (overlay != null ==> unchanged(overlay)) && (frame != null ==> unchanged(frame)) &&
        (fullscreenButton != null ==> unchanged(fullscreenButton))
    {
      if overlay != null && frame != null && fullscreenButton != null {
        overlay.display := Hidden;
        var featured := FindFeatured(games);
        if featured.Some? && featured.value.url != "" {
          frame.src := featured.value.url;
        } else {
          frame.src := FallbackSource;
        }
        frame.display := Block;
        fullscreenButton.display := Block;
      }
    }

    /** `loadGameInFrame`: like `startGame` with a given url, and the page
        title names the game. */
    method LoadGameInFrame(gameUrl: string, gameName: string)
      modifies overlay, frame, fullscreenButton, doc`title
      ensures overlay != null && frame != null && fullscreenButton != null ==>
        overlay.display == Hidden &&
        frame.src == gameUrl && frame.display == Block &&
        fullscreenButton.display == Block && fullscreenButton.icon == old(fullscreenButton.icon) &&
        doc.title == gameName + " - Dreadhead Parkour"
      ensures overlay == null || frame == null || fullscreenButton == null ==>
        (overlay != null ==> unchanged(overlay)) && (frame != null ==> unchanged(frame)) &&
        (fullscreenButton != null ==> unchanged(fullscreenButton)) &&
        doc.title == old(doc.title)
    {
      if overlay != null && frame != null && fullscreenButton != null {
        overlay.display := Hidden;
        frame.src := gameUrl;
        frame.display := Block;
        fullscreenButton.display := Block;
        doc.title := gameName + " - Dreadhead Parkour";
      }
    }

    /** `toggleFullscreen`: enter fullscreen on the wrapper when not
        fullscreen, leave it otherwise; `supported` says whether the host
        offers one of the vendor entry points. Entering without a wrapper
        throws. */
    method ToggleFullscreen(supported: bool) returns (threw: bool)
      modifies doc`fullscreen
      ensures threw == ToggleThrows(old(doc.fullscreen), wrapper != null)
      ensures doc.fullscreen == FullscreenAfterToggle(old(doc.fullscreen), wrapper != null, supported)
    {
      threw := false;
      if !doc.fullscreen {
        if wrapper == null {
          return true;
        }
        if supported {
          doc.fullscreen := true;
        }
      } else if supported {
        doc.fullscreen := false;
      }
    }

    /** `updateFullscreenButton`, run on every fullscreen change: the icon
        follows the document's fullscreen state. */
    method UpdateFullscreenButton()
      modifies fullscreenButton
      ensures fullscreenButton != null ==>
        fullscreenButton.icon == (if doc.fullscreen then ExitIcon else EnterIcon) &&
        fullscreenButton.display == old(fullscreenButton.display)
    {
      if fullscreenButton != null {
        fullscreenButton.icon := if doc.fullscreen then ExitIcon else EnterIcon;
      }
    }

    /** The game-card click handler: navigate to the card's target when it
        has one, otherwise stay. */
    method OnCardClick(card: Card)
      modifies doc`navigation
      ensures card.url != "" ==> doc.navigation == CardClickTarget(card)
      ensures card.url == "" ==> doc.navigation == old(doc.navigation)
    {
      var target := CardClickTarget(card);
      if target.Some? {
        doc.navigation := target;
      }
    }

    /** `showLegalPage`: inject the page's block and show the modal. */
    method ShowLegalPage(page: string)
      modifies modal, modalBody
      ensures modalBody.content == Some(LegalPageContent(page))
      ensures modal.display == ModalAfter(old(modal.display), Open) == Block
    {
      modalBody.content := Some(LegalPageContent(page));
      modal.display := Block;
    }

    /** The `.close-modal` click handler. */
    method OnCloseClick()
      modifies modal
      ensures modal.display == ModalAfter(old(modal.display), CloseButtonClick)
    {
      modal.display := Hidden;
    }

    /** The window click handler: a click whose target is the modal itself
        (its backdrop) hides it. */
    method OnWindowClick(onBackdrop: bool)
      modifies modal
      ensures modal.display == ModalAfter(old(modal.display), WindowClick(onBackdrop))
    {
      if onBackdrop {
        modal.display := Hidden;
      }
    }

    /** The keydown handler: Escape hides the modal only when it is shown. */
    method OnKeyDown(key: string)
      modifies modal
      ensures modal.display == ModalAfter(old(modal.display), KeyDown(key))
    {
      if key == "Escape" && modal.display == Block {
        modal.display := Hidden;
      }
    }
  }

  /** `resizeGameFrame`: set the wrapper's height from the window width, if
      the wrapper exists. */
  method ResizeGameFrame(wrapper: Wrapper?, innerWidth: int)
    modifies wrapper
    ensures wrapper != null ==> wrapper.height == Some(FrameHeight(innerWidth))
  {
    if wrapper != null && innerWidth < MobileBreakpoint {
      wrapper.height := Some(MobileHeight);
    } else if wrapper != null {
      wrapper.height := Some(DesktopHeight);
    }
  }
}
