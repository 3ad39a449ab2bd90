/** The page elements app.js looks up by id or selector, reduced to the
    attributes it reads and writes. Each element kind is its own class, so
    two different kinds are never the same object, as two different ids
    never are. */
module Dom {
  import opened Wrappers
  import opened Catalog
  import opened Routing
  import opened Legal

  /** An element's inline `style.display`: never set ("" ), "none" or "block". */
  datatype Display = Unset | Hidden | Block

  /** The icon `updateFullscreenButton` puts in the fullscreen button. */
  datatype FullscreenIcon = EnterIcon | ExitIcon

  /** `#games-grid`: its children. */
  class Grid {
    var items: seq<GridItem>
  }

  /** `#loading`: whether it carries the `hidden` class. */
  class Loading {
    var hidden: bool
  }

  /** `#game-overlay`. */
  class Overlay {
    var display: Display
  }

  /** `#hop-warp-game`, the game frame. */
  class Frame {
    var src: string
    var display: Display
  }

  /** `#fullscreen-button`. */
  class FullscreenButton {
    var display: Display
    var icon: FullscreenIcon
  }

  /** `.game-wrapper`: its inline `style.height` in pixels, if set. */
  class Wrapper {
    var height: Option<nat>
  }

  /** `#legal-modal`. */
  class Modal {
    var display: Display
  }

  /** `#modal-body`: the legal block last injected, if any. */
  class ModalBody {
    var content: Option<LegalContent>
  }

  /** The document and window state app.js touches: the title, the page the
      window has been sent to (`window.location.href`), and whether an
      element is fullscreen (`document.fullscreenElement`). */
  class Document {
    var title: string
    var navigation: Option<Navigation>
    var fullscreen: bool
  }

  /** What reaches the legal modal's handlers. */
  datatype ModalEvent =
    | Open                           // `showLegalPage`
    | CloseButtonClick               // `.close-modal` clicked
    | WindowClick(onBackdrop: bool)  // a window click; `onBackdrop`: its target is the modal itself
    | KeyDown(key: string)           // a keydown on the document

  /** The modal's display after one event. */
  function ModalAfter(d: Display, e: ModalEvent): (d': Display)
    ensures e.Open? ==> d' == Block
    ensures e.CloseButtonClick? ==> d' == Hidden
    ensures e.WindowClick? ==> d' == (if e.onBackdrop then Hidden else d)
    ensures e.KeyDown? ==> d' == (if e.key == "Escape" && d == Block then Hidden else d)
    ensures d' == Block ==> e.Open? || d == Block
    ensures d' != d ==> e.Open? || d' == Hidden
  {
    match e
    case Open => Block
    case CloseButtonClick => Hidden
    case WindowClick(onBackdrop) => if onBackdrop then Hidden else d
    case KeyDown(key) => if key == "Escape" && d == Block then Hidden else d
  }

  /** The close events converge: from the shown modal, the close button, a
      click on the backdrop and Escape all reach the same hidden state, and
      repeating any of them changes nothing. */
  lemma ClosingConverges(e: ModalEvent)
    requires e == CloseButtonClick || e == WindowClick(true) || e == KeyDown("Escape")
    ensures ModalAfter(Block, e) == Hidden
    ensures ModalAfter(ModalAfter(Block, e), e) == ModalAfter(Block, e)
  {
  }

  /** A keydown changes the modal exactly when it is Escape and the modal is
      shown. */
  lemma KeyDownChangesOnlyShownOnEscape(d: Display, key: string)
    ensures ModalAfter(d, KeyDown(key)) != d <==> key == "Escape" && d == Block
  {
  }

  /** Closing is idempotent: a second close button click or backdrop click
      leaves the state of the first. */
  lemma CloseIsIdempotent(d: Display, e: ModalEvent)
    requires e == CloseButtonClick || e == WindowClick(true)
    ensures ModalAfter(ModalAfter(d, e), e) == ModalAfter(d, e) == Hidden
  {
  }
}
