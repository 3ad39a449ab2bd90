# Game catalog page controller, modelled in Dafny

This project models the page controller of a static game-catalog site: the
`GamePlatform` class of `app.js` and its free function `resizeGameFrame`.
The controller loads a list of game records, picks the category the current
page stands for, fills the games grid with one card per record (or a "No
games found." placeholder), sends a card click to the game page with the
record's url, name and description, starts the featured game in the embedded
frame, toggles fullscreen, sizes the game wrapper, and shows static legal
pages in a modal that three different events close.

Layout, one module per file:

- `Wrappers.dfy`: `Option`.
- `Text.dfy`: `Contains` (`String.prototype.includes`) with its
  characterisation by occurrence index, and `ToLower`.
- `Catalog.dfy`: the game record, the page-category rule, the category
  filter, cards and what the grid holds once rendered.
- `Routing.dfy`: the card-click navigation target and reading its query back.
- `Player.dfy`: the featured-game search, the frame source with its fallback,
  the fullscreen toggle decision and the frame-height rule.
- `Legal.dfy`: the legal-page lookup, as written and as intended (see
  Findings).
- `Dom.dfy`: the page elements the controller touches, one small class per
  element kind, and the legal modal's transition function.
- `Platform.dfy`: the `GamePlatform` class with a method per operation, and
  `ResizeGameFrame`.

The pure decisions are functions with lemmas. The operations that change the
page are methods of `GamePlatform`. Each method's postcondition ties the new
element state to those functions. A missing element (`getElementById`
returning `null`) is a `null` constant field, and the existence checks of the
source are modelled branch by branch.

Two places where the code does something other than what one would expect
from its stated purpose; the model follows the code:

- `renderGames` computes the category-filtered view but appends a card for
  every record of the full catalog. `Catalog.RenderIgnoresCategory` states
  the consequence: on a category page, the card count is the catalog size,
  which can be larger than the filtered view.
- A failed load shows the error message, but `init` then runs
  `renderGames`. When the loading indicator exists, that clears the grid
  and, since the catalog is still empty, leaves "No games found." in its
  place. Without the loading indicator, `renderGames` throws before it
  clears the grid, so the error message stays. `Platform.GamePlatform.Init`
  states both.

The one exception is the legal-page lookup: the methods use the corrected
lookup of the Findings table, not the code as written.

## Model

| member | source | states |
|---|---|---|
| `Text.ContainsIff` | app.js:11-14 | `includes` finds `sub` exactly when `sub` occurs at some index of `s` (both directions). |
| `Text.ToLower` | app.js:176-177 | Lower-casing keeps the length, maps each ASCII capital to its small letter and leaves no capital behind. |
| `Text.ToLowerIdempotent` | app.js:176-177 | Lower-casing twice equals lower-casing once. |
| `Catalog.GetCurrentCategory` | app.js:9-16 | A path containing `puzzle.html` always gives "Puzzle Games". The result is the sentinel `all` exactly when none of the four markers occurs. |
| `Catalog.FirstMatchIsFirst` | app.js:9-16 | A first-match rule returns the category of the first table entry whose marker occurs, or the default exactly when no marker occurs. |
| `Catalog.CurrentCategoryIsFirstMatch` | app.js:9-16 | `getCurrentCategory` equals the first-match rule over the four markers in source order: a later marker counts only when every earlier one is absent. |
| `Catalog.FilterCategory` | app.js:96 | The filtered view is an order-preserving subsequence of the catalog. It holds only records of the category, each matching record as often as in the catalog. |
| `Catalog.GamesToShow` | app.js:94-96 | For the `all` sentinel the view is the whole catalog. Otherwise it is the exact category filter. In both cases it is a subsequence, and the catalog is not changed. |
| `Catalog.FilterDropsOtherCategories` | app.js:94-96 | A catalog record of another category makes the filtered view strictly shorter than the catalog. |
| `Catalog.CreateCard` | app.js:115-122 | A card carries the record's url, name and category, and its title is the name. A missing description is stored as `''`. |
| `Catalog.CardsFor` | app.js:107-111 | One card per record, in catalog order, card `i` built from record `i`. |
| `Catalog.RenderedItemsSpec` | app.js:102-111 | The rendered grid holds exactly one card per record of `this.games`. The placeholder appears exactly when the catalog is empty, and then alone. |
| `Catalog.RenderIgnoresCategory` | app.js:94-111 | On a category page whose catalog holds a record of another category, the card count is the catalog size and exceeds the size of the filtered view. |
| `Routing.CardClickTarget` | app.js:55-65 | A click navigates exactly when the card's url is non-empty. It goes to `gamepage.html` with the keys `url`, `name`, `description`, in that order. |
| `Routing.CardClickRoundTrip` | app.js:55-65 | For a card built from a record, reading the query back gives the record's url, name and description (`''` when absent). A record with an empty url gives a card that does not navigate. |
| `Player.FindFeatured` | app.js:174-178 | `find` returns nothing exactly when no record's lower-cased name contains both "dreadhead" and "parkour". Otherwise it returns the first such record. |
| `Player.FrameSource` | app.js:174-186 | The frame source is the url of the first featured record when that url is non-empty. Otherwise it is exactly `./hop-warp/index.html`, and then every first featured record has an empty url. |
| `Player.FullscreenAfterToggle` | app.js:216-238 | The toggle flips the fullscreen state exactly when a vendor entry point exists and the wrapper is there or the document is already fullscreen. |
| `Player.ToggleTwiceRestores` | app.js:216-238 | With the wrapper present, toggling twice returns to the original state. |
| `Player.FrameHeight` | app.js:401-405 | 400px exactly when the width is under 768, 680px exactly when it is 768 or more. |
| `Legal.LegalPageContentAsWritten` | app.js:376-379 | As written, the four own keys give their block, inherited `Object.prototype` keys give that member, and only the remaining keys give "Page Not Found". |
| `Legal.InheritedKeyEscapesNotFound` | app.js:376-379 | As written, the key `constructor` yields an inherited member, not the "Page Not Found" block. |
| `Legal.LegalPageContent` | app.js:298-379 | `about`, `contact`, `privacy` and `terms` give their fixed block, `privacy` with the heading "Privacy Policy". Every other key gives "Page Not Found". |
| `Legal.AsWrittenAgreesOffPrototype` | app.js:376-379 | The as-written lookup and the intended one agree exactly on the keys that are not inherited from `Object.prototype`. |
| `Dom.ModalAfter` | app.js:268-295 | Opening shows the modal. The close button hides it, and so does a window click whose target is the modal. Escape hides it only when it is shown. Only opening makes the modal visible, and every other change hides it. |
| `Dom.ClosingConverges` | app.js:268-286 | From the shown modal, the close button, a backdrop click and Escape all reach the same hidden state, and repeating them changes nothing. |
| `Dom.KeyDownChangesOnlyShownOnEscape` | app.js:282-286 | A keydown changes the modal exactly when the key is Escape and the modal is shown. |
| `Dom.CloseIsIdempotent` | app.js:268-279 | A second close-button or backdrop click leaves the hidden state of the first. |
| `Platform.GamePlatform.constructor` | app.js:3-7 | The catalog starts empty, and the current category is derived once from the page path. |
| `Platform.GamePlatform.Init` | app.js:18-24 | With grid and loading indicator, the grid ends as the rendered form of the catalog; after a failed load on an empty catalog it holds only the "No games found." placeholder. With a grid and no indicator, the call throws and the grid keeps the error message of a failed load, or its old content. With an indicator and no grid, the indicator ends hidden after a failed load and is untouched otherwise. |
| `Platform.GamePlatform.LoadGames` | app.js:26-37 | Success replaces the catalog and leaves the grid alone. Failure keeps the catalog, hides the loading indicator and puts the error message in the grid. |
| `Platform.GamePlatform.ShowError` | app.js:382-390 | The loading indicator is hidden and the grid holds only the message, each only if the element exists. |
| `Platform.GamePlatform.RenderGames` | app.js:83-113 | No grid: nothing happens. A grid without the loading indicator: the call throws and nothing changes. Otherwise the indicator ends hidden and the grid is the rendered form of `this.games`. |
| `Platform.GamePlatform.StartGame` | app.js:163-193 | With overlay, frame and fullscreen button present, the overlay is hidden, the frame gets the featured source and is shown, and the button is shown. Otherwise nothing changes. |
| `Platform.GamePlatform.LoadGameInFrame` | app.js:195-214 | As for `StartGame` with the given url, and the title becomes "<name> - Dreadhead Parkour". Otherwise nothing changes, the title included. |
| `Platform.GamePlatform.ToggleFullscreen` | app.js:216-238 | The new fullscreen state is the toggle decision. The call throws exactly when it tries to enter fullscreen without a wrapper. |
| `Platform.GamePlatform.UpdateFullscreenButton` | app.js:240-252 | The button's icon follows the document's fullscreen state, and its display is untouched. |
| `Platform.GamePlatform.OnCardClick` | app.js:52-68 | A card with a url sends the window to its target. A card without one leaves the location as it was. |
| `Platform.GamePlatform.ShowLegalPage` | app.js:289-296 | The modal body holds the page's block and the modal is shown, whatever its previous state. |
| `Platform.GamePlatform.OnCloseClick` | app.js:268-272 | The modal's display becomes the close-button transition of the old one (hidden). |
| `Platform.GamePlatform.OnWindowClick` | app.js:275-279 | A click on the modal itself hides it; any other click leaves it as it was. |
| `Platform.GamePlatform.OnKeyDown` | app.js:282-286 | Escape hides a shown modal; any other key, or a modal not shown, is left as it was. |
| `Platform.ResizeGameFrame` | app.js:399-406 | A present wrapper's height becomes the frame-height rule's value for the window width. |

## Left out

- Loading `./games.json` (network I/O). The fetch result is a parameter, `FetchOutcome`: the `games` array, or a failure.
- Records that do not match the catalog schema. A record without a `name` makes `find` throw, and one without a `url` stores the text "undefined" on its card. The model's records always have every required field.
- Event wiring: `addEventListener`, `closest(".game-card")`, `matches(...)` and the registration conditions of `setupGameControls`. The handlers are methods that a caller invokes directly. A throw in `renderGames` would stop `init` before the later handlers are registered; that is not modelled.
- Platform.GamePlatform.RenderGames: the 500 ms `setTimeout` is collapsed, so the timer callback runs right after the synchronous part. The instant where the loading indicator is visible and the grid empty is not a separate state.
- `URLSearchParams` serialisation and percent-encoding (`params.toString()`). The navigation target is the ordered list of key/value pairs, and `Routing.Param` stands for reading one back.
- Clicks on `.game-card` elements that `createGameCard` did not build, whose data attributes may be missing.
- Platform.GamePlatform.ShowLegalPage: uses the corrected lookup `Legal.LegalPageContent`. For the twelve keys inherited from `Object.prototype` (`constructor`, `toString`, `__proto__`, …) the method shows "Page Not Found", where `showLegalPage` as written shows the inherited member (`Legal.LegalPageContentAsWritten`); see Findings.
- The legal modal and its body are assumed present. The source never checks for them and would throw on a page without them.
- Platform.GamePlatform.ToggleFullscreen: the vendor probing (`requestFullscreen`, `webkit…`, `ms…`) is one boolean, `supported`. The request is assumed granted at once; in a browser it is asynchronous and may be refused.
- The SVG icon markup, the card and placeholder HTML, the base64 fallback image, the literal legal texts and console logging. These are presentation; contents are opaque tokens.
- Text.ToLower: maps only ASCII `A`–`Z`, while JavaScript's `toLowerCase` applies full Unicode case mapping (the Kelvin sign lower-cases to `k`). A name spelling "dreadhead" or "parkour" only through such letters is not featured in the model.
- The mobile navigation toggle (app.js:41-49) and the smooth scrolling of in-page anchor links (app.js:71-80). Both are class toggling and scrolling on DOM elements outside the controller's decisions.

## Findings

| source | as written | input that shows it | evidently intended | confidence | as-written member | corrected member |
|---|---|---|---|---|---|---|
| app.js:376-379 | `contents[page] \|\| notFound` looks `page` up on a plain object literal. That also finds the members every object inherits from `Object.prototype`, which are truthy, so they bypass the "Page Not Found" fallback. | page key `constructor`: the modal body shows the text of the `Object` constructor function | every key other than `about`, `contact`, `privacy`, `terms` shows "Page Not Found" | not executed; follows from JavaScript's property lookup | `Legal.LegalPageContentAsWritten`, `Legal.InheritedKeyEscapesNotFound` | `Legal.LegalPageContent` (used by `Platform.GamePlatform.ShowLegalPage`) |
