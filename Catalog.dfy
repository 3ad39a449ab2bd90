/** The game catalog: the records loaded from games.json, the category a page
    stands for, the category filter, and the cards and placeholder the games
    grid is filled with (app.js, GamePlatform). */
module Catalog {
  import opened Wrappers
  import opened Text

  /** One entry of the `games` array of games.json. `description` is the one
      optional field. */
  datatype Game = Game(
    name: string,
    url: string,
    category: string,
    image: string,
    description: Option<string>)

  /** The sentinel category that means "no filter". */
  const AllCategories: string := "all"

  /** The page markers app.js tests, in its order, with the category each
      one selects. */
  const CategoryPages: seq<(string, string)> := [
    ("puzzle.html", "Puzzle Games"),
    ("adventure.html", "Adventure Games"),
    ("car.html", "Driving Games"),
    ("shooting.html", "Shooting Games")
  ]

  /** `getCurrentCategory`: the category of the first marker the page path
      contains, or the "no filter" sentinel when it contains none. */
  function GetCurrentCategory(path: string): (c: string)
    ensures Contains(path, "puzzle.html") ==> c == "Puzzle Games"
    ensures c == AllCategories <==>
      !Contains(path, "puzzle.html") && !Contains(path, "adventure.html") &&
      !Contains(path, "car.html") && !Contains(path, "shooting.html")
  {
    if Contains(path, "puzzle.html") then "Puzzle Games"
    else if Contains(path, "adventure.html") then "Adventure Games"
    else if Contains(path, "car.html") then "Driving Games"
    else if Contains(path, "shooting.html") then "Shooting Games"
    else AllCategories
  }

  /** Reference definition of a first-match rule over a marker table. */
  function FirstMatch(path: string, table: seq<(string, string)>, default: string): string
  {
    if table == [] then default
    else if Contains(path, table[0].0) then table[0].1
    else FirstMatch(path, table[1..], default)
  }

  /** Entry `k` is the first entry of `table` whose marker `path` contains. */
  ghost predicate FirstMatchAt(path: string, table: seq<(string, string)>, k: int)
  {
    0 <= k < |table| && Contains(path, table[k].0) &&
    forall j :: 0 <= j < k ==> !Contains(path, table[j].0)
  }

  /** A first-match rule returns the category of the first entry whose marker
      occurs, and the default exactly when no marker occurs. */
  lemma {:induction false} FirstMatchIsFirst(path: string, table: seq<(string, string)>, default: string)
    ensures (exists k :: FirstMatchAt(path, table, k) && FirstMatch(path, table, default) == table[k].1)
      || ((forall k :: 0 <= k < |table| ==> !Contains(path, table[k].0))
          && FirstMatch(path, table, default) == default)
  {
    if table != [] {
      if Contains(path, table[0].0) {
        assert FirstMatchAt(path, table, 0);
      } else {
        FirstMatchIsFirst(path, table[1..], default);
        if exists k :: FirstMatchAt(path, table[1..], k) && FirstMatch(path, table[1..], default) == table[1..][k].1 {
          var k :| FirstMatchAt(path, table[1..], k) && FirstMatch(path, table[1..], default) == table[1..][k].1;
          assert FirstMatchAt(path, table, k + 1);
        } else {
          forall k | 0 <= k < |table|
            ensures !Contains(path, table[k].0)
          {
            if k > 0 {
              assert table[k] == table[1..][k - 1];
            }
          }
        }
      }
    }
  }

  /** `getCurrentCategory` is the first-match rule over `CategoryPages` with
      the "no filter" default: a later marker is tested only when every
      earlier one is absent. */
  lemma CurrentCategoryIsFirstMatch(path: string)
    ensures GetCurrentCategory(path) == FirstMatch(path, CategoryPages, AllCategories)
  {
    var t := CategoryPages;
    assert t[0] == ("puzzle.html", "Puzzle Games");
    assert t[1..][0] == ("adventure.html", "Adventure Games");
    assert t[1..][1..][0] == ("car.html", "Driving Games");
    assert t[1..][1..][1..][0] == ("shooting.html", "Shooting Games");
    assert t[1..][1..][1..][1..] == [];
    assert FirstMatch(path, t[1..][1..][1..][1..], AllCategories) == AllCategories;
    assert FirstMatch(path, t[1..][1..][1..], AllCategories) ==
      if Contains(path, "shooting.html") then "Shooting Games" else AllCategories;
    assert FirstMatch(path, t[1..][1..], AllCategories) ==
      if Contains(path, "car.html") then "Driving Games"
      else FirstMatch(path, t[1..][1..][1..], AllCategories);
  }

  /** `r` can be obtained from `s` by deleting elements (order is kept). */
  predicate IsSubsequence<T(==)>(r: seq<T>, s: seq<T>)
    decreases |s|
  {
    if r == [] then true
    else if s == [] then false
    else if r[0] == s[0] then IsSubsequence(r[1..], s[1..])
    else IsSubsequence(r, s[1..])
  }

  /** `games.filter(game => game.category === category)`: the records of the
      category, in catalog order, each as often as in the catalog. */
  function FilterCategory(games: seq<Game>, category: string): (r: seq<Game>)
    ensures forall g :: g in r ==> g.category == category
    ensures forall g: Game :: g.category == category ==> multiset(r)[g] == multiset(games)[g]
    ensures IsSubsequence(r, games)
    ensures |r| <= |games|
  {
    if games == [] then []
    else
      assert games == [games[0]] + games[1..];
      if games[0].category == category then [games[0]] + FilterCategory(games[1..], category)
      else FilterCategory(games[1..], category)
  }

  /** The view `renderGames` computes (app.js, `gamesToShow`): the whole
      catalog for the "no filter" sentinel, else the category filter. */
  function GamesToShow(games: seq<Game>, currentCategory: string): (r: seq<Game>)
    ensures currentCategory == AllCategories ==> r == games
    ensures currentCategory != AllCategories ==>
      (forall g :: g in r ==> g.category == currentCategory) &&
      (forall g: Game :: g.category == currentCategory ==> multiset(r)[g] == multiset(games)[g])
    ensures IsSubsequence(r, games)
  {
    if currentCategory == AllCategories then
      SubsequenceOfItself(games);
      games
    else FilterCategory(games, currentCategory)
  }

  lemma {:induction false} SubsequenceOfItself<T>(s: seq<T>)
    ensures IsSubsequence(s, s)
    decreases |s|
  {
    if s != [] {
      SubsequenceOfItself(s[1..]);
    }
  }

  /** A catalog that holds a record of another category loses it in the
      filtered view, so the view is strictly shorter. */
  lemma {:induction false} FilterDropsOtherCategories(games: seq<Game>, category: string, i: int)
    requires 0 <= i < |games| && games[i].category != category
    ensures |FilterCategory(games, category)| < |games|
  {
    var rest := FilterCategory(games[1..], category);
    if i == 0 {
      assert FilterCategory(games, category) == rest;
    } else {
      FilterDropsOtherCategories(games[1..], category, i - 1);
      assert |FilterCategory(games, category)| <= 1 + |rest|;
    }
  }

  /** The attributes a game card carries (`createGameCard`: `dataset.url`,
      `dataset.name`, `dataset.category`, `dataset.description`, `title`). */
  datatype Card = Card(
    url: string,
    name: string,
    category: string,
    description: string,
    title: string)

  /** `createGameCard`: the card copies the record's identity; a missing
      description is stored as the empty string. The image and its fallback
      are presentation and are not part of the card here. */
  function CreateCard(g: Game): (c: Card)
    ensures c.url == g.url && c.name == g.name && c.category == g.category
    ensures c.title == g.name
    ensures g.description.None? ==> c.description == ""
    ensures g.description.Some? ==> c.description == g.description.value
  {
    Card(g.url, g.name, g.category, g.description.GetOr(""), g.name)
  }

  /** What the games grid can hold. */
  datatype GridItem =
    | CardItem(card: Card)
    | NoGamesPlaceholder                 // '<p class="no-games">No games found.</p>'
    | ErrorMessage(message: string)      // the markup `showError` writes

  /** One card per game, in catalog order. */
  function CardsFor(games: seq<Game>): (items: seq<GridItem>)
    ensures |items| == |games|
    ensures forall i :: 0 <= i < |games| ==> items[i] == CardItem(CreateCard(games[i]))
  {
    seq(|games|, i requires 0 <= i < |games| => CardItem(CreateCard(games[i])))
  }

  /** What the grid holds once rendering has finished: the placeholder for an
      empty catalog, one card per record otherwise. */
  function RenderedItems(games: seq<Game>): seq<GridItem>
  {
    if |games| == 0 then [NoGamesPlaceholder] else CardsFor(games)
  }

  /** The number of cards among `items`. */
  function CardCount(items: seq<GridItem>): nat
  {
    if items == [] then 0
    else (if items[0].CardItem? then 1 else 0) + CardCount(items[1..])
  }

  lemma {:induction false} CardCountOfCards(items: seq<GridItem>)
    requires forall i :: 0 <= i < |items| ==> items[i].CardItem?
    ensures CardCount(items) == |items|
  {
    if items != [] {
      CardCountOfCards(items[1..]);
    }
  }

  /** Rendering shows exactly one card per catalog record; the placeholder
      appears exactly when the catalog is empty, and then alone. */
  lemma RenderedItemsSpec(games: seq<Game>)
    ensures CardCount(RenderedItems(games)) == |games|
    ensures NoGamesPlaceholder in RenderedItems(games) <==> |games| == 0
    ensures |games| == 0 ==> RenderedItems(games) == [NoGamesPlaceholder]
  {
    if |games| > 0 {
      CardCountOfCards(CardsFor(games));
    }
  }

  /** The grid ignores the page's category: on a category page whose catalog
      holds a record of another category, the number of cards differs from
      the size of the filtered view. */
  lemma RenderIgnoresCategory(games: seq<Game>, currentCategory: string, i: int)
    requires currentCategory != AllCategories
    requires 0 <= i < |games| && games[i].category != currentCategory
    ensures CardCount(RenderedItems(games)) == |games|
    ensures CardCount(RenderedItems(games)) > |GamesToShow(games, currentCategory)|
  {
    RenderedItemsSpec(games);
    FilterDropsOtherCategories(games, currentCategory, i);
  }
}
