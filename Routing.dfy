/** The game-card click handler of `setupEventListeners`: where a click on a
    card takes the browser. */
module Routing {
  import opened Wrappers
  import opened Catalog

  /** A page to go to and its query, as an ordered list of key/value pairs
      (what `new URLSearchParams({...})` holds before it is serialised). */
  datatype Navigation = Navigation(page: string, query: seq<(string, string)>)

  const GamePage: string := "gamepage.html"

  /** The keys of a query, in order. */
  function Keys(query: seq<(string, string)>): (ks: seq<string>)
    ensures |ks| == |query|
    ensures forall i :: 0 <= i < |query| ==> ks[i] == query[i].0
  {
    if query == [] then [] else [query[0].0] + Keys(query[1..])
  }

  /** `URLSearchParams.get(key)`: the value of the first pair with that key. */
  function Param(query: seq<(string, string)>, key: string): (v: Option<string>)
    ensures v.None? <==> key !in Keys(query)
    ensures v.Some? ==> exists i :: 0 <= i < |query| && query[i] == (key, v.value)
  {
    if query == [] then None
    else if query[0].0 == key then Some(query[0].1)
    else
      assert forall i :: 0 < i < |query| ==> query[i] == query[1..][i - 1];
      Param(query[1..], key)
  }

  /** The card-click decision: no navigation for a card whose url is empty;
      otherwise the game page with `url`, `name` and `description`, in that
      order. The `|| ''` default leaves a string description as it is, and
      a card's description is always a string (`createGameCard` stores `''`
      for a missing one). */
  function CardClickTarget(card: Card): (n: Option<Navigation>)
    ensures n.Some? <==> card.url != ""
    ensures n.Some? ==> n.value.page == GamePage
    ensures n.Some? ==> Keys(n.value.query) == ["url", "name", "description"]
  {
    if card.url == "" then None
    else
      Some(Navigation(GamePage, [("url", card.url), ("name", card.name), ("description", card.description)]))
  }

  /** Reading the query back on the game page gives the record's url, name
      and description (the empty string when the record has none); a record
      with an empty url gives a card that does not navigate. */
  lemma CardClickRoundTrip(g: Game)
    ensures g.url == "" ==> CardClickTarget(CreateCard(g)).None?
    ensures g.url != "" ==>
      var n := CardClickTarget(CreateCard(g));
      n.Some? && n.value.page == GamePage &&
      Param(n.value.query, "url") == Some(g.url) &&
      Param(n.value.query, "name") == Some(g.name) &&
      Param(n.value.query, "description") == Some(g.description.GetOr(""))
  {
  }
}
