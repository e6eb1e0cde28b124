# TV Maze search widget — a verified model

The widget lets a user search the TVMaze catalog by title. It lists the
matching shows as cards, and each card has an "Episodes" control that lists
that show's episodes. Two parts of `tvmaze.js` carry behaviour worth stating,
and this project models both.

- **The fetchers** (`Catalog`). `getShowsByTerm` turns each search result
  into a `{id, name, summary, image}` record. The image is the medium URL
  when the show has an image, and the placeholder
  `https://tinyurl.com/missing-tv` otherwise. `getEpisodesOfShow` projects
  each episode to `{id, name, season, number}`. The HTTP call is a
  parameter: a total function from the search term, or from the show id, to
  a `Result` that holds either the parsed response or the fetch error.
  Both fetchers are pure functions over that parameter.
- **The display regions** (`Widget.Page`). The page keeps three pieces of
  state: the show cards, the lines of the episode list, and whether the
  episodes area is visible. `populateShows` and `populateEpisodes` are
  methods that empty their region and then append in a loop.
  `searchForShowAndDisplay` and `getEpisodesAndDisplay` are methods that
  take the remote service as an argument. Each returns how its promise
  ends: `Resolved`, or `Rejected` with the fetch error.
- An episode entry reads `name (season S, episode N)`. The numbers are
  printed the way a template literal prints a whole number up to 2^53 in
  magnitude (`Decimal`). Its partner is a parser, which shows that, once the
  episode's name is known, the entry determines both numbers.
- `Scenarios` proves, for two worked examples, what the handlers leave on
  the page: the "batman" search and the Gotham pilot. It also proves two
  things: rendering the same list twice gives the same list, and a failed
  search leaves the page untouched.

The page markup is not part of this model. The model starts the page with
both lists empty and the episodes area hidden.

## Model

| member | source | states |
|---|---|---|
| Catalog.MapShows | tvmaze.js:27-35 | one record per search result, in response order; id, name and summary are copied from the nested show; image is the medium URL when an image is present and the placeholder otherwise |
| Catalog.MappedImagesNonEmpty | tvmaze.js:33 | no mapped show has an empty image URL, provided no present image has an empty medium URL |
| Catalog.GetShowsByTerm | tvmaze.js:18-36 | the term is passed to the service unchanged, even when empty; it succeeds exactly when the fetch succeeds, with the mapped shows; otherwise it fails with the fetch's own error |
| Catalog.MapEpisodes | tvmaze.js:93-98 | one record per response element, in order, with id, name, season and number copied verbatim |
| Catalog.GetEpisodesOfShow | tvmaze.js:86-99 | fetches with the given show id; succeeds exactly when the fetch succeeds, with the mapped episodes; otherwise fails with the fetch's error |
| Decimal.NatToStringDigits | tvmaze.js:110 | a natural number prints as a non-empty run of digits with no leading zero, one digit long exactly when the number is below ten |
| Decimal.IntToString | tvmaze.js:110 | the printed text is non-empty and starts with '-' exactly when the integer is negative |
| Decimal.IntToStringShape | tvmaze.js:110 | after the optional '-', an integer prints as digits only, with no leading zero when it is not 0 |
| Decimal.ParseNatToString | tvmaze.js:110 | reading the printed digits back gives the natural number that was printed |
| Decimal.ParseIntToString | tvmaze.js:110 | reading a printed integer back gives the integer that was printed |
| Decimal.IntToStringInjective | tvmaze.js:110 | two integers that print alike are equal |
| Decimal.IntToStringHasNo | tvmaze.js:110 | a printed integer contains no character other than digits and '-', so no ',' or ')' of the entry format |
| Widget.EpisodeLine | tvmaze.js:110 | the entry starts with the episode's name and ends with ")"; besides the name and the 20 characters of fixed text it holds at least one character for each number |
| Widget.SplitEntry | tvmaze.js:110 | once the name is known, the season text and the number text can be cut out of an entry, provided the season text holds no comma |
| Widget.EpisodeLineDeterminesNumbers | tvmaze.js:110 | two episodes with the same name and the same entry text have the same season and the same number |
| Widget.Page.constructor | tvmaze.js:9-11 | the page starts with no show cards, no episode entries and the episodes area hidden |
| Widget.Page.PopulateShows | tvmaze.js:42-62 | afterwards the show list is exactly the given shows, in order, whatever it held before; the episode list and visibility are unchanged |
| Widget.Page.PopulateEpisodes | tvmaze.js:104-116 | afterwards the episode list is exactly one entry `name (season S, episode N)` per episode, in input order, whatever it held before; the episodes area is visible even for no episodes; the show list is unchanged |
| Widget.Page.SearchForShowAndDisplay | tvmaze.js:69-74 | on a successful fetch it resolves, the show list is the mapped results and the episodes area is hidden; on a failed fetch it rejects with that error and the show list and visibility are unchanged; the episode entries are never changed |
| Widget.Page.GetEpisodesAndDisplay | tvmaze.js:123-127 | fetches with the id bound to the clicked card; on success it resolves, the episode list renders the mapped episodes and the area is visible; on failure it rejects and the episode list and visibility are unchanged; the show list is never changed |
| Scenarios.SearchBatman | tvmaze.js:69-74 | searching "batman" on a fresh page, with a response of one imageless show, displays that show with the placeholder image and keeps the episodes area hidden |
| Scenarios.PilotEntry | tvmaze.js:110 | the pilot of season 1 is listed as "Pilot (season 1, episode 1)" |
| Scenarios.OpenGothamEpisodes | tvmaze.js:123-127 | clicking the Gotham card fetches show 1 and shows the single entry "Pilot (season 1, episode 1)" in a visible area; a new search hides the area and keeps the entry |
| Scenarios.PopulateShowsTwice | tvmaze.js:42-61 | rendering the same show list twice leaves exactly that list, not a duplicated one |
| Scenarios.FailedSearchKeepsPage | tvmaze.js:69-74 | a search whose fetch fails leaves the show list, the episode entries and the visibility as they were |

## Left out

- The HTTP client, the base URL `https://api.tvmaze.com/` and the query and path construction (tvmaze.js:6, 19-24, 87-91). Each remote service is a function from its argument to a `Result`.
- jQuery lookups, HTML templates, CSS classes and the markup of a card (tvmaze.js:9-12, 46-59). A card is represented by the show it displays. The `summary` is kept verbatim, and HTML escaping is not modelled.
- Finding the show id through the DOM ancestry of the clicked button (tvmaze.js:124). The clicked card is identified by its index, and the card is bound to its show's id. Widget.Page.GetEpisodesAndDisplay requires that index to name a rendered card, because click events only come from rendered cards.
- Event registration and `preventDefault` (tvmaze.js:77-80, 130). These are browser plumbing.
- Interleaving of overlapping asynchronous requests, where whichever response arrives last is rendered. Each handler is modelled as one atomic step that runs after its fetch completes.
- Widget.Page.PopulateEpisodes: an entry is the trimmed text of the `<li>`. The whitespace and line breaks around it in the template are not modelled.
- Decimal.IntToString: season and number are assumed to be at most 2^53 in magnitude. Above that JavaScript holds numbers inexactly and prints their shortest round-trip digits (`${2**60}` is `1152921504606847000`), and from 10^21 on in exponent form (`1e+21`), while the model prints every digit of an unbounded integer.
- `season` and `number` are integers. The service can send `null` for an episode's number, which the template would print as `null`; that case is not modelled.
- A response object whose `image` is present but has no `medium` field would give an `undefined` image. A present image always carries a `medium` string in this model.
