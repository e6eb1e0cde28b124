/**
 * The two fetchers of the widget: the payloads the catalog service returns,
 * the records the widget keeps, and the projections between them. The HTTP
 * call itself is a parameter: a total function from the request's argument
 * (the search term, the show id) to either the parsed payload or the error.
 */
module Catalog {
  import opened Wrappers

  /** Placeholder used when a show comes without an image. */
  const DefaultImageUrl: string := "https://tinyurl.com/missing-tv"

  /** The only kind of failure a fetch has: transport, HTTP status or JSON. */
  datatype FetchError = NetworkUnreachable | HttpStatus(code: int) | MalformedJson

  /** The `image` object of a show payload; only its medium-size URL is used. */
  datatype RawImage = RawImage(medium: string, original: string)

  /** The nested `show` object of one search result. */
  datatype RawShow = RawShow(id: int, name: string, summary: string, image: Option<RawImage>)

  /** One element of the `search/shows` response. */
  datatype SearchResult = SearchResult(show: RawShow)

  /** One element of the `shows/{id}/episodes` response. */
  datatype RawEpisode = RawEpisode(id: int, name: string, season: int, number: int, airdate: string)

  /** A show as the widget keeps it; `summary` may hold markup and is kept verbatim. */
  datatype Show = Show(id: int, name: string, summary: string, image: string)

  /** An episode as the widget keeps it. */
  datatype Episode = Episode(id: int, name: string, season: int, number: int)

  type SearchService = string -> Result<seq<SearchResult>, FetchError>
  type EpisodeService = int -> Result<seq<RawEpisode>, FetchError>

  function ToShow(r: SearchResult): Show {
    Show(r.show.id, r.show.name, r.show.summary,
         match r.show.image
         case Some(img) => img.medium
         case None => DefaultImageUrl)
  }

  /** The `.map` over the search response: one record per result, in order. */
  function MapShows(data: seq<SearchResult>): (shows: seq<Show>)
    ensures |shows| == |data|
    ensures forall i :: 0 <= i < |data| ==>
      && shows[i].id == data[i].show.id
      && shows[i].name == data[i].show.name
      && shows[i].summary == data[i].show.summary
    ensures forall i :: 0 <= i < |data| && data[i].show.image.Some? ==>
      shows[i].image == data[i].show.image.value.medium
    ensures forall i :: 0 <= i < |data| && data[i].show.image.None? ==>
      shows[i].image == DefaultImageUrl
  {
    if data == [] then [] else [ToShow(data[0])] + MapShows(data[1..])
  }

  function ToEpisode(e: RawEpisode): Episode {
    Episode(e.id, e.name, e.season, e.number)
  }

  /** The `.map` over the episode response: one record per element, in order. */
  function MapEpisodes(data: seq<RawEpisode>): (episodes: seq<Episode>)
    ensures |episodes| == |data|
    ensures forall i :: 0 <= i < |data| ==>
      && episodes[i].id == data[i].id
      && episodes[i].name == data[i].name
      && episodes[i].season == data[i].season
      && episodes[i].number == data[i].number
  {
    if data == [] then [] else [ToEpisode(data[0])] + MapEpisodes(data[1..])
  }

  /**
   * Searches the catalog for `term`, passed through unchanged (even when
   * empty), and maps the response; a failed request propagates its error.
   */
  function GetShowsByTerm(term: string, search: SearchService): (r: Result<seq<Show>, FetchError>)
    ensures r.Failure? <==> search(term).Failure?
    ensures r.Failure? ==> r.error == search(term).error
    ensures r.Success? ==> r.value == MapShows(search(term).value)
  {
    match search(term)
    case Failure(e) => Failure(e)
    case Success(data) => Success(MapShows(data))
  }

  /** Fetches the episodes of show `id` and maps them; a failure propagates. */
  function GetEpisodesOfShow(id: int, episodesOf: EpisodeService): (r: Result<seq<Episode>, FetchError>)
    ensures r.Failure? <==> episodesOf(id).Failure?
    ensures r.Failure? ==> r.error == episodesOf(id).error
    ensures r.Success? ==> r.value == MapEpisodes(episodesOf(id).value)
  {
    match episodesOf(id)
    case Failure(e) => Failure(e)
    case Success(data) => Success(MapEpisodes(data))
  }

  /**
   * Every mapped show has a non-empty image URL, provided the service never
   * sends an image object whose medium URL is empty.
   */
  lemma MappedImagesNonEmpty(data: seq<SearchResult>)
    requires forall i :: 0 <= i < |data| && data[i].show.image.Some? ==>
      data[i].show.image.value.medium != ""
    ensures forall s :: s in MapShows(data) ==> s.image != ""
  {
  }
}
