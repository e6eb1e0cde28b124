/**
 * Clients of the page: for the widget's worked examples, what the handlers
 * leave on the page, proved from the handlers' contracts alone.
 */
module Scenarios {
  import opened Wrappers
  import opened Catalog
  import opened Widget
  import Decimal

  /** The catalog answers "batman" with one show that has no image. */
  function BatmanCatalog(term: string): Result<seq<SearchResult>, FetchError> {
    if term == "batman" then Success([SearchResult(RawShow(1, "Gotham", "<p>dark</p>", None))])
    else Success([])
  }

  /** The catalog lists one episode for show 1 and fails for every other show. */
  function GothamEpisodes(id: int): Result<seq<RawEpisode>, FetchError> {
    if id == 1 then Success([RawEpisode(10, "Pilot", 1, 1, "2014-09-22")])
    else Failure(HttpStatus(404))
  }

  /** The pilot of season 1 is listed as "Pilot (season 1, episode 1)". */
  lemma PilotEntry()
    ensures EpisodeLine(Episode(10, "Pilot", 1, 1)) == "Pilot (season 1, episode 1)"
  {
    assert Decimal.IntToString(1) == Decimal.NatToString(1) == "1";
  }

  /** Searching "batman" on a fresh page shows Gotham with the placeholder image. */
  method SearchBatman() returns (shows: seq<Show>, visible: bool, done: Completion)
    ensures shows == [Show(1, "Gotham", "<p>dark</p>", DefaultImageUrl)]
    ensures !visible && done == Resolved
  {
    var page := new Page();
    done := page.SearchForShowAndDisplay("batman", BatmanCatalog);
    shows, visible := page.shows, page.episodesVisible;
  }

  /**
   * After the search, the Gotham card's control fetches show 1's episodes and
   * the episodes area shows one entry; a second search hides it again and
   * keeps the entry.
   */
  method OpenGothamEpisodes() returns (requested: int, lines: seq<string>, visibleAfterClick: bool, visibleAfterSearch: bool)
    ensures requested == 1
    ensures lines == ["Pilot (season 1, episode 1)"]
    ensures visibleAfterClick && !visibleAfterSearch
  {
    var page := new Page();
    var _ := page.SearchForShowAndDisplay("batman", BatmanCatalog);
    var done;
    requested, done := page.GetEpisodesAndDisplay(0, GothamEpisodes);
    visibleAfterClick := page.episodesVisible;
    var pilot := Episode(10, "Pilot", 1, 1);
    assert MapEpisodes(GothamEpisodes(1).value) == [pilot];
    PilotEntry();
    assert page.episodeLines == [EpisodeLine(pilot)];
    var _ := page.SearchForShowAndDisplay("batman", BatmanCatalog);
    lines, visibleAfterSearch := page.episodeLines, page.episodesVisible;
  }

  /** Rendering the same show list twice leaves it as rendering it once. */
  method PopulateShowsTwice(shows: seq<Show>) returns (once: seq<Show>, twice: seq<Show>)
    ensures once == shows && twice == shows
  {
    var page := new Page();
    page.PopulateShows(shows);
    once := page.shows;
    page.PopulateShows(shows);
    twice := page.shows;
  }

  /** A failed search rejects and leaves every region as it was. */
  method FailedSearchKeepsPage(shows: seq<Show>, episodes: seq<Episode>) returns (after: seq<Show>, lines: seq<string>, visible: bool)
    ensures after == shows && lines == RenderEpisodes(episodes) && visible
  {
    var page := new Page();
    page.PopulateShows(shows);
    page.PopulateEpisodes(episodes);
    var _ := page.SearchForShowAndDisplay("x", _ => Failure(NetworkUnreachable));
    after, lines, visible := page.shows, page.episodeLines, page.episodesVisible;
  }
}
