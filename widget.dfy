/**
 * The widget's display regions and the handlers that update them. The page
 * holds three pieces of state: the rendered show cards (each bound to its
 * show's id), the lines of the episode list, and whether the episodes area
 * is visible. Markup, CSS classes and DOM lookups are not modelled; a card
 * is represented by the show it displays.
 */
module Widget {
  import opened Catalog
  import Decimal

  /** How an asynchronous handler ends: its promise resolves or rejects. */
  datatype Completion = Resolved | Rejected(error: FetchError)

  /** The text of one episode-list entry: `name (season S, episode N)`. */
  function EpisodeLine(e: Episode): (line: string)
    ensures |line| >= |e.name| + 22
    ensures line[..|e.name|] == e.name && line[|line| - 1] == ')'
  {
    e.name + " (season " + Decimal.IntToString(e.season)
      + ", episode " + Decimal.IntToString(e.number) + ")"
  }

  /** The entries of the episode list for `episodes`, one per episode, in order. */
  function RenderEpisodes(episodes: seq<Episode>): seq<string> {
    seq(|episodes|, k requires 0 <= k < |episodes| => EpisodeLine(episodes[k]))
  }

  /** If `a + b == c + d`, neither `a` nor `c` holds a comma, and `b` and `d` start with one, the split is the same. */
  lemma SplitAtComma(a: string, b: string, c: string, d: string)
    requires a + b == c + d
    requires ',' !in a && ',' !in c
    requires |b| > 0 && b[0] == ',' && |d| > 0 && d[0] == ','
    ensures a == c && b == d
  {
    var s := a + b;
    assert s[|a|] == ',' && s[|c|] == ',';
    assert forall k :: 0 <= k < |a| ==> s[k] == a[k];
    assert forall k :: 0 <= k < |c| ==> s[k] == c[k];
    assert |a| == |c|;
    assert a == (a + b)[..|a|];
    assert c == (c + d)[..|c|];
    assert b == (a + b)[|a|..];
    assert d == (c + d)[|c|..];
  }

  /**
   * The two numbers of an entry can be cut out of it once the name is known,
   * provided the season's text holds no comma.
   */
  lemma SplitEntry(name: string, s1: string, n1: string, s2: string, n2: string)
    requires ',' !in s1 && ',' !in s2
    requires name + " (season " + s1 + ", episode " + n1 + ")"
          == name + " (season " + s2 + ", episode " + n2 + ")"
    ensures s1 == s2 && n1 == n2
  {
    var head := name + " (season ";
    var u1, u2 := ", episode " + n1 + ")", ", episode " + n2 + ")";
    assert head + s1 + ", episode " + n1 + ")" == head + (s1 + u1);
    assert head + s2 + ", episode " + n2 + ")" == head + (s2 + u2);
    assert s1 + u1 == (head + (s1 + u1))[|head|..];
    assert s2 + u2 == (head + (s2 + u2))[|head|..];
    SplitAtComma(s1, u1, s2, u2);
    assert n1 == u1[10..|u1| - 1];
    assert n2 == u2[10..|u2| - 1];
  }

  /**
   * Given the episode's name, its entry determines its season and number:
   * the entry shows the two numbers without ambiguity.
   */
  lemma EpisodeLineDeterminesNumbers(e1: Episode, e2: Episode)
    requires e1.name == e2.name
    requires EpisodeLine(e1) == EpisodeLine(e2)
    ensures e1.season == e2.season && e1.number == e2.number
  {
    Decimal.IntToStringHasNo(e1.season, ',');
    Decimal.IntToStringHasNo(e2.season, ',');
    SplitEntry(e1.name, Decimal.IntToString(e1.season), Decimal.IntToString(e1.number),
               Decimal.IntToString(e2.season), Decimal.IntToString(e2.number));
    Decimal.IntToStringInjective(e1.season, e2.season);
    Decimal.IntToStringInjective(e1.number, e2.number);
  }

  /** The page: the show list, the episode list and the episodes area. */
  class Page {
    /** The rendered show cards, in display order; each is bound to its show's id. */
    var shows: seq<Show>
    /** The entries of the episode list, in display order. */
    var episodeLines: seq<string>
    /** Whether the episodes area is shown. */
    var episodesVisible: bool

    /** The page as loaded: both lists empty, the episodes area hidden. */
    constructor ()
      ensures shows == [] && episodeLines == [] && !episodesVisible
    {
      shows := [];
      episodeLines := [];
      episodesVisible := false;
    }

    /** Empties the show list, then appends one card per show, in order. */
    method PopulateShows(newShows: seq<Show>)
      modifies this`shows
      ensures shows == newShows
      ensures episodeLines == old(episodeLines) && episodesVisible == old(episodesVisible)
    {
      shows := [];
      for i := 0 to |newShows|
        invariant shows == newShows[..i]
      {
        shows := shows + [newShows[i]];
      }
    }

    /**
     * Empties the episode list, appends one entry per episode, in order, and
     * then shows the episodes area, also when there are no episodes.
     */
    method PopulateEpisodes(episodes: seq<Episode>)
      modifies this`episodeLines, this`episodesVisible
      ensures episodeLines == RenderEpisodes(episodes)
      ensures |episodeLines| == |episodes|
      ensures forall k :: 0 <= k < |episodes| ==> episodeLines[k] == EpisodeLine(episodes[k])
      ensures episodesVisible
      ensures shows == old(shows)
    {
      ghost var rendered := RenderEpisodes(episodes);
      episodeLines := [];
      for i := 0 to |episodes|
        invariant episodeLines == rendered[..i]
      {
        episodeLines := episodeLines + [EpisodeLine(episodes[i])];
      }
      assert rendered[..|episodes|] == rendered;
      episodesVisible := true;
    }

    /**
     * Handles a search for `term`: fetches first, and only once the fetch
     * has succeeded hides the episodes area and replaces the show list. A
     * failed fetch rejects and leaves the page as it was. The episode list's
     * entries are never touched.
     */
    method SearchForShowAndDisplay(term: string, search: SearchService) returns (done: Completion)
      modifies this`shows, this`episodesVisible
      ensures search(term).Success? ==>
        && done == Resolved
        && shows == MapShows(search(term).value)
        && !episodesVisible
      ensures search(term).Failure? ==>
        && done == Rejected(search(term).error)
        && shows == old(shows)
        && episodesVisible == old(episodesVisible)
      ensures episodeLines == old(episodeLines)
    {
      var fetched := GetShowsByTerm(term, search);
      if fetched.Failure? {
        return Rejected(fetched.error);
      }
      episodesVisible := false;
      PopulateShows(fetched.value);
      done := Resolved;
    }

    /**
     * Handles a click on the episodes control of card `card`: fetches with
     * the id the card is bound to, then renders the episodes. A failed fetch
     * rejects and leaves the page as it was.
     */
    method GetEpisodesAndDisplay(card: nat, episodesOf: EpisodeService) returns (requested: int, done: Completion)
      requires card < |shows|
      modifies this`episodeLines, this`episodesVisible
      ensures requested == shows[card].id
      ensures episodesOf(requested).Success? ==>
        && done == Resolved
        && episodeLines == RenderEpisodes(MapEpisodes(episodesOf(requested).value))
        && episodesVisible
      ensures episodesOf(requested).Failure? ==>
        && done == Rejected(episodesOf(requested).error)
        && episodeLines == old(episodeLines)
        && episodesVisible == old(episodesVisible)
      ensures shows == old(shows)
    {
      requested := shows[card].id;
      var fetched := GetEpisodesOfShow(requested, episodesOf);
      if fetched.Failure? {
        return requested, Rejected(fetched.error);
      }
      PopulateEpisodes(fetched.value);
      done := Resolved;
    }
  }
}
