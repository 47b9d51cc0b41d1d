/** The harvest walk of `scrape_cinemas_data` (scraping.py): read the page count from
    the first listing page, walk listing pages 1..total, and for every cinema with an
    id fetch its page for each of the next seven days and collect the movie cards.

    The network is a pair of total functions from URL to reply, supplied by the
    caller; the walk records every GET it issues, in order, in a request log. The
    specification is a fold over a walk state that carries the cinemas collected so
    far, the log and, once an exception has been raised, the error; a raised error is
    never cleared, which is how an uncaught exception ends the whole run. */
module Harvest {
  import opened Common
  import opened Text
  import opened Movies
  import opened Listing

  /** `range(7)`: today and the six days after it. */
  const DaysAhead := 7

  /** One GET issued by the walk. */
  datatype Request = ListingGet(url: string) | DayGet(url: string)

  /** What the source site answers for each listing URL and each day URL. */
  datatype Web = Web(listing: string -> Reply<ListingPage>, day: string -> Reply<DayPage>)

  /** Walk state at cinema level, and at day level inside one cinema. */
  datatype Walk = Walk(cinemas: seq<Cinema>, log: seq<Request>, failure: Option<HarvestError>)
  datatype DayWalk = DayWalk(movies: seq<Movie>, log: seq<Request>, failure: Option<HarvestError>)

  /** `f"{base_url}?page={current_page}"`. */
  function PageUrl(base: string, n: int): string {
    base + "?page=" + DecimalText(n)
  }

  /** `cinema_url + f"#shwt_date={date}"`. */
  function DayUrl(cinemaUrl: string, date: string): string {
    cinemaUrl + "#shwt_date=" + date
  }

  /** One pass of the day loop: fetch the day page; a transport failure raises, a
      status other than 200 adds nothing, otherwise every movie card is appended. */
  function DayStep(dw: DayWalk, web: Web, url: string, date: string): DayWalk {
    if dw.failure.Some? then dw
    else
      var u := DayUrl(url, date);
      var log := dw.log + [DayGet(u)];
      match web.day(u)
      case NetworkError => DayWalk(dw.movies, log, Some(DayFetchFailed(u)))
      case Reply(status, page) =>
        if status != 200 then DayWalk(dw.movies, log, None)
        else
          match ExtractMovies(page.movieCards, date)
          case Err(e) => DayWalk(dw.movies, log, Some(e))
          case Ok(ms) => DayWalk(dw.movies + ms, log, None)
  }

  /** The day loop from day `i` of `week` on. */
  function DaysFrom(dw: DayWalk, web: Web, url: string, week: seq<string>, i: nat): DayWalk
    requires i <= |week|
    decreases |week| - i
  {
    if i == |week| then dw else DaysFrom(DayStep(dw, web, url, week[i]), web, url, week, i + 1)
  }

  /** One listing card: a cinema without an id is skipped altogether (the append sits
      inside the same `if` as the day loop); any other is enriched, then appended. */
  function CardStep(w: Walk, web: Web, week: seq<string>, card: CinemaCard): Walk {
    if w.failure.Some? then w
    else
      var c := ExtractCinema(card);
      if c.url == NoUrl then w
      else
        var dw := DaysFrom(DayWalk([], w.log, None), web, c.url, week, 0);
        if dw.failure.Some? then Walk(w.cinemas, dw.log, dw.failure)
        else Walk(w.cinemas + [c.(movies := dw.movies)], dw.log, None)
  }

  /** The card loop of one listing page from card `k` on. */
  function CardsFrom(w: Walk, web: Web, week: seq<string>, cards: seq<CinemaCard>, k: nat): Walk
    requires k <= |cards|
    decreases |cards| - k
  {
    if k == |cards| then w else CardsFrom(CardStep(w, web, week, cards[k]), web, week, cards, k + 1)
  }

  /** One listing page: fetch it (its status is not looked at) and walk its cards. */
  function PageStep(w: Walk, web: Web, base: string, week: seq<string>, n: int): Walk {
    if w.failure.Some? then w
    else
      var u := PageUrl(base, n);
      var log := w.log + [ListingGet(u)];
      match web.listing(u)
      case NetworkError => Walk(w.cinemas, log, Some(PageFetchFailed(u)))
      case Reply(_, page) => CardsFrom(Walk(w.cinemas, log, None), web, week, page.cards, 0)
  }

  /** The page loop from page `n` to page `total`. */
  function PagesFrom(w: Walk, web: Web, base: string, week: seq<string>, n: int, total: int): Walk
    decreases total - n
  {
    if n > total then w else PagesFrom(PageStep(w, web, base, week, n), web, base, week, n + 1, total)
  }

  /** The whole walk: the first listing page decides the page count. */
  function HarvestWalk(web: Web, base: string, week: seq<string>): Walk {
    var log := [ListingGet(base)];
    match web.listing(base)
    case NetworkError => Walk([], log, Some(PageFetchFailed(base)))
    case Reply(_, first) =>
      match TotalPages(first.pagination)
      case Err(e) => Walk([], log, Some(e))
      case Ok(total) => PagesFrom(Walk([], log, None), web, base, week, 1, total)
  }

  /** What `scrape_cinemas_data` returns or raises. */
  function Outcome(w: Walk): Result<seq<Cinema>, HarvestError> {
    if w.failure.Some? then Err(w.failure.value) else Ok(w.cinemas)
  }

  // ---------------------------------------------------------------------------
  // A raised error ends every loop.

  lemma {:induction false} DaysFromFailed(dw: DayWalk, web: Web, url: string, week: seq<string>, i: nat)
    requires i <= |week| && dw.failure.Some?
    ensures DaysFrom(dw, web, url, week, i) == dw
    decreases |week| - i
  {
    if i < |week| {
      DaysFromFailed(dw, web, url, week, i + 1);
    }
  }

  lemma {:induction false} CardsFromFailed(w: Walk, web: Web, week: seq<string>, cards: seq<CinemaCard>, k: nat)
    requires k <= |cards| && w.failure.Some?
    ensures CardsFrom(w, web, week, cards, k) == w
    decreases |cards| - k
  {
    if k < |cards| {
      CardsFromFailed(w, web, week, cards, k + 1);
    }
  }

  lemma {:induction false} PagesFromFailed(w: Walk, web: Web, base: string, week: seq<string>, n: int, total: int)
    requires w.failure.Some?
    ensures PagesFrom(w, web, base, week, n, total) == w
    decreases total - n
  {
    if n <= total {
      PagesFromFailed(w, web, base, week, n + 1, total);
    }
  }

  // ---------------------------------------------------------------------------
  // The imperative walk, proved against the fold.

  /** The seven-day loop of one cinema, starting from the request log so far. */
  method ScrapeWeek(web: Web, url: string, week: seq<string>, log0: seq<Request>)
    returns (movies: seq<Movie>, log: seq<Request>, failure: Option<HarvestError>)
    ensures DayWalk(movies, log, failure) == DaysFrom(DayWalk([], log0, None), web, url, week, 0)
  {
    ghost var final := DaysFrom(DayWalk([], log0, None), web, url, week, 0);
    movies, log, failure := [], log0, None;
    var i := 0;
    while i < |week|
      invariant i <= |week|
      invariant DaysFrom(DayWalk(movies, log, None), web, url, week, i) == final
    {
      var date := week[i];
      var u := DayUrl(url, date);
      log := log + [DayGet(u)];
      var reply := web.day(u);
      if reply.NetworkError? {
        failure := Some(DayFetchFailed(u));
        DaysFromFailed(DayWalk(movies, log, failure), web, url, week, i + 1);
        return;
      }
      if reply.status == 200 {
        var found := ScrapeDayMovies(reply.page.movieCards, date);
        if found.Err? {
          failure := Some(found.error);
          DaysFromFailed(DayWalk(movies, log, failure), web, url, week, i + 1);
          return;
        }
        movies := movies + found.value;
      }
      i := i + 1;
    }
  }

  /** The body of the card loop: read one card and, when it has an id, enrich it
      and append it. */
  method ScrapeCinemaCard(web: Web, week: seq<string>, card: CinemaCard, cinemas0: seq<Cinema>, log0: seq<Request>)
    returns (cinemas: seq<Cinema>, log: seq<Request>, failure: Option<HarvestError>)
    ensures Walk(cinemas, log, failure) == CardStep(Walk(cinemas0, log0, None), web, week, card)
  {
    cinemas, log, failure := cinemas0, log0, None;
    var cinema := ExtractCinema(card);
    if cinema.url != NoUrl {
      var movies;
      movies, log, failure := ScrapeWeek(web, cinema.url, week, log);
      if failure.None? {
        cinemas := cinemas + [cinema.(movies := movies)];
      }
    }
  }

  /** The card loop of one listing page, continuing the cinema list and the log. */
  method ScrapeListingCards(web: Web, week: seq<string>, cards: seq<CinemaCard>, cinemas0: seq<Cinema>, log0: seq<Request>)
    returns (cinemas: seq<Cinema>, log: seq<Request>, failure: Option<HarvestError>)
    ensures Walk(cinemas, log, failure) == CardsFrom(Walk(cinemas0, log0, None), web, week, cards, 0)
  {
    ghost var final := CardsFrom(Walk(cinemas0, log0, None), web, week, cards, 0);
    cinemas, log, failure := cinemas0, log0, None;
    var k := 0;
    while k < |cards|
      invariant k <= |cards| && failure.None?
      invariant CardsFrom(Walk(cinemas, log, None), web, week, cards, k) == final
    {
      cinemas, log, failure := ScrapeCinemaCard(web, week, cards[k], cinemas, log);
      if failure.Some? {
        CardsFromFailed(Walk(cinemas, log, failure), web, week, cards, k + 1);
        return;
      }
      k := k + 1;
    }
  }

  /** `scrape_cinemas_data`: the result, or the error it raises, and every GET it
      issued, exactly as the fold `HarvestWalk` describes. */
  method ScrapeCinemasData(web: Web, base: string, week: seq<string>)
    returns (r: Result<seq<Cinema>, HarvestError>, log: seq<Request>)
    requires |week| == DaysAhead
    ensures r == Outcome(HarvestWalk(web, base, week))
    ensures log == HarvestWalk(web, base, week).log
  {
    log := [ListingGet(base)];
    var first := web.listing(base);
    if first.NetworkError? {
      return Err(PageFetchFailed(base)), log;
    }
    var pages := TotalPages(first.page.pagination);
    if pages.Err? {
      return Err(pages.error), log;
    }
    var total := pages.value;
    ghost var final := HarvestWalk(web, base, week);
    var cinemas: seq<Cinema> := [];
    var page := 1;
    while page <= total
      invariant PagesFrom(Walk(cinemas, log, None), web, base, week, page, total) == final
      decreases total - page
    {
      ghost var before := Walk(cinemas, log, None);
      var url := PageUrl(base, page);
      log := log + [ListingGet(url)];
      var reply := web.listing(url);
      if reply.NetworkError? {
        assert PageStep(before, web, base, week, page) == Walk(cinemas, log, Some(PageFetchFailed(url)));
        PagesFromFailed(Walk(cinemas, log, Some(PageFetchFailed(url))), web, base, week, page + 1, total);
        return Err(PageFetchFailed(url)), log;
      }
      var failure;
      cinemas, log, failure := ScrapeListingCards(web, week, reply.page.cards, cinemas, log);
      assert PageStep(before, web, base, week, page) == Walk(cinemas, log, failure);
      if failure.Some? {
        PagesFromFailed(Walk(cinemas, log, failure), web, base, week, page + 1, total);
        return Err(failure.value), log;
      }
      page := page + 1;
    }
    r := Ok(cinemas);
  }
}
