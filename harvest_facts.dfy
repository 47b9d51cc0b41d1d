/** What the harvest walk promises, proved about the fold of module Harvest: which
    GETs it issues and in what order, which cinemas it keeps, how many movie entries a
    cinema gets, and the shape of every showtime map in the snapshot. */
module HarvestFacts {
  import opened Common
  import opened Text
  import opened Movies
  import opened Listing
  import opened Harvest

  // ---------------------------------------------------------------------------
  // Request logs.

  /** The listing URLs of a log, in order. */
  function ListingUrls(log: seq<Request>): seq<string> {
    if log == [] then []
    else ListingUrls(log[..|log| - 1]) + (if log[|log| - 1].ListingGet? then [log[|log| - 1].url] else [])
  }

  lemma {:induction false} ListingUrlsAppend(a: seq<Request>, b: seq<Request>)
    ensures ListingUrls(a + b) == ListingUrls(a) + ListingUrls(b)
  {
    if b != [] {
      assert (a + b)[..|a + b| - 1] == a + b[..|b| - 1];
      ListingUrlsAppend(a, b[..|b| - 1]);
    } else {
      assert a + b == a;
    }
  }

  lemma {:induction false} ListingUrlsOfDayGets(log: seq<Request>)
    requires forall j :: 0 <= j < |log| ==> log[j].DayGet?
    ensures ListingUrls(log) == []
  {
    if log != [] {
      ListingUrlsOfDayGets(log[..|log| - 1]);
    }
  }

  /** `[f"{base}?page={n}" for n in range(n, total + 1)]`. */
  function PageUrls(base: string, n: int, total: int): (r: seq<string>)
    ensures |r| == if n <= total then total - n + 1 else 0
    ensures forall j :: 0 <= j < |r| ==> r[j] == PageUrl(base, n + j)
    decreases total - n
  {
    if n > total then []
    else
      var rest := PageUrls(base, n + 1, total);
      assert forall j :: 0 < j <= |rest| ==> ([PageUrl(base, n)] + rest)[j] == rest[j - 1];
      [PageUrl(base, n)] + rest
  }

  /** The seven day GETs of one cinema, one per date, in date order. */
  function DayRequests(url: string, dates: seq<string>): (r: seq<Request>)
    ensures |r| == |dates|
    ensures forall j :: 0 <= j < |dates| ==> r[j] == DayGet(DayUrl(url, dates[j]))
  {
    if dates == [] then [] else [DayGet(DayUrl(url, dates[0]))] + DayRequests(url, dates[1..])
  }

  /** A day loop that raises nothing issues exactly one GET per remaining date, in
      date order, whatever the statuses. */
  lemma {:induction false} DaysFromLog(dw: DayWalk, web: Web, url: string, week: seq<string>, i: nat)
    requires i <= |week| && dw.failure.None?
    ensures DaysFrom(dw, web, url, week, i).failure.None? ==>
              DaysFrom(dw, web, url, week, i).log == dw.log + DayRequests(url, week[i..])
    decreases |week| - i
  {
    if i == |week| {
      assert week[i..] == [];
      assert dw.log + [] == dw.log;
    } else {
      var s := DayStep(dw, web, url, week[i]);
      if s.failure.Some? {
        DaysFromFailed(s, web, url, week, i + 1);
      } else {
        DaysFromLog(s, web, url, week, i + 1);
        assert week[i..][1..] == week[i + 1..];
        assert s.log == dw.log + [DayGet(DayUrl(url, week[i]))];
      }
    }
  }

  /** One listing card: without an id nothing is fetched and nothing appended; with an
      id, a run that raises nothing fetches the seven day pages in order and appends
      exactly this cinema at the end, with the entries of its seven days. */
  lemma CardStepEffect(w: Walk, web: Web, week: seq<string>, card: CinemaCard)
    requires w.failure.None?
    ensures var c := ExtractCinema(card); var w' := CardStep(w, web, week, card);
      && (!Truthy(c.id) ==> w' == w)
      && (Truthy(c.id) && w'.failure.None? ==>
            && w'.log == w.log + DayRequests(c.url, week)
            && |w'.cinemas| == |w.cinemas| + 1
            && w'.cinemas[..|w.cinemas|] == w.cinemas
            && w'.cinemas[|w.cinemas|].(movies := []) == c
            && w'.cinemas[|w.cinemas|].movies == Flatten(WeekMovies(web, c.url, week, 0)))
  {
    var c := ExtractCinema(card);
    if Truthy(c.id) {
      DaysFromLog(DayWalk([], w.log, None), web, c.url, week, 0);
      DaysFromMovies(DayWalk([], w.log, None), web, c.url, week, 0);
      assert [] + Flatten(WeekMovies(web, c.url, week, 0)) == Flatten(WeekMovies(web, c.url, week, 0));
      assert week[0..] == week;
    }
  }

  lemma {:induction false} CardsFromListing(w: Walk, web: Web, week: seq<string>, cards: seq<CinemaCard>, k: nat)
    requires k <= |cards| && w.failure.None?
    ensures CardsFrom(w, web, week, cards, k).failure.None? ==>
              ListingUrls(CardsFrom(w, web, week, cards, k).log) == ListingUrls(w.log)
    decreases |cards| - k
  {
    if k < |cards| {
      var s := CardStep(w, web, week, cards[k]);
      if s.failure.None? {
        CardStepEffect(w, web, week, cards[k]);
        CardsFromListing(s, web, week, cards, k + 1);
        var c := ExtractCinema(cards[k]);
        if Truthy(c.id) {
          ListingUrlsAppend(w.log, DayRequests(c.url, week));
          ListingUrlsOfDayGets(DayRequests(c.url, week));
        }
      } else {
        CardsFromFailed(s, web, week, cards, k + 1);
      }
    }
  }

  /** One listing page that raises nothing adds exactly its own URL to the listing
      requests. */
  lemma PageStepListing(w: Walk, web: Web, base: string, week: seq<string>, n: int)
    requires w.failure.None?
    ensures var s := PageStep(w, web, base, week, n);
      s.failure.None? ==> ListingUrls(s.log) == ListingUrls(w.log) + [PageUrl(base, n)]
  {
    var s := PageStep(w, web, base, week, n);
    if s.failure.None? {
      var u := PageUrl(base, n);
      var w1 := Walk(w.cinemas, w.log + [ListingGet(u)], None);
      CardsFromListing(w1, web, week, web.listing(u).page.cards, 0);
      ListingUrlsAppend(w.log, [ListingGet(u)]);
      assert ListingUrls([ListingGet(u)]) == [u];
    }
  }

  lemma {:induction false} PagesFromListing(w: Walk, web: Web, base: string, week: seq<string>, n: int, total: int)
    requires w.failure.None?
    ensures PagesFrom(w, web, base, week, n, total).failure.None? ==>
              ListingUrls(PagesFrom(w, web, base, week, n, total).log) == ListingUrls(w.log) + PageUrls(base, n, total)
    decreases total - n
  {
    if n > total {
      assert ListingUrls(w.log) + [] == ListingUrls(w.log);
    } else {
      var s := PageStep(w, web, base, week, n);
      if s.failure.None? {
        var u := PageUrl(base, n);
        PageStepListing(w, web, base, week, n);
        PagesFromListing(s, web, base, week, n + 1, total);
        assert PageUrls(base, n, total) == [u] + PageUrls(base, n + 1, total);
        AppendAssociative(ListingUrls(w.log), [u], PageUrls(base, n + 1, total));
      } else {
        PagesFromFailed(s, web, base, week, n + 1, total);
      }
    }
  }

  /** A run that raises nothing requests the base URL, then listing pages 1..total
      in ascending order, and no other listing URL, where total is the page count read
      from the first page. */
  lemma HarvestListingRequests(web: Web, base: string, week: seq<string>)
    ensures var h := HarvestWalk(web, base, week);
      h.failure.None? ==>
        && web.listing(base).Reply?
        && TotalPages(web.listing(base).page.pagination).Ok?
        && ListingUrls(h.log) == [base] + PageUrls(base, 1, TotalPages(web.listing(base).page.pagination).value)
  {
    var first := web.listing(base);
    if first.Reply? && TotalPages(first.page.pagination).Ok? {
      var total := TotalPages(first.page.pagination).value;
      PagesFromListing(Walk([], [ListingGet(base)], None), web, base, week, 1, total);
      assert ListingUrls([ListingGet(base)]) == [base];
    }
  }

  // ---------------------------------------------------------------------------
  // Movie entries: every card of every day that answered 200 is appended.

  /** The movie cards of day `j` that the loop reads: those of its page when the GET
      answered 200, none otherwise. */
  function DayCards(web: Web, url: string, week: seq<string>, j: nat): seq<MovieCard>
    requires j < |week|
  {
    var reply := web.day(DayUrl(url, week[j]));
    if reply.Reply? && reply.status == 200 then reply.page.movieCards else []
  }

  /** Day `j` neither fails to fetch nor has a card that raises. */
  predicate DayClean(web: Web, url: string, week: seq<string>, j: nat)
    requires j < |week|
  {
    && web.day(DayUrl(url, week[j])).Reply?
    && forall k :: 0 <= k < |DayCards(web, url, week, j)| ==> !CardRaises(DayCards(web, url, week, j)[k])
  }

  /** The movie entries day `j` appends when it is clean. */
  function DayMovies(web: Web, url: string, week: seq<string>, j: nat): seq<Movie>
    requires j < |week|
  {
    match ExtractMovies(DayCards(web, url, week, j), week[j])
    case Ok(ms) => ms
    case Err(_) => []
  }

  /** A clean day gives one entry per card read, the entry of card `k` at position `k`. */
  lemma DayMoviesOfCards(web: Web, url: string, week: seq<string>, j: nat)
    requires j < |week| && DayClean(web, url, week, j)
    ensures |DayMovies(web, url, week, j)| == |DayCards(web, url, week, j)|
    ensures forall k :: 0 <= k < |DayCards(web, url, week, j)| ==>
              ExtractMovie(DayCards(web, url, week, j)[k], week[j]) == Ok(DayMovies(web, url, week, j)[k])
  {
    ExtractMoviesSpec(DayCards(web, url, week, j), week[j]);
  }

  /** One pass of the day loop that raises nothing appends that day's entries, and the
      day was clean. */
  lemma DayStepMovies(dw: DayWalk, web: Web, url: string, week: seq<string>, j: nat)
    requires j < |week| && dw.failure.None?
    ensures var s := DayStep(dw, web, url, week[j]);
      s.failure.None? ==> s.movies == dw.movies + DayMovies(web, url, week, j)
  {
    var s := DayStep(dw, web, url, week[j]);
    var reply := web.day(DayUrl(url, week[j]));
    ExtractMoviesSpec(DayCards(web, url, week, j), week[j]);
    if s.failure.None? && reply.Reply? && reply.status != 200 {
      assert DayCards(web, url, week, j) == [];
      assert ExtractMovies([], week[j]) == Ok([]);
      assert dw.movies + [] == dw.movies;
    }
  }

  /** A pass of the day loop that raises nothing went through a clean day. */
  lemma DayStepClean(dw: DayWalk, web: Web, url: string, week: seq<string>, j: nat)
    requires j < |week| && dw.failure.None?
    ensures DayStep(dw, web, url, week[j]).failure.None? ==> DayClean(web, url, week, j)
  {
    ExtractMoviesSpec(DayCards(web, url, week, j), week[j]);
  }

  /** The entries of each day from `i` on, one list per day, in day order. */
  function WeekMovies(web: Web, url: string, week: seq<string>, i: nat): (r: seq<seq<Movie>>)
    requires i <= |week|
    ensures |r| == |week| - i
    decreases |week| - i
  {
    if i == |week| then [] else [DayMovies(web, url, week, i)] + WeekMovies(web, url, week, i + 1)
  }

  /** The list of day `j` in `WeekMovies(.., i)` is that day's entries. */
  lemma {:induction false} WeekMoviesAt(web: Web, url: string, week: seq<string>, i: nat, j: nat)
    requires i <= j < |week|
    ensures WeekMovies(web, url, week, i)[j - i] == DayMovies(web, url, week, j)
    decreases j - i
  {
    if i < j {
      WeekMoviesAt(web, url, week, i + 1, j);
    }
  }

  /** A day loop that raises nothing keeps the movies it had and appends the entries
      of each day, in day order. */
  lemma {:induction false} DaysFromMovies(dw: DayWalk, web: Web, url: string, week: seq<string>, i: nat)
    requires i <= |week|
    ensures var d := DaysFrom(dw, web, url, week, i);
      d.failure.None? ==> d.movies == dw.movies + Flatten(WeekMovies(web, url, week, i))
    decreases |week| - i, 1
  {
    if i == |week| {
      assert dw.movies + [] == dw.movies;
    } else if dw.failure.Some? {
      DaysFromFailed(dw, web, url, week, i);
    } else {
      DaysFromMoviesStep(dw, web, url, week, i);
    }
  }

  /** The inductive step of `DaysFromMovies`: the pass over day `i`, then the rest. */
  lemma {:induction false} DaysFromMoviesStep(dw: DayWalk, web: Web, url: string, week: seq<string>, i: nat)
    requires i < |week| && dw.failure.None?
    ensures var d := DaysFrom(dw, web, url, week, i);
      d.failure.None? ==> d.movies == dw.movies + Flatten(WeekMovies(web, url, week, i))
    decreases |week| - i, 0
  {
    var s := DayStep(dw, web, url, week[i]);
    if s.failure.Some? {
      DaysFromFailed(s, web, url, week, i + 1);
    } else {
      DayStepMovies(dw, web, url, week, i);
      DaysFromMovies(s, web, url, week, i + 1);
      WeekMoviesFlatten(web, url, week, i);
      AppendAssociative(dw.movies, DayMovies(web, url, week, i), Flatten(WeekMovies(web, url, week, i + 1)));
    }
  }

  /** The entries from day `i` on are those of day `i`, then those of the later days. */
  lemma WeekMoviesFlatten(web: Web, url: string, week: seq<string>, i: nat)
    requires i < |week|
    ensures Flatten(WeekMovies(web, url, week, i))
            == DayMovies(web, url, week, i) + Flatten(WeekMovies(web, url, week, i + 1))
  {
    FlattenCons(DayMovies(web, url, week, i), WeekMovies(web, url, week, i + 1));
  }

  /** Every day a day loop that raises nothing goes through is clean. */
  lemma {:induction false} DaysFromClean(dw: DayWalk, web: Web, url: string, week: seq<string>, i: nat)
    requires i <= |week|
    ensures DaysFrom(dw, web, url, week, i).failure.None? ==>
              forall j :: i <= j < |week| ==> DayClean(web, url, week, j)
    decreases |week| - i
  {
    if i < |week| {
      if dw.failure.Some? {
        DaysFromFailed(dw, web, url, week, i);
      } else {
        var s := DayStep(dw, web, url, week[i]);
        if s.failure.Some? {
          DaysFromFailed(s, web, url, week, i + 1);
        } else {
          DayStepClean(dw, web, url, week, i);
          DaysFromClean(s, web, url, week, i + 1);
        }
      }
    }
  }

  /** A day loop over the whole week that raises nothing appends, after the movies it
      had, one entry per card read on a day that answered 200: the entry of card `k` of
      day `j` comes after the entries of the earlier days and the earlier cards of day
      `j`. So a movie shown on several days is listed once per day. */
  lemma DaysFromMovieAt(dw: DayWalk, web: Web, url: string, week: seq<string>, j: nat, k: nat)
    requires j < |week| && k < |DayCards(web, url, week, j)|
    ensures var d := DaysFrom(dw, web, url, week, 0); var days := WeekMovies(web, url, week, 0);
      d.failure.None? ==>
        && |days[j]| == |DayCards(web, url, week, j)|
        && |d.movies| == |dw.movies| + Offset(days, |week|)
        && |dw.movies| + Offset(days, j) + k < |d.movies|
        && ExtractMovie(DayCards(web, url, week, j)[k], week[j])
           == Ok(d.movies[|dw.movies| + Offset(days, j) + k])
  {
    var d := DaysFrom(dw, web, url, week, 0);
    var days := WeekMovies(web, url, week, 0);
    DaysFromMovies(dw, web, url, week, 0);
    DaysFromClean(dw, web, url, week, 0);
    if d.failure.None? {
      DayMoviesOfCards(web, url, week, j);
      WeekMoviesAt(web, url, week, 0, j);
      FlattenLength(days);
      FlattenAt(days, j, k);
      var n := Offset(days, j) + k;
      assert d.movies[|dw.movies| + n] == Flatten(days)[n];
    }
  }

  // ---------------------------------------------------------------------------
  // Kept cinemas: every listing card with a truthy id, in page order, then card order.

  /** A cinema enriched with the entries of its seven days. */
  function Enriched(web: Web, week: seq<string>, c: Cinema): Cinema {
    c.(movies := Flatten(WeekMovies(web, c.url, week, 0)))
  }

  /** The cinemas a run that raises nothing keeps from a run of listing cards: those
      whose id is truthy, in card order, each enriched with its days. */
  function Kept(web: Web, week: seq<string>, cards: seq<CinemaCard>): seq<Cinema> {
    if cards == [] then []
    else
      var c := ExtractCinema(cards[0]);
      (if Truthy(c.id) then [Enriched(web, week, c)] else []) + Kept(web, week, cards[1..])
  }

  /** The cards of listing page `n`: none when its GET fails (the run then raises). */
  function PageCards(web: Web, base: string, n: int): seq<CinemaCard> {
    match web.listing(PageUrl(base, n))
    case NetworkError => []
    case Reply(_, page) => page.cards
  }

  /** The cinemas kept from listing pages `n..total`, page after page. */
  function KeptPages(web: Web, base: string, week: seq<string>, n: int, total: int): seq<Cinema>
    decreases total - n
  {
    if n > total then [] else Kept(web, week, PageCards(web, base, n)) + KeptPages(web, base, week, n + 1, total)
  }

  /** One card step that raises nothing appends exactly what `Kept` keeps of that card. */
  lemma CardStepKept(w: Walk, web: Web, week: seq<string>, card: CinemaCard)
    requires w.failure.None?
    ensures var s := CardStep(w, web, week, card);
      s.failure.None? ==> s.cinemas == w.cinemas + Kept(web, week, [card])
  {
    var c := ExtractCinema(card);
    assert [card][1..] == [];
    if Truthy(c.id) {
      DaysFromMovies(DayWalk([], w.log, None), web, c.url, week, 0);
      assert [] + Flatten(WeekMovies(web, c.url, week, 0)) == Flatten(WeekMovies(web, c.url, week, 0));
    } else {
      assert w.cinemas + [] == w.cinemas;
    }
  }

  /** The kept cinemas of cards `k..` are those of card `k`, then those of the rest. */
  lemma KeptFrom(web: Web, week: seq<string>, cards: seq<CinemaCard>, k: nat)
    requires k < |cards|
    ensures Kept(web, week, cards[k..]) == Kept(web, week, [cards[k]]) + Kept(web, week, cards[k + 1..])
  {
    assert cards[k..][1..] == cards[k + 1..];
    assert [cards[k]][1..] == [];
    var c := ExtractCinema(cards[k]);
    var head := if Truthy(c.id) then [Enriched(web, week, c)] else [];
    assert Kept(web, week, [cards[k]]) == head + [];
  }

  /** The card loop that raises nothing keeps the cinemas it had and appends the kept
      cinemas of the remaining cards, in card order. */
  lemma {:induction false} CardsFromKept(w: Walk, web: Web, week: seq<string>, cards: seq<CinemaCard>, k: nat)
    requires k <= |cards| && w.failure.None?
    ensures var r := CardsFrom(w, web, week, cards, k);
      r.failure.None? ==> r.cinemas == w.cinemas + Kept(web, week, cards[k..])
    decreases |cards| - k
  {
    if k == |cards| {
      assert cards[k..] == [];
      assert w.cinemas + [] == w.cinemas;
    } else {
      var s := CardStep(w, web, week, cards[k]);
      if s.failure.Some? {
        CardsFromFailed(s, web, week, cards, k + 1);
      } else {
        CardStepKept(w, web, week, cards[k]);
        CardsFromKept(s, web, week, cards, k + 1);
        KeptFrom(web, week, cards, k);
        AppendAssociative(w.cinemas, Kept(web, week, [cards[k]]), Kept(web, week, cards[k + 1..]));
      }
    }
  }

  /** One listing page that raises nothing appends the kept cinemas of its cards. */
  lemma PageStepKept(w: Walk, web: Web, base: string, week: seq<string>, n: int)
    requires w.failure.None?
    ensures var s := PageStep(w, web, base, week, n);
      s.failure.None? ==> s.cinemas == w.cinemas + Kept(web, week, PageCards(web, base, n))
  {
    var u := PageUrl(base, n);
    if web.listing(u).Reply? {
      var cards := web.listing(u).page.cards;
      CardsFromKept(Walk(w.cinemas, w.log + [ListingGet(u)], None), web, week, cards, 0);
      assert cards[0..] == cards;
    }
  }

  /** The page loop that raises nothing appends the kept cinemas of pages `n..total`,
      in page order. */
  lemma {:induction false} PagesFromKept(w: Walk, web: Web, base: string, week: seq<string>, n: int, total: int)
    requires w.failure.None?
    ensures var r := PagesFrom(w, web, base, week, n, total);
      r.failure.None? ==> r.cinemas == w.cinemas + KeptPages(web, base, week, n, total)
    decreases total - n
  {
    if n > total {
      assert w.cinemas + [] == w.cinemas;
    } else {
      var s := PageStep(w, web, base, week, n);
      if s.failure.Some? {
        PagesFromFailed(s, web, base, week, n + 1, total);
      } else {
        PageStepKept(w, web, base, week, n);
        PagesFromKept(s, web, base, week, n + 1, total);
        AppendAssociative(w.cinemas, Kept(web, week, PageCards(web, base, n)), KeptPages(web, base, week, n + 1, total));
      }
    }
  }

  /** The snapshot of a run that raises nothing is exactly the cinemas kept from
      listing pages 1..total, in page order, then card order, where total is the page
      count read from the first page. */
  lemma HarvestKept(web: Web, base: string, week: seq<string>)
    ensures var h := HarvestWalk(web, base, week);
      h.failure.None? ==>
        && web.listing(base).Reply?
        && TotalPages(web.listing(base).page.pagination).Ok?
        && h.cinemas == KeptPages(web, base, week, 1, TotalPages(web.listing(base).page.pagination).value)
  {
    var first := web.listing(base);
    if first.Reply? && TotalPages(first.page.pagination).Ok? {
      var total := TotalPages(first.page.pagination).value;
      PagesFromKept(Walk([], [ListingGet(base)], None), web, base, week, 1, total);
    }
  }

  // ---------------------------------------------------------------------------
  // Every cinema of the snapshot has a URL, and every movie's showtime map holds
  // at most one key, a date of the week, bound to a non-empty list.

  ghost predicate ShowtimesOfOneDay(m: Movie, week: seq<string>) {
    && (forall d :: d in m.showtimes ==> d in week && m.showtimes[d] != [])
    && (forall d, e :: d in m.showtimes && e in m.showtimes ==> d == e)
  }

  ghost predicate WellFormedCinema(c: Cinema, week: seq<string>) {
    && Truthy(c.id)
    && c.url == CinemaUrl(c.id.value)
    && forall m :: m in c.movies ==> ShowtimesOfOneDay(m, week)
  }

  lemma {:induction false} DaysFromWellFormed(dw: DayWalk, web: Web, url: string, week: seq<string>, i: nat)
    requires i <= |week|
    requires forall m :: m in dw.movies ==> ShowtimesOfOneDay(m, week)
    ensures forall m :: m in DaysFrom(dw, web, url, week, i).movies ==> ShowtimesOfOneDay(m, week)
    decreases |week| - i
  {
    if i < |week| {
      var s := DayStep(dw, web, url, week[i]);
      forall m | m in s.movies
        ensures ShowtimesOfOneDay(m, week)
      {
        if m !in dw.movies {
          var cards := web.day(DayUrl(url, week[i])).page.movieCards;
          ExtractMoviesSpec(cards, week[i]);
          var ms := ExtractMovies(cards, week[i]).value;
          assert m in ms;
          var j :| 0 <= j < |ms| && ms[j] == m;
          assert ExtractMovie(cards[j], week[i]) == Ok(m);
        }
      }
      DaysFromWellFormed(s, web, url, week, i + 1);
    }
  }

  lemma {:induction false} CardsFromWellFormed(w: Walk, web: Web, week: seq<string>, cards: seq<CinemaCard>, k: nat)
    requires k <= |cards|
    requires forall c :: c in w.cinemas ==> WellFormedCinema(c, week)
    ensures forall c :: c in CardsFrom(w, web, week, cards, k).cinemas ==> WellFormedCinema(c, week)
    decreases |cards| - k
  {
    if k < |cards| {
      var s := CardStep(w, web, week, cards[k]);
      var c := ExtractCinema(cards[k]);
      if w.failure.None? && Truthy(c.id) {
        DaysFromWellFormed(DayWalk([], w.log, None), web, c.url, week, 0);
      }
      CardsFromWellFormed(s, web, week, cards, k + 1);
    }
  }

  lemma {:induction false} PagesFromWellFormed(w: Walk, web: Web, base: string, week: seq<string>, n: int, total: int)
    requires forall c :: c in w.cinemas ==> WellFormedCinema(c, week)
    ensures forall c :: c in PagesFrom(w, web, base, week, n, total).cinemas ==> WellFormedCinema(c, week)
    decreases total - n
  {
    if n <= total {
      var s := PageStep(w, web, base, week, n);
      if w.failure.None? {
        var u := PageUrl(base, n);
        if web.listing(u).Reply? {
          CardsFromWellFormed(Walk(w.cinemas, w.log + [ListingGet(u)], None), web, week, web.listing(u).page.cards, 0);
        }
      }
      PagesFromWellFormed(s, web, base, week, n + 1, total);
    }
  }

  /** Every cinema the walk keeps has an id and the URL built from it, and every movie
      entry's showtime map is empty or holds one date of the week with its times. */
  lemma HarvestWellFormed(web: Web, base: string, week: seq<string>)
    ensures forall c :: c in HarvestWalk(web, base, week).cinemas ==> WellFormedCinema(c, week)
  {
    var first := web.listing(base);
    if first.Reply? && TotalPages(first.page.pagination).Ok? {
      PagesFromWellFormed(Walk([], [ListingGet(base)], None), web, base, week, 1, TotalPages(first.page.pagination).value);
    }
  }
}
