/** Extraction of one day page of a cinema: the movie cards, each with its id, title,
    director, cast, synopsis and that day's showtimes (scraping.py, the inner loops of
    `scrape_cinemas_data`). A card is given already parsed: each optional field says
    whether the element the scraper looks for was found. */
module Movies {
  import opened Common
  import opened Text

  /** The `a.meta-title-link` element: its `href` attribute (if any) and its text. */
  datatype TitleLink = TitleLink(href: Option<string>, text: string)

  /** One `movie-card-theater` card of a day page.
      - `direction`: the direction block, holding the text of its name span if it has one;
      - `actors`: the actor block, holding the texts of its name spans in order;
      - `synopsis`: the synopsis block, holding the text of its `content-txt` block if any;
      - `showtimes`: the showtimes anchor, holding per hour block the text of its
        hour value if the block has one. */
  datatype MovieCard = MovieCard(
    titleLink: Option<TitleLink>,
    direction: Option<Option<string>>,
    actors: Option<seq<string>>,
    synopsis: Option<Option<string>>,
    showtimes: Option<seq<Option<string>>>)

  /** A day page: the movie cards found on it, in document order. */
  datatype DayPage = DayPage(movieCards: seq<MovieCard>)

  /** A movie as stored in the snapshot. `showtimes` maps a date to its times. */
  datatype Movie = Movie(
    id: Option<string>,
    title: string,
    director: string,
    cast: seq<string>,
    synopsis: string,
    showtimes: map<string, seq<string>>)

  /** The placeholder title, byte for byte as the source spells it (a UTF-8 "í" read
      back as Latin-1). */
  const NoTitle := "T\U{00C3}\U{00AD}tulo no disponible"
  const NoDirector := "Director no disponible"
  const NoSynopsis := "Sinopsis no disponible"

  /** `href.split('-')[-1][:-1]`: the last dash-separated segment minus its final
      character (the trailing slash of a detail link). */
  function MovieId(href: string): string {
    DropLast(AfterLast(href, '-'))
  }

  /** The last segment of `prefix + "-" + tail` is `tail` when `tail` has no dash. */
  lemma {:induction false} AfterLastDash(prefix: string, tail: string)
    requires '-' !in tail
    ensures AfterLast(prefix + "-" + tail, '-') == tail
  {
    var s := prefix + "-" + tail;
    if tail != [] {
      var init := tail[..|tail| - 1];
      assert s[..|s| - 1] == prefix + "-" + init;
      AfterLastDash(prefix, init);
      assert tail == init + [tail[|tail| - 1]];
    }
  }

  /** A detail link `...-<id>/` yields `<id>` whatever comes before the last dash. */
  lemma MovieIdOfDetailLink(prefix: string, id: string, last: char)
    requires '-' !in id && last != '-'
    ensures MovieId(prefix + "-" + id + [last]) == id
  {
    assert prefix + "-" + id + [last] == prefix + "-" + (id + [last]);
    AfterLastDash(prefix, id + [last]);
  }

  /** The times found in the hour blocks, stripped, in block order; blocks without an
      hour value contribute nothing. */
  function FoundTimes(blocks: seq<Option<string>>): (r: seq<string>)
    ensures |r| <= |blocks|
  {
    if blocks == [] then []
    else (if blocks[0].Some? then [Strip(blocks[0].value)] else []) + FoundTimes(blocks[1..])
  }

  /** No time is found exactly when no hour block holds a value. */
  lemma {:induction false} FoundTimesNone(blocks: seq<Option<string>>)
    ensures FoundTimes(blocks) == [] <==> forall i :: 0 <= i < |blocks| ==> blocks[i].None?
  {
    if blocks != [] {
      FoundTimesNone(blocks[1..]);
      assert forall i :: 1 <= i < |blocks| ==> blocks[i] == blocks[1..][i - 1];
    }
  }

  /** How many hour blocks hold a value. */
  function ValueCount(blocks: seq<Option<string>>): nat {
    if blocks == [] then 0 else (if blocks[0].Some? then 1 else 0) + ValueCount(blocks[1..])
  }

  /** The found times are exactly the blocks' values, one per block that holds one, in
      block order: the block at `i` gives the time at position "number of valued
      blocks before `i`", and there are no other times. */
  lemma {:induction false} FoundTimesInOrder(blocks: seq<Option<string>>)
    ensures |FoundTimes(blocks)| == ValueCount(blocks)
    ensures forall i :: 0 <= i < |blocks| && blocks[i].Some? ==>
              ValueCount(blocks[..i]) < |FoundTimes(blocks)|
              && FoundTimes(blocks)[ValueCount(blocks[..i])] == Strip(blocks[i].value)
  {
    if blocks != [] {
      var rest := blocks[1..];
      FoundTimesInOrder(rest);
      var head := if blocks[0].Some? then [Strip(blocks[0].value)] else [];
      assert FoundTimes(blocks) == head + FoundTimes(rest);
      assert blocks[..0] == [];
      forall i | 0 < i < |blocks| && blocks[i].Some?
        ensures ValueCount(blocks[..i]) < |FoundTimes(blocks)|
        ensures FoundTimes(blocks)[ValueCount(blocks[..i])] == Strip(blocks[i].value)
      {
        assert blocks[..i][1..] == rest[..i - 1];
        assert rest[i - 1] == blocks[i];
        assert ValueCount(blocks[..i]) == |head| + ValueCount(rest[..i - 1]);
      }
    }
  }

  /** The loop over the hour blocks that appends each found time. */
  method CollectShowtimes(blocks: seq<Option<string>>) returns (times: seq<string>)
    ensures times == FoundTimes(blocks)
  {
    times := [];
    var i := 0;
    while i < |blocks|
      invariant i <= |blocks|
      invariant FoundTimes(blocks) == times + FoundTimes(blocks[i..])
    {
      FoundTimesFrom(blocks, i);
      if blocks[i].Some? {
        AppendAssociative(times, [Strip(blocks[i].value)], FoundTimes(blocks[i + 1..]));
        times := times + [Strip(blocks[i].value)];
      }
      i := i + 1;
    }
  }

  /** The times from block `i` on: those of block `i`, then those of the later blocks. */
  lemma FoundTimesFrom(blocks: seq<Option<string>>, i: nat)
    requires i < |blocks|
    ensures FoundTimes(blocks[i..])
            == (if blocks[i].Some? then [Strip(blocks[i].value)] else []) + FoundTimes(blocks[i + 1..])
  {
    assert blocks[i..][1..] == blocks[i + 1..];
  }

  /** The showtime map of one card on one day: at most the key `date`, present exactly
      when some hour block held a time, and then bound to the found times. */
  function ShowtimeMap(anchor: Option<seq<Option<string>>>, date: string): (m: map<string, seq<string>>)
    ensures m.Keys <= {date}
    ensures date in m <==> anchor.Some? && exists i :: 0 <= i < |anchor.value| && anchor.value[i].Some?
    ensures date in m ==> m[date] != [] && m[date] == FoundTimes(anchor.value)
  {
    if anchor.Some? then
      FoundTimesNone(anchor.value);
      if FoundTimes(anchor.value) != [] then map[date := FoundTimes(anchor.value)] else map[]
    else map[]
  }

  /** `[t.strip() for t in texts]`. */
  function StripAll(texts: seq<string>): (r: seq<string>)
    ensures |r| == |texts|
    ensures forall i :: 0 <= i < |texts| ==> r[i] == Strip(texts[i])
  {
    if texts == [] then [] else [Strip(texts[0])] + StripAll(texts[1..])
  }

  /** The condition under which reading a card raises: a title link without `href`,
      a direction block without its name span, or a synopsis block without its text. */
  predicate CardRaises(card: MovieCard) {
    (card.titleLink.Some? && card.titleLink.value.href.None?)
    || card.direction == Some(None)
    || card.synopsis == Some(None)
  }

  /** One movie card read on the day `date`. Missing optional elements give a
      placeholder, an empty cast or an empty showtime map; the exceptions are reported
      in the order the source evaluates the fields. */
  function ExtractMovie(card: MovieCard, date: string): (r: Result<Movie, HarvestError>)
    ensures r.Err? <==> CardRaises(card)
    ensures r.Ok? ==> (r.value.id.Some? <==> card.titleLink.Some?)
    ensures r.Ok? ==> r.value.showtimes.Keys <= {date}
    ensures r.Ok? && date in r.value.showtimes ==> r.value.showtimes[date] != []
    ensures r.Ok? ==> |r.value.cast| == (if card.actors.Some? then |card.actors.value| else 0)
    ensures r.Ok? && card.actors.Some? ==>
              forall i :: 0 <= i < |card.actors.value| ==> r.value.cast[i] == Strip(card.actors.value[i])
  {
    if card.titleLink.Some? && card.titleLink.value.href.None? then Err(MissingHref)
    else if card.direction == Some(None) then Err(MissingDirectorName)
    else if card.synopsis == Some(None) then Err(MissingSynopsisText)
    else
      var link := card.titleLink;
      Ok(Movie(
        if link.Some? then Some(MovieId(link.value.href.value)) else None,
        if link.Some? then Strip(link.value.text) else NoTitle,
        if card.direction.Some? then Strip(card.direction.value.value) else NoDirector,
        if card.actors.Some? then StripAll(card.actors.value) else [],
        if card.synopsis.Some? then Strip(card.synopsis.value.value) else NoSynopsis,
        ShowtimeMap(card.showtimes, date)))
  }

  /** A card that does not raise: the id is the movie id of the link's `href` and the
      title its stripped text, or no id and the placeholder title without a link; a
      missing direction or synopsis block gives its placeholder, a missing actor block
      an empty cast, and the showtimes are that day's map. */
  lemma ExtractMovieFields(card: MovieCard, date: string)
    requires !CardRaises(card)
    ensures var m := ExtractMovie(card, date).value;
      && (card.titleLink.None? ==> m.id == None && m.title == NoTitle)
      && (card.titleLink.Some? ==> m.id == Some(MovieId(card.titleLink.value.href.value)))
      && (card.titleLink.Some? ==> m.title == Strip(card.titleLink.value.text))
      && (card.direction.None? ==> m.director == NoDirector)
      && (card.direction.Some? ==> m.director == Strip(card.direction.value.value))
      && (card.actors.None? ==> m.cast == [])
      && (card.actors.Some? ==> m.cast == StripAll(card.actors.value))
      && (card.synopsis.None? ==> m.synopsis == NoSynopsis)
      && (card.synopsis.Some? ==> m.synopsis == Strip(card.synopsis.value.value))
      && m.showtimes == ShowtimeMap(card.showtimes, date)
  {
  }

  /** The body of the loop over one card: the same fields, the showtimes collected by
      the block loop. */
  method ScrapeMovie(card: MovieCard, date: string) returns (r: Result<Movie, HarvestError>)
    ensures r == ExtractMovie(card, date)
  {
    var link := card.titleLink;
    if link.Some? && link.value.href.None? {
      return Err(MissingHref);
    }
    var id := if link.Some? then Some(MovieId(link.value.href.value)) else None;
    var title := if link.Some? then Strip(link.value.text) else NoTitle;
    if card.direction == Some(None) {
      return Err(MissingDirectorName);
    }
    var director := if card.direction.Some? then Strip(card.direction.value.value) else NoDirector;
    var cast := if card.actors.Some? then StripAll(card.actors.value) else [];
    if card.synopsis == Some(None) {
      return Err(MissingSynopsisText);
    }
    var synopsis := if card.synopsis.Some? then Strip(card.synopsis.value.value) else NoSynopsis;
    var showtimes: map<string, seq<string>> := map[];
    if card.showtimes.Some? {
      var times := CollectShowtimes(card.showtimes.value);
      if times != [] {
        showtimes := showtimes[date := times];
      }
    }
    r := Ok(Movie(id, title, director, cast, synopsis, showtimes));
  }

  /** All movie cards of one day, in card order; the first card that raises aborts. */
  function ExtractMovies(cards: seq<MovieCard>, date: string): Result<seq<Movie>, HarvestError> {
    if cards == [] then Ok([])
    else match ExtractMovie(cards[0], date)
      case Err(e) => Err(e)
      case Ok(m) =>
        match ExtractMovies(cards[1..], date)
        case Err(e) => Err(e)
        case Ok(ms) => Ok([m] + ms)
  }

  /** A day's cards succeed exactly when none raises, and then give one movie per
      card, in card order; otherwise the error is that of the first card that raises. */
  lemma {:induction false} ExtractMoviesSpec(cards: seq<MovieCard>, date: string)
    ensures var r := ExtractMovies(cards, date);
      && (r.Ok? <==> forall i :: 0 <= i < |cards| ==> !CardRaises(cards[i]))
      && (r.Ok? ==> |r.value| == |cards|)
      && (r.Ok? ==> forall i :: 0 <= i < |cards| ==> ExtractMovie(cards[i], date) == Ok(r.value[i]))
      && (r.Err? ==> exists i :: 0 <= i < |cards| && ExtractMovie(cards[i], date) == Err(r.error)
                                 && forall j :: 0 <= j < i ==> !CardRaises(cards[j]))
  {
    if cards != [] {
      var rest := cards[1..];
      ExtractMoviesSpec(rest, date);
      assert forall i :: 0 <= i < |rest| ==> rest[i] == cards[i + 1];
      var r := ExtractMovies(cards, date);
      if ExtractMovie(cards[0], date).Ok? && ExtractMovies(rest, date).Err? {
        var i :| 0 <= i < |rest| && ExtractMovie(rest[i], date) == Err(ExtractMovies(rest, date).error)
                 && forall j :: 0 <= j < i ==> !CardRaises(rest[j]);
        assert ExtractMovie(cards[i + 1], date) == Err(r.error);
      }
      if r.Ok? {
        forall i | 0 <= i < |cards|
          ensures ExtractMovie(cards[i], date) == Ok(r.value[i])
        {
          if i > 0 {
            assert cards[i] == rest[i - 1];
          }
        }
      }
    }
  }

  /** The loop over the movie cards of one day page. */
  method ScrapeDayMovies(cards: seq<MovieCard>, date: string) returns (r: Result<seq<Movie>, HarvestError>)
    ensures r == ExtractMovies(cards, date)
  {
    var movies: seq<Movie> := [];
    var i := 0;
    assert cards[0..] == cards;
    assert ExtractMovies(cards[0..], date).Ok? ==> movies + ExtractMovies(cards[0..], date).value == ExtractMovies(cards, date).value;
    while i < |cards|
      invariant i <= |cards|
      invariant ExtractMovies(cards[i..], date).Err? ==> ExtractMovies(cards, date) == ExtractMovies(cards[i..], date)
      invariant ExtractMovies(cards[i..], date).Ok? ==>
                  ExtractMovies(cards, date) == Ok(movies + ExtractMovies(cards[i..], date).value)
    {
      assert cards[i..][0] == cards[i] && cards[i..][1..] == cards[i + 1..];
      var m := ScrapeMovie(cards[i], date);
      if m.Err? {
        return Err(m.error);
      }
      ghost var rest := ExtractMovies(cards[i + 1..], date);
      assert rest.Ok? ==> movies + ([m.value] + rest.value) == (movies + [m.value]) + rest.value;
      movies := movies + [m.value];
      i := i + 1;
    }
    assert cards[i..] == [];
    assert movies + [] == movies;
    r := Ok(movies);
  }
}
