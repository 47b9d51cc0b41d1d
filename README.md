# Sensacine cinema scraper — a Dafny model

This project models the core of a scraper for the Spanish cinema listings site
sensacine.com and of the small Flask API that queries its data.

`scrape_cinemas_data` (scraping.py) is the harvest walk:
- It reads the page count from the first listing page.
- It walks listing pages 1..total.
- For every cinema card it reads a name, an address, a screen count and an id, using placeholders when an element is missing.
- For every cinema with an id, it fetches that cinema's page for each of the next seven days. Every movie card of every day whose fetch answered status 200 yields an entry: an id, title, director, cast, synopsis and a map from that day's date to its times. A day answering another status contributes nothing.

The store protocol keeps one snapshot document per day, keyed by the `YYYYMMDD` date:
- `check_if_document_exists` checks for a document;
- `save_to_cosmosdb` upserts one;
- `scrape_and_save` scrapes and saves only when the document of the day it checks is absent, so it runs at most once per day as long as its clock readings fall on one day.

The API (app.py) has three operations:
- `get_cines` filters the theater blocks of a city page;
- `get_horarios` returns the first cinema/movie pair whose name and title match ignoring case;
- `get_cines_pelicula` returns every cinema showing a title.

Modules:
- `Common`: Option, Result, a server reply (status and page, or a transport failure), and the exceptions the scraper can raise.
- `Text`: Python's `str.strip`, `str.lower`, `str(int)`, `int(str)` and `split('-')[-1][:-1]`, with their laws.
- `Listing`: listing pages, cinema cards, the page count, and the cinema URL.
- `Movies`: day pages and movie cards, the movie id, and the showtime map. `CollectShowtimes` and `ScrapeDayMovies` are the loops over hour blocks and over a day's cards, and `ScrapeMovie` is the body of the card loop; each is proved equal to a function.
- `Harvest`: the whole walk.
  - The walk is specified as a fold (`HarvestWalk`) over a state that holds the cinemas collected so far, the log of every GET issued, and the exception once one is raised.
  - `ScrapeCinemasData` is the imperative walk with its nested loops, proved equal to the fold.
- `HarvestFacts`: what the walk promises, proved about the fold:
  - which listing URLs it requests, in order;
  - the seven day requests per cinema;
  - which cinemas it keeps, and in what order;
  - which movie entries a cinema gets, and in what order;
  - the shape of each showtime map.
- `Store`: the container as a class over a map, and `ScrapeAndSave`.
- `Api`: `get_cines`, `get_horarios` and `get_cines_pelicula` as loops over parsed records, proved against search predicates and collection functions.

How I/O is represented:
- The network is a parameter: a `Web` value maps every listing URL and every day URL to a reply.
- The clock is a parameter: the key read before the existence check, the key read when saving, and the seven dates are passed in.
- HTML is given already parsed: a page is a record whose optional fields say which elements were found.

Where the code and its documentation disagree, the model follows the code:
- A transport failure on a day fetch is not caught. It aborts the whole run, like one on a listing page. Only a status other than 200 skips a day.
- A cinema with no id (or a falsy one: `0`, `""`) is dropped from the result. It is not kept with an empty movie list, because the append sits inside the same `if` as the day loop.
- The status of a listing page is not looked at.
- The first listing page is fetched twice: once as the bare base URL to read the page count, then as `?page=1`.
- Some malformed cards raise instead of getting a placeholder, and the model reports each of these as an error:
  - a pagination holder without buttons;
  - a page label that is not an integer;
  - a title link without `href`;
  - a direction block without its name span;
  - a synopsis block without its text.
- In `get_cines`, a complete block without a screen-number element raises.

## Model

| member | source | states |
|---|---|---|
| Text.StripSpec | scraping.py:46 | `strip()` removes exactly the leading and trailing white space. The result is a slice of the input with only white space around it, and it neither starts nor ends with white space. |
| Text.StripPadded | scraping.py:46 | Stripping white space + x + white space gives back x when x is already stripped. |
| Text.StripIdempotent | scraping.py:46 | Stripping twice is stripping once. |
| Text.Lower | app.py:138-140 | `lower()` keeps the length and lowers each character in place. |
| Text.SameIgnoringCaseCharwise | app.py:138-140 | Two strings compare equal after `lower()` exactly when they have the same length and agree character by character up to case. |
| Text.DecimalTextRoundTrip | scraping.py:46 | `int(str(n)) == n` for every integer, negative ones included. |
| Text.AfterLast | scraping.py:115 | `split(sep)[-1]` is a suffix with no separator in it. When shorter than the input, it is preceded by the separator. |
| Listing.CinemaUrl | scraping.py:85 | The cinema URL starts with the site prefix and ends with `/`, and the id's text is exactly what lies between them, so the id can be read back. It never equals the sentinel. |
| Listing.TotalPages | scraping.py:43-48 | There is 1 page without a pagination holder. A holder without buttons raises. Otherwise the count is `int` of the last button's stripped label, and it raises when the label does not parse. |
| Listing.TotalPagesFromLastButton | scraping.py:43-46 | A last button labelled with the numeral of n, with any white space around it and any buttons before it, gives n pages. |
| Listing.ExtractCinema | scraping.py:64-95 | The id is the theater attribute's id when the attribute is present, and none otherwise. A card gets a URL other than the sentinel exactly when its id is truthy, and then the URL is built from that id. The movie list starts empty. |
| Listing.ExtractCinemaFields | scraping.py:66-75 | A missing name, address or screen count yields its placeholder and never aborts the card. A present one yields its stripped text. |
| Movies.AfterLastDash | scraping.py:115 | The last dash segment of `prefix-tail` is `tail` when `tail` has no dash. |
| Movies.MovieIdOfDetailLink | scraping.py:115 | A link `...-<id>/` yields the movie id `<id>`, whatever precedes the last dash. |
| Movies.FoundTimes | scraping.py:136-141 | There is at most one time per hour block. |
| Movies.FoundTimesNone | scraping.py:136-142 | The list is empty exactly when no block holds a value. |
| Movies.FoundTimesInOrder | scraping.py:136-141 | The times are exactly the stripped values of the blocks that hold one, in block order: there is one time per valued block, and the block at i gives the time at position "number of valued blocks before i". |
| Movies.CollectShowtimes | scraping.py:137-141 | The hour-block loop collects exactly `FoundTimes`. |
| Movies.ShowtimeMap | scraping.py:133-143 | The only possible key is that day's date. It is present exactly when some block held a time, and then it maps to the non-empty found times. |
| Movies.StripAll | scraping.py:126 | One entry per text, entry i being text i stripped. |
| Movies.ExtractMovie | scraping.py:113-153 | A card raises exactly when it has a link without `href`, a direction block without a name span, or a synopsis block without text. Otherwise there is an id exactly when there is a link, the showtimes hold at most that day's non-empty list, and cast entry i is actor span i stripped. |
| Movies.ExtractMovieFields | scraping.py:114-152 | For a card that does not raise: the id comes from the link's `href` and the title is the link's stripped text, or the title is the placeholder. The director and synopsis are the stripped texts of their blocks, and the cast the stripped actor spans. Missing blocks give the director or synopsis placeholder or an empty cast, and the showtimes are that day's map. |
| Movies.ScrapeMovie | scraping.py:113-153 | The loop body over one card computes exactly `ExtractMovie`, with the same exception order. |
| Movies.ExtractMoviesSpec | scraping.py:110-156 | A day succeeds exactly when no card raises. Then it yields one movie per card, in card order. Otherwise the error is that of the first card that raises. |
| Movies.ScrapeDayMovies | scraping.py:110-156 | The loop over a day's movie cards computes exactly `ExtractMovies`. |
| Harvest.DaysFromFailed | scraping.py:99-103 | Once a day fetch has raised, the remaining days change nothing. |
| Harvest.CardsFromFailed | scraping.py:64-161 | Once a card has raised, the remaining cards change nothing. |
| Harvest.PagesFromFailed | scraping.py:53-56 | Once a page has raised, the remaining pages change nothing. |
| Harvest.ScrapeWeek | scraping.py:99-159 | The seven-day loop yields exactly the movies, request log and exception that the fold `DaysFrom` describes. |
| Harvest.ScrapeCinemaCard | scraping.py:64-161 | The card-loop body yields exactly what `CardStep` describes. A cinema without an id is skipped; one with an id is enriched and then appended. |
| Harvest.ScrapeListingCards | scraping.py:64-161 | The card loop of one page yields exactly what `CardsFrom` describes. |
| Harvest.ScrapeCinemasData | scraping.py:32-163 | The whole walk returns, or raises, exactly as `HarvestWalk` describes, and issues exactly its log of GETs. |
| HarvestFacts.PageUrls | scraping.py:53-55 | Pages n..total give total-n+1 URLs, the j-th being `base?page=n+j`. |
| HarvestFacts.DayRequests | scraping.py:99-103 | There is one day GET per date, in date order, at `url#shwt_date=date`. |
| HarvestFacts.DaysFromLog | scraping.py:99-104 | A day loop that raises nothing issues exactly one GET per date, in order, whatever the statuses. |
| HarvestFacts.CardStepEffect | scraping.py:78-161 | A card without an id issues no request and appends nothing. One with an id, when nothing raises, fetches the seven days in order and appends exactly this cinema, after the earlier ones, its movie list being the entries of its seven days in day order. |
| HarvestFacts.CardsFromListing | scraping.py:64-161 | A card loop that raises nothing requests no listing URL. |
| HarvestFacts.PagesFromListing | scraping.py:53-62 | The page loop from n to total that raises nothing requests exactly the listing URLs of pages n..total, in ascending order. |
| HarvestFacts.HarvestListingRequests | scraping.py:40-56 | A run that raises nothing requests the base URL, then pages 1..total ascending, and no other listing URL. Here total is the count read from the first page. |
| HarvestFacts.DayMoviesOfCards | scraping.py:108-156 | A day without a failed fetch or a raising card yields one entry per card read, the entry of card k at position k. |
| HarvestFacts.DayStepMovies | scraping.py:99-156 | One pass of the day loop that raises nothing appends that day's entries: those of its cards when it answered 200, none otherwise. |
| HarvestFacts.DayStepClean | scraping.py:99-156 | One pass of the day loop that raises nothing went through a day whose fetch did not fail and none of whose cards raises. |
| HarvestFacts.DaysFromMovies | scraping.py:99-156 | A day loop that raises nothing keeps the earlier movies and appends the entries of each day, in day order. |
| HarvestFacts.DaysFromClean | scraping.py:99-156 | A day loop that raises nothing went only through days whose fetch did not fail and none of whose cards raises. |
| HarvestFacts.DaysFromMovieAt | scraping.py:99-156 | After a week that raises nothing, every card read on a day that answered 200 has its own entry: card k of day j is at position (earlier movies) + (entries of days before j) + k, and each day contributes as many entries as it has cards. So a movie shown on k days is listed k times. |
| HarvestFacts.CardStepKept | scraping.py:78-161 | One card that raises nothing appends exactly what `Kept` keeps of it: the cinema enriched with its days when its id is truthy, nothing otherwise. |
| HarvestFacts.CardsFromKept | scraping.py:64-161 | The card loop that raises nothing keeps the cinemas it had and appends the kept cinemas of the remaining cards, in card order. |
| HarvestFacts.PageStepKept | scraping.py:53-62 | One listing page that raises nothing appends the kept cinemas of its cards. |
| HarvestFacts.PagesFromKept | scraping.py:53-62 | The page loop that raises nothing appends the kept cinemas of pages n..total, in page order. |
| HarvestFacts.HarvestKept | scraping.py:32-163 | The snapshot of a run that raises nothing is exactly the cinemas with a truthy id from listing pages 1..total, in page order then card order, each with the entries of its seven days. |
| HarvestFacts.DaysFromWellFormed | scraping.py:133-156 | Every movie entry a day loop adds has a showtime map that is empty, or holds one date of the week with a non-empty list. |
| HarvestFacts.CardsFromWellFormed | scraping.py:78-161 | Every cinema the card loop appends has a truthy id, the URL built from it, and well-formed showtime maps. |
| HarvestFacts.PagesFromWellFormed | scraping.py:53-161 | The page loop keeps that property. |
| HarvestFacts.HarvestWellFormed | scraping.py:32-163 | Every cinema of the snapshot has an id and its URL, and every movie entry holds at most one date, bound to a non-empty list of times. |
| Store.Container.CheckIfDocumentExists | scraping.py:179-188 | The id query finds a document exactly when one is stored under that id. |
| Store.Container.UpsertItem | scraping.py:202 | The upsert inserts the document, or replaces the one with that id, and leaves the rest. |
| Store.Container.SaveToCosmosDb | scraping.py:190-202 | It stores `{id: key, date: key, data}` under the key it reads from the clock, overwriting any earlier one. |
| Store.ScrapeAndSave | scraping.py:205-223 | If the document of the day read before the check exists, it neither scrapes nor writes. Otherwise it scrapes, and unless the scrape raised it writes the snapshot under the key read again when saving. |
| Store.SecondRunIsNoOp | scraping.py:205-212 | When a run's two clock readings give the same day and it stored or found that day's document, a second run checking that day changes nothing and issues no request. |
| Store.RunStoresSnapshot | scraping.py:190-221 | A run that finds the checked day absent and does not raise leaves a document under the save key, with id and date equal to that key and data that reads back unchanged. It adds exactly that key and leaves the other documents unchanged. |
| Store.MidnightRunLeavesCheckedDayEmpty | scraping.py:192-221 | When the check and the save read different days, the snapshot goes under the save key and the checked day stays without a document, so a later run checking that day scrapes again. |
| Api.Entry | app.py:59-62 | An entry's URL starts with the site root, and the link is exactly what follows it. |
| Api.Listed | app.py:43-96 | There are never more entries than blocks. |
| Api.ListedStep | app.py:46-96 | One more block either raises (complete but without a screen number) or appends its entry exactly when it is complete. |
| Api.ListedMembers | app.py:57-62 | A block yields an entry exactly when its name, address and link are all present, and every entry comes from such a block. |
| Api.ListedAppend | app.py:46-96 | Output order follows input order: the entries of two runs of blocks are concatenated in order. |
| Api.GetCines | app.py:21-98 | A transport failure raises. A non-200 status or a page with no block gives no result. Otherwise it raises exactly when some complete block lacks a screen number, and else returns the entries of the complete blocks, in order. |
| Api.GetHorarios | app.py:125-149 | It returns 400 unless both arguments are non-empty, and 500 without data. Otherwise it returns a result exactly when some pair matches ignoring case, namely the first such pair in cinema order then movie order, and else 404. |
| Api.MatchesIn | app.py:164-171 | There are never more matches in one cinema than movies. |
| Api.MatchesInMembers | app.py:164-171 | The showings collected from one cinema are exactly its movies whose title matches ignoring case. |
| Api.MatchesMembers | app.py:162-171 | The showings collected across all cinemas are exactly the title matches of every cinema, several per cinema included. |
| Api.MatchesAppend | app.py:162-171 | The matches of two runs of cinemas are those of the first, then those of the second: order and repetitions follow the input. |
| Api.MatchesEmpty | app.py:173-174 | The collection is empty exactly when no movie of any cinema has the title. |
| Api.GetCinesPelicula | app.py:151-176 | It returns 400 unless the title is non-empty, and 500 without data. Otherwise it returns every match in cinema order then movie order, and 404 exactly when no title matches. |

## Left out

- HTTP with `requests`:
  - User-Agent header, timeouts and retries are not modelled.
  - Each URL's reply is supplied by the caller as a `Web` value, so one URL always gets the same answer within a run.
  - An HTTP client does not send the `#shwt_date=` fragment. On the real site the seven day requests of a cinema therefore reach the same page. The model allows any `Web`, so this case is covered, but it is not singled out.
- BeautifulSoup parsing and CSS-class lookups: pages and cards are already-parsed records whose optional fields say which elements were found.
- `eval` of the `data-theater` attribute (scraping.py:82):
  - The attribute is taken as already parsed into an optional `id` (an `int` or a `str`).
  - A malformed attribute that makes `eval` raise, and ids of other Python types, are not modelled.
- Text.ParseInt: `int()` is modelled for white space, an optional sign and ASCII digits. Underscores between digits and non-ASCII digits, which Python also accepts, are not modelled.
- Text.Lower: `lower()` is modelled for ASCII and the Latin-1 capitals. Other scripts and multi-character lowerings are not modelled.
- The clock (`datetime.now()`, `strftime`): the two `YYYYMMDD` keys and the seven `YYYY-MM-DD` dates are parameters. Date arithmetic is not modelled.
- Harvest.ScrapeCinemasData: one list of seven dates is shared by every cinema. The source reads the clock again for each cinema and each day (scraping.py:100), so a run that crosses midnight would give later cinemas, or later days of one cinema, dates one day on; the model does not capture that drift.
- Cosmos DB:
  - Client, database and container creation, environment variables and partition keys are not modelled.
  - Store failures are not modelled: the container always answers.
  - The race between two concurrent runs on the same day is not modelled, since the model is sequential.
- Not modelled:
  - `save_to_json` (file I/O, and its call is commented out);
  - `print` logging;
  - `get_peliculas`;
  - Flask routing, Swagger UI and static files.
- `get_cine_data` is not part of this model.
  - It is not defined in app.py, so the cinema records are a parameter of the two lookups (`None` standing for its failure).
  - The field names the lookups read (`nombre`, `direccion`, `peliculas`, `titulo`, `horarios`, `fecha`) are taken as given. They are not derived from the scraper's output.
- JSON rendering: responses are values carrying the status and the message. `get_cines` returning `None` from a view is modelled as a `NoCinemas` result.
