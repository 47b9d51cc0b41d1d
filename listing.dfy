/** The listing side of the harvest (scraping.py, `scrape_cinemas_data` up to the
    per-day loop): how many listing pages there are, and what one cinema card of a
    listing page yields. */
module Listing {
  import opened Common
  import opened Text
  import opened Movies

  /** The `id` entry of a card's already-parsed `data-theater` attribute, which holds
      either a Python `int` or a `str`. */
  datatype IdValue = IntId(n: int) | StrId(s: string)

  /** The `add-theater-anchor` span together with its `data-theater` attribute, read
      as a key-value record: `id` is its `id` entry, if it has one. */
  datatype TheaterAttr = TheaterAttr(id: Option<IdValue>)

  /** One cinema card of a listing page: the stripped-to-be texts of its title,
      address and screen-count elements when found, and its theater anchor when the
      span is there and carries the attribute. */
  datatype CinemaCard = CinemaCard(
    title: Option<string>,
    address: Option<string>,
    screens: Option<string>,
    theater: Option<TheaterAttr>)

  /** A listing page: the labels of the `button` links inside the pagination holder,
      when the page has a holder, and the cinema cards in document order. */
  datatype ListingPage = ListingPage(pagination: Option<seq<string>>, cards: seq<CinemaCard>)

  /** One cinema record of the snapshot, fields in the order the source builds them. */
  datatype Cinema = Cinema(
    id: Option<IdValue>,
    name: string,
    address: string,
    numScreens: string,
    url: string,
    movies: seq<Movie>)

  const NoName := "Name not available"
  const NoAddress := "Address not available"
  const NoScreens := "Number of screens not available"
  const NoUrl := "URL not available"
  const CinemaUrlPrefix := "https://www.sensacine.com/cines/cine/"

  /** Python truthiness of the recovered id: `None`, `0` and `""` are false. */
  predicate Truthy(id: Option<IdValue>) {
    match id
    case None => false
    case Some(IntId(n)) => n != 0
    case Some(StrId(s)) => s != []
  }

  /** The id as an f-string renders it. */
  function IdText(v: IdValue): string {
    match v
    case IntId(n) => DecimalText(n)
    case StrId(s) => s
  }

  /** The cinema page: `https://www.sensacine.com/cines/cine/<id>/`. It can never be
      mistaken for the sentinel. */
  function CinemaUrl(v: IdValue): (u: string)
    ensures u != NoUrl
    ensures |u| > |CinemaUrlPrefix| && u[..|CinemaUrlPrefix|] == CinemaUrlPrefix && u[|u| - 1] == '/'
    ensures u[|CinemaUrlPrefix|..|u| - 1] == IdText(v)
  {
    var u := CinemaUrlPrefix + IdText(v) + "/";
    assert u[0] == 'h' && NoUrl[0] == 'U';
    u
  }

  /** The number of listing pages: the integer value of the last pagination button's
      label, or 1 when the first page has no pagination holder. A holder with no
      button, or a label that is not an integer literal, raises. */
  function TotalPages(pagination: Option<seq<string>>): (r: Result<int, HarvestError>)
    ensures pagination.None? ==> r == Ok(1)
    ensures pagination == Some([]) ==> r == Err(NoPageButtons)
    ensures pagination.Some? && pagination.value != [] ==>
      var last := pagination.value[|pagination.value| - 1];
      (r.Ok? <==> ParseInt(Strip(last)).Some?) && (r.Ok? ==> r.value == ParseInt(Strip(last)).value)
  {
    match pagination
    case None => Ok(1)
    case Some(buttons) =>
      if buttons == [] then Err(NoPageButtons)
      else
        var last := buttons[|buttons| - 1];
        match ParseInt(Strip(last))
        case None => Err(BadPageLabel(last))
        case Some(n) => Ok(n)
  }

  /** A holder whose last button reads the numeral of `n`, with any white space
      around it and any buttons before it, gives `n` pages. */
  lemma {:induction false} TotalPagesFromLastButton(buttons: seq<string>, pad: string, pad': string, n: int)
    requires AllSpace(pad) && AllSpace(pad')
    ensures TotalPages(Some(buttons + [pad + DecimalText(n) + pad'])) == Ok(n)
  {
    var text := pad + DecimalText(n) + pad';
    var d := DecimalText(n);
    DecimalTextRoundTrip(n);
    StripPadded(pad, d, pad');
    StripIdempotent(d);
    assert (buttons + [text])[|buttons + [text]| - 1] == text;
  }

  /** What one listing card yields before enrichment: stripped texts or the
      placeholders for the missing elements, the recovered id, and the cinema page
      URL or the sentinel. */
  function ExtractCinema(card: CinemaCard): (c: Cinema)
    ensures c.id == (if card.theater.Some? then card.theater.value.id else None)
    ensures c.url != NoUrl <==> Truthy(c.id)
    ensures Truthy(c.id) ==> c.url == CinemaUrl(c.id.value)
    ensures c.movies == []
  {
    var id := if card.theater.Some? then card.theater.value.id else None;
    Cinema(
      id,
      if card.title.Some? then Strip(card.title.value) else NoName,
      if card.address.Some? then Strip(card.address.value) else NoAddress,
      if card.screens.Some? then Strip(card.screens.value) else NoScreens,
      if Truthy(id) then CinemaUrl(id.value) else NoUrl,
      [])
  }

  /** A missing name, address or screen count never aborts a card: it yields its
      placeholder, and a present one yields its text with the surrounding white space
      removed. */
  lemma ExtractCinemaFields(card: CinemaCard)
    ensures var c := ExtractCinema(card);
      && (card.title.None? ==> c.name == NoName)
      && (card.address.None? ==> c.address == NoAddress)
      && (card.screens.None? ==> c.numScreens == NoScreens)
      && (card.title.Some? ==> c.name == Strip(card.title.value))
      && (card.address.Some? ==> c.address == Strip(card.address.value))
      && (card.screens.Some? ==> c.numScreens == Strip(card.screens.value))
  {
  }
}
