/** The query side (app.py): the cinema-card filter of `get_cines` and the two
    lookups `get_horarios` (first match) and `get_cines_pelicula` (all matches) over a
    list of cinema records passed in by the caller. Flask routing and JSON rendering
    are replaced by response values carrying the status and the message. */
module Api {
  import opened Common
  import opened Text

  // ---------------------------------------------------------------------------
  // get_cines

  /** One `meta meta-theater` block of the city page: its title and address texts
      when found, the `href` of its first link that has one, and its screen-number
      text when found. */
  datatype TheaterMeta = TheaterMeta(
    title: Option<string>,
    address: Option<string>,
    link: Option<string>,
    screens: Option<string>)

  datatype CineEntry = CineEntry(nombre: string, direccion: string, url: string, numSalas: string)

  /** `None` (bad status or no block), an uncaught exception, or the list. */
  datatype CinesResult = NoCinemas | Raised | Cines(entries: seq<CineEntry>)

  const SiteRoot := "https://www.sensacine.com"

  /** The test `nombre_cine and direccion_cine and enlace_cine`. */
  predicate Complete(t: TheaterMeta) {
    t.title.Some? && t.address.Some? && t.link.Some?
  }

  /** A complete block whose screen number is missing makes `num_salas.text` raise. */
  predicate Breaks(t: TheaterMeta) {
    Complete(t) && t.screens.None?
  }

  /** No block makes the loop raise. */
  predicate NoneBreaks(ts: seq<TheaterMeta>) {
    forall i :: 0 <= i < |ts| ==> !Complete(ts[i]) || ts[i].screens.Some?
  }

  function Entry(t: TheaterMeta): (e: CineEntry)
    requires Complete(t) && t.screens.Some?
    ensures |e.url| >= |SiteRoot| && e.url[..|SiteRoot|] == SiteRoot && e.url[|SiteRoot|..] == t.link.value
  {
    CineEntry(Strip(t.title.value), Strip(t.address.value), SiteRoot + t.link.value, Strip(t.screens.value))
  }

  /** The entries of the complete blocks, in block order. */
  function Listed(ts: seq<TheaterMeta>): (r: seq<CineEntry>)
    requires NoneBreaks(ts)
    ensures |r| <= |ts|
  {
    if ts == [] then []
    else
      var last := ts[|ts| - 1];
      Listed(ts[..|ts| - 1]) + (if Complete(last) then [Entry(last)] else [])
  }

  /** A block yields an entry exactly when its name, address and link are all
      present, and every entry comes from such a block. */
  lemma {:induction false} ListedMembers(ts: seq<TheaterMeta>)
    requires NoneBreaks(ts)
    ensures forall i :: 0 <= i < |ts| && Complete(ts[i]) ==> Entry(ts[i]) in Listed(ts)
    ensures forall e :: e in Listed(ts) ==> exists i :: 0 <= i < |ts| && Complete(ts[i]) && e == Entry(ts[i])
  {
    if ts != [] {
      var n := |ts| - 1;
      assert ts[..n + 1] == ts;
      ListedStep(ts, n);
      ListedMembers(ts[..n]);
      var tail := if Complete(ts[n]) then [Entry(ts[n])] else [];
      assert Listed(ts) == Listed(ts[..n]) + tail;
      forall i | 0 <= i < |ts| && Complete(ts[i])
        ensures Entry(ts[i]) in Listed(ts)
      {
        if i < n {
          assert ts[..n][i] == ts[i];
        }
      }
      forall e | e in Listed(ts)
        ensures exists i :: 0 <= i < |ts| && Complete(ts[i]) && e == Entry(ts[i])
      {
        if e in Listed(ts[..n]) {
          var i :| 0 <= i < n && Complete(ts[..n][i]) && e == Entry(ts[..n][i]);
          assert ts[..n][i] == ts[i];
        } else {
          assert e in tail;
        }
      }
    }
  }

  /** Output order follows input order: listing two runs of blocks one after the
      other lists the first run's entries first. */
  lemma {:induction false} ListedAppend(a: seq<TheaterMeta>, b: seq<TheaterMeta>)
    requires NoneBreaks(a) && NoneBreaks(b)
    ensures NoneBreaks(a + b)
    ensures Listed(a + b) == Listed(a) + Listed(b)
  {
    assert forall i :: 0 <= i < |a + b| ==> (a + b)[i] == if i < |a| then a[i] else b[i - |a|];
    if b == [] {
      assert a + b == a;
    } else {
      var b' := b[..|b| - 1];
      assert (a + b)[..|a + b| - 1] == a + b';
      ListedAppend(a, b');
    }
  }

  /** Listing one more block. */
  lemma ListedStep(ts: seq<TheaterMeta>, i: nat)
    requires i < |ts| && NoneBreaks(ts[..i])
    ensures NoneBreaks(ts[..i + 1]) <==> !Breaks(ts[i])
    ensures NoneBreaks(ts[..i + 1]) ==>
      Listed(ts[..i + 1]) == Listed(ts[..i]) + (if Complete(ts[i]) then [Entry(ts[i])] else [])
  {
    assert ts[..i + 1][..i] == ts[..i];
    assert ts[..i + 1][i] == ts[i];
  }

  /** `get_cines` after its GET: the entries of the complete blocks, in order. */
  method GetCines(reply: Reply<seq<TheaterMeta>>) returns (r: CinesResult)
    ensures reply.NetworkError? ==> r == Raised
    ensures reply.Reply? && (reply.status != 200 || reply.page == []) ==> r == NoCinemas
    ensures reply.Reply? && reply.status == 200 && reply.page != [] ==>
      var ts := reply.page;
      && (r == Raised <==> !NoneBreaks(ts))
      && (r != Raised ==> r == Cines(Listed(ts)))
  {
    if reply.NetworkError? {
      return Raised;
    }
    if reply.status != 200 || reply.page == [] {
      return NoCinemas;
    }
    var ts := reply.page;
    var entries: seq<CineEntry> := [];
    var i := 0;
    while i < |ts|
      invariant i <= |ts|
      invariant NoneBreaks(ts[..i])
      invariant entries == Listed(ts[..i])
    {
      ListedStep(ts, i);
      var t := ts[i];
      if t.title.Some? && t.address.Some? && t.link.Some? {
        if t.screens.None? {
          return Raised;
        }
        entries := entries + [Entry(t)];
      }
      i := i + 1;
    }
    assert ts[..i] == ts;
    r := Cines(entries);
  }

  // ---------------------------------------------------------------------------
  // get_horarios and get_cines_pelicula

  /** A movie entry of a cinema record as the API reads it. */
  datatype Showing = Showing(titulo: string, horarios: seq<string>, fecha: string)

  datatype CineRecord = CineRecord(nombre: string, direccion: string, peliculas: seq<Showing>)

  datatype HorarioResponse =
    | Horario(cine: string, direccion: string, titulo: string, horarios: seq<string>, fecha: string)
    | HorarioError(status: int, message: string)

  datatype CineShowing = CineShowing(cine: string, direccion: string, horarios: seq<string>, fecha: string)

  datatype CinesPeliculaResponse =
    | CinesPelicula(showings: seq<CineShowing>)
    | CinesPeliculaError(status: int, message: string)

  const BothArgsRequired := "Par\U{00E1}metros 'cine' y 'pelicula' son requeridos"
  const TitleArgRequired := "Par\U{00E1}metro 'pelicula' es requerido"
  const NoData := "Error en la solicitud HTTP o no se encontraron cines"
  const NoHorarios := "No se encontraron horarios para la pel\U{00ED}cula en el cine especificado"
  const NoCines := "No se encontraron cines que emitan la pel\U{00ED}cula especificada"

  /** `request.args.get(name)` is truthy: present and not empty. */
  predicate Given(arg: Option<string>) {
    arg.Some? && arg.value != []
  }

  /** Movie `j` of cinema `i` has the requested title. */
  predicate TitleMatch(cs: seq<CineRecord>, i: int, j: int, title: string) {
    0 <= i < |cs| && 0 <= j < |cs[i].peliculas| && SameIgnoringCase(cs[i].peliculas[j].titulo, title)
  }

  /** Cinema `i` has the requested name and its movie `j` the requested title. */
  predicate PairMatch(cs: seq<CineRecord>, i: int, j: int, cine: string, title: string) {
    TitleMatch(cs, i, j, title) && SameIgnoringCase(cs[i].nombre, cine)
  }

  /** `get_horarios`: 400 unless both arguments are given, 500 without data, else
      the first (cinema, movie) pair in cinema order, then movie order, whose name and
      title both match ignoring case, or 404 when there is none. */
  method GetHorarios(cine: Option<string>, pelicula: Option<string>, data: Option<seq<CineRecord>>)
    returns (r: HorarioResponse)
    ensures !Given(cine) || !Given(pelicula) ==> r == HorarioError(400, BothArgsRequired)
    ensures Given(cine) && Given(pelicula) && data.None? ==> r == HorarioError(500, NoData)
    ensures Given(cine) && Given(pelicula) && data.Some? ==>
      var cs := data.value;
      && (r.Horario? <==> exists i, j :: PairMatch(cs, i, j, cine.value, pelicula.value))
      && (r.HorarioError? ==> r == HorarioError(404, NoHorarios))
      && (r.Horario? ==> exists i, j ::
            && PairMatch(cs, i, j, cine.value, pelicula.value)
            && r == Horario(cs[i].nombre, cs[i].direccion, cs[i].peliculas[j].titulo,
                            cs[i].peliculas[j].horarios, cs[i].peliculas[j].fecha)
            && forall i', j' :: PairMatch(cs, i', j', cine.value, pelicula.value) ==>
                 i < i' || (i == i' && j <= j'))
  {
    if !Given(cine) || !Given(pelicula) {
      return HorarioError(400, BothArgsRequired);
    }
    if data.None? {
      return HorarioError(500, NoData);
    }
    var cs := data.value;
    var name, title := cine.value, pelicula.value;
    var i := 0;
    while i < |cs|
      invariant i <= |cs|
      invariant forall i', j' :: 0 <= i' < i ==> !PairMatch(cs, i', j', name, title)
    {
      if Lower(cs[i].nombre) == Lower(name) {
        var films := cs[i].peliculas;
        var j := 0;
        while j < |films|
          invariant j <= |films|
          invariant forall j' :: 0 <= j' < j ==> !PairMatch(cs, i, j', name, title)
        {
          if Lower(films[j].titulo) == Lower(title) {
            assert PairMatch(cs, i, j, name, title);
            return Horario(cs[i].nombre, cs[i].direccion, films[j].titulo, films[j].horarios, films[j].fecha);
          }
          j := j + 1;
        }
      }
      i := i + 1;
    }
    r := HorarioError(404, NoHorarios);
  }

  function ShowingOf(c: CineRecord, j: int): CineShowing
    requires 0 <= j < |c.peliculas|
  {
    CineShowing(c.nombre, c.direccion, c.peliculas[j].horarios, c.peliculas[j].fecha)
  }

  /** The matching movies of one cinema, in movie order. */
  function MatchesIn(c: CineRecord, title: string, n: nat): (r: seq<CineShowing>)
    requires n <= |c.peliculas|
    ensures |r| <= n
  {
    if n == 0 then []
    else MatchesIn(c, title, n - 1)
         + (if SameIgnoringCase(c.peliculas[n - 1].titulo, title) then [ShowingOf(c, n - 1)] else [])
  }

  /** The matching movies of all cinemas, in cinema order, then movie order. */
  function Matches(cs: seq<CineRecord>, title: string): seq<CineShowing> {
    if cs == [] then []
    else
      var c := cs[|cs| - 1];
      Matches(cs[..|cs| - 1], title) + MatchesIn(c, title, |c.peliculas|)
  }

  /** Collection distributes over concatenation: the matches of two runs of cinemas
      are those of the first, then those of the second, each as often as collected. */
  lemma {:induction false} MatchesAppend(a: seq<CineRecord>, b: seq<CineRecord>, title: string)
    ensures Matches(a + b, title) == Matches(a, title) + Matches(b, title)
    decreases |b|
  {
    if b == [] {
      assert a + b == a;
      assert Matches(a, title) + [] == Matches(a, title);
    } else {
      var init, c := b[..|b| - 1], b[|b| - 1];
      assert (a + b)[..|a + b| - 1] == a + init;
      assert (a + b)[|a + b| - 1] == c;
      MatchesAppend(a, init, title);
      AppendAssociative(Matches(a, title), Matches(init, title), MatchesIn(c, title, |c.peliculas|));
    }
  }

  lemma {:induction false} MatchesInMembers(c: CineRecord, title: string, n: nat)
    requires n <= |c.peliculas|
    ensures forall e :: e in MatchesIn(c, title, n) <==>
              exists j :: 0 <= j < n && SameIgnoringCase(c.peliculas[j].titulo, title) && e == ShowingOf(c, j)
  {
    if n > 0 {
      MatchesInMembers(c, title, n - 1);
    }
  }

  /** A showing is collected exactly when it comes from a movie whose title matches,
      in any cinema; several per cinema are all kept. */
  lemma {:induction false} MatchesMembers(cs: seq<CineRecord>, title: string)
    ensures forall e :: e in Matches(cs, title) <==>
              exists i, j :: TitleMatch(cs, i, j, title) && e == ShowingOf(cs[i], j)
  {
    if cs != [] {
      var init, c := cs[..|cs| - 1], cs[|cs| - 1];
      MatchesMembers(init, title);
      MatchesInMembers(c, title, |c.peliculas|);
      forall e
        ensures e in Matches(cs, title) <==> exists i, j :: TitleMatch(cs, i, j, title) && e == ShowingOf(cs[i], j)
      {
        if e in Matches(cs, title) {
          if e in Matches(init, title) {
            var i, j :| TitleMatch(init, i, j, title) && e == ShowingOf(init[i], j);
            assert TitleMatch(cs, i, j, title);
          } else {
            var j :| 0 <= j < |c.peliculas| && SameIgnoringCase(c.peliculas[j].titulo, title) && e == ShowingOf(c, j);
            assert TitleMatch(cs, |cs| - 1, j, title);
          }
        }
        if exists i, j :: TitleMatch(cs, i, j, title) && e == ShowingOf(cs[i], j) {
          var i, j :| TitleMatch(cs, i, j, title) && e == ShowingOf(cs[i], j);
          if i < |init| {
            assert TitleMatch(init, i, j, title);
          }
        }
      }
    }
  }

  /** Nothing is collected exactly when no movie of any cinema has the title. */
  lemma MatchesEmpty(cs: seq<CineRecord>, title: string)
    ensures Matches(cs, title) == [] <==> forall i, j :: !TitleMatch(cs, i, j, title)
  {
    MatchesMembers(cs, title);
    if Matches(cs, title) != [] {
      assert Matches(cs, title)[0] in Matches(cs, title);
    }
    if exists i, j :: TitleMatch(cs, i, j, title) {
      var i, j :| TitleMatch(cs, i, j, title);
      assert ShowingOf(cs[i], j) in Matches(cs, title);
    }
  }

  /** `get_cines_pelicula`: 400 unless the title is given, 500 without data, else
      every matching movie across all cinemas, or 404 exactly when no title matches. */
  method GetCinesPelicula(pelicula: Option<string>, data: Option<seq<CineRecord>>)
    returns (r: CinesPeliculaResponse)
    ensures !Given(pelicula) ==> r == CinesPeliculaError(400, TitleArgRequired)
    ensures Given(pelicula) && data.None? ==> r == CinesPeliculaError(500, NoData)
    ensures Given(pelicula) && data.Some? ==>
      var cs := data.value;
      && (r == CinesPeliculaError(404, NoCines) <==> forall i, j :: !TitleMatch(cs, i, j, pelicula.value))
      && (r.CinesPelicula? ==> r.showings == Matches(cs, pelicula.value))
      && (r.CinesPelicula? || r == CinesPeliculaError(404, NoCines))
  {
    if !Given(pelicula) {
      return CinesPeliculaError(400, TitleArgRequired);
    }
    if data.None? {
      return CinesPeliculaError(500, NoData);
    }
    var cs := data.value;
    var title := pelicula.value;
    var found: seq<CineShowing> := [];
    var i := 0;
    while i < |cs|
      invariant i <= |cs|
      invariant found == Matches(cs[..i], title)
    {
      assert cs[..i + 1][..i] == cs[..i];
      var films := cs[i].peliculas;
      ghost var before := found;
      var j := 0;
      while j < |films|
        invariant j <= |films|
        invariant found == before + MatchesIn(cs[i], title, j)
      {
        if Lower(films[j].titulo) == Lower(title) {
          found := found + [ShowingOf(cs[i], j)];
        }
        j := j + 1;
      }
      i := i + 1;
    }
    assert cs[..i] == cs;
    MatchesEmpty(cs, title);
    if found == [] {
      return CinesPeliculaError(404, NoCines);
    }
    r := CinesPelicula(found);
  }
}
