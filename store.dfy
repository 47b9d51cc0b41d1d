/** The snapshot store protocol of scraping.py: one document per day, keyed by the
    `YYYYMMDD` date, checked with a cross-partition query and written with an upsert;
    `scrape_and_save` scrapes and writes only when the checked day's document is absent. The
    container is a map from document id to document. */
module Store {
  import opened Common
  import opened Listing
  import opened Harvest

  /** `{"id": key, "date": key, "data": cinemas}`. */
  datatype Document = Document(id: string, date: string, data: seq<Cinema>)

  /** How a run ended: the checked day's document was already there, a new one was written, or
      the scrape raised before anything was written. */
  datatype RunOutcome = Skipped | Saved | Failed(error: HarvestError)

  /** The document `save_to_cosmosdb` builds for the day `key`. */
  function Snapshot(key: string, data: seq<Cinema>): Document {
    Document(key, key, data)
  }

  class Container {
    var items: map<string, Document>

    /** Every document is stored under its own id. */
    ghost predicate Valid()
      reads this
    {
      forall id :: id in items ==> items[id].id == id
    }

    constructor ()
      ensures Valid() && items == map[]
    {
      items := map[];
    }

    /** `check_if_document_exists`: the query selects the documents whose id field is
        `id`, in any partition; the answer is whether it found any. */
    method CheckIfDocumentExists(id: string) returns (exists_: bool)
      requires Valid()
      ensures exists_ <==> id in items
    {
      var found := set k | k in items && items[k].id == id;
      if id in items {
        assert id in found;
      }
      exists_ := found != {};
    }

    /** `container.upsert_item(doc)`: insert, or replace the document with that id. */
    method UpsertItem(doc: Document)
      requires Valid()
      modifies this
      ensures Valid()
      ensures items == old(items)[doc.id := doc]
    {
      items := items[doc.id := doc];
    }

    /** `save_to_cosmosdb`: upsert the snapshot of `data` under the date key `key`,
        read from the clock when it is called. */
    method SaveToCosmosDb(key: string, data: seq<Cinema>)
      requires Valid()
      modifies this
      ensures Valid()
      ensures items == old(items)[key := Snapshot(key, data)]
    {
      UpsertItem(Snapshot(key, data));
    }
  }

  /** The container after one `scrape_and_save` run whose scrape would walk as `w`:
      `checkKey` is the date key read before the existence check, `saveKey` the one
      read again inside `save_to_cosmosdb`. */
  function AfterRun(items: map<string, Document>, checkKey: string, saveKey: string, w: Walk): map<string, Document> {
    if checkKey in items || w.failure.Some? then items else items[saveKey := Snapshot(saveKey, w.cinemas)]
  }

  /** The GETs one run issues: none when the checked day's document already exists. */
  function RunRequests(items: map<string, Document>, checkKey: string, w: Walk): seq<Request> {
    if checkKey in items then [] else w.log
  }

  /** `scrape_and_save`: skip when the document of the checked day exists; otherwise
      scrape and, if the scrape does not raise, write the snapshot. The clock is read
      three times and each reading is a parameter: `checkKey` (`%Y%m%d`, before the
      check), `week` (the seven `%Y-%m-%d` dates of the scrape) and `saveKey`
      (`%Y%m%d` again, inside `save_to_cosmosdb`). */
  method ScrapeAndSave(store: Container, web: Web, base: string, checkKey: string, saveKey: string, week: seq<string>)
    returns (outcome: RunOutcome, log: seq<Request>)
    requires store.Valid() && |week| == DaysAhead
    modifies store
    ensures store.Valid()
    ensures store.items == AfterRun(old(store.items), checkKey, saveKey, HarvestWalk(web, base, week))
    ensures log == RunRequests(old(store.items), checkKey, HarvestWalk(web, base, week))
    ensures outcome == if checkKey in old(store.items) then Skipped
                       else if HarvestWalk(web, base, week).failure.Some? then Failed(HarvestWalk(web, base, week).failure.value)
                       else Saved
  {
    var present := store.CheckIfDocumentExists(checkKey);
    if present {
      return Skipped, [];
    }
    var data;
    data, log := ScrapeCinemasData(web, base, week);
    if data.Err? {
      return Failed(data.error), log;
    }
    store.SaveToCosmosDb(saveKey, data.value);
    outcome := Saved;
  }

  /** The read path: the data of the document stored under `key`, if any. */
  function Load(items: map<string, Document>, key: string): Option<seq<Cinema>> {
    if key in items then Some(items[key].data) else None
  }

  /** Run-once-per-day: when both clock readings of a run give the same day, once that
      run has stored the day's document (or found it), a second run checking the same
      day changes nothing and issues no request, whatever it would have scraped and
      whatever key it would have saved under. */
  lemma SecondRunIsNoOp(items: map<string, Document>, key: string, w1: Walk, saveKey2: string, w2: Walk)
    requires w1.failure.None? || key in items
    ensures var after := AfterRun(items, key, key, w1);
      && AfterRun(after, key, saveKey2, w2) == after
      && RunRequests(after, key, w2) == []
  {
  }

  /** A run that finds the checked day absent and does not raise leaves one document
      under the save key, with id and date equal to that key, whose data reads back
      unchanged; every other day's document is left as it was. */
  lemma RunStoresSnapshot(items: map<string, Document>, checkKey: string, saveKey: string, w: Walk)
    requires checkKey !in items && w.failure.None?
    ensures var after := AfterRun(items, checkKey, saveKey, w);
      && saveKey in after && after[saveKey].id == saveKey && after[saveKey].date == saveKey
      && Load(after, saveKey) == Some(w.cinemas)
      && after.Keys == items.Keys + {saveKey}
      && forall k :: k in items && k != saveKey ==> after[k] == items[k]
  {
  }

  /** A run that crosses midnight between its check and its save stores the snapshot
      under the new day and leaves the checked day without a document, so a later run
      that checks the old day again scrapes again. */
  lemma MidnightRunLeavesCheckedDayEmpty(items: map<string, Document>, checkKey: string, saveKey: string, w: Walk, w2: Walk)
    requires checkKey !in items && w.failure.None? && checkKey != saveKey
    ensures var after := AfterRun(items, checkKey, saveKey, w);
      && checkKey !in after
      && saveKey in after
      && RunRequests(after, checkKey, w2) == w2.log
  {
  }

  /** An example scenario: two runs on one day, every clock reading giving `key`,
      against a fresh container: the first stores the one document, the second skips
      without a request. */
  method TwoRunsOneDay(web: Web, base: string, key: string, week: seq<string>)
    requires |week| == DaysAhead && HarvestWalk(web, base, week).failure.None?
  {
    var store := new Container();
    var first, log1 := ScrapeAndSave(store, web, base, key, key, week);
    assert first == Saved && store.items.Keys == {key};
    var second, log2 := ScrapeAndSave(store, web, base, key, key, week);
    assert second == Skipped && log2 == [] && store.items.Keys == {key};
    assert Load(store.items, key) == Some(HarvestWalk(web, base, week).cinemas);
  }
}
