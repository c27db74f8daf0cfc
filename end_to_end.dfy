/**
 * The two routes and the page together: a document uploaded as text is
 * served back by the GET route and displayed by the page, with its current
 * phase's first day selected.
 */
module EndToEnd {
  import opened Wrappers
  import opened Json
  import opened Http
  import opened Store
  import opened CronogramaTypes
  import UploadRoute
  import CronogramaRoute
  import HomePage

  /**
   * What the page's promise chain receives for a route response. A body is
   * serialised by the route and parsed again by `res.json()`, which gives
   * back the same value. `None` when an ok body is truthy but does not
   * conform to the `Cronograma` interface: the page's behaviour on such a
   * body is not part of this model.
   */
  function Delivered(resp: Response): Option<HomePage.FetchResult> {
    if !IsOk(resp.status) then Some(HomePage.Fetched(resp.status, None))
    else if !resp.body.JsonBody? then None
    else if !Truthy(resp.body.value) then Some(HomePage.Fetched(resp.status, None))
    else
      match FromJson(resp.body.value)
      case None => None
      case Some(c) => Some(HomePage.Fetched(resp.status, Some(c)))
  }

  /** An empty table reaches the page as a 404: no document and no error, the welcome screen. */
  lemma EmptyStoreWelcomes(parse: string -> Option<Json>)
    ensures Delivered(CronogramaRoute.Get([], parse, false)) == Some(HomePage.Fetched(404, None))
    ensures HomePage.LoadedDocument(HomePage.Fetched(404, None)).None?
    ensures HomePage.LoadError(HomePage.Fetched(404, None)).None?
    ensures HomePage.View(None, false, None, "") == HomePage.Welcome
  {
  }

  /** A failing table read reaches the page as an error screen with the load-failure message. */
  lemma StoreFailureShowsError(rows: seq<Record>, parse: string -> Option<Json>)
    ensures Delivered(CronogramaRoute.Get(rows, parse, true)) == Some(HomePage.Fetched(500, None))
    ensures HomePage.LoadError(HomePage.Fetched(500, None)) == Some(HomePage.LoadFailed)
    ensures HomePage.View(None, false, Some(HomePage.LoadFailed), "") == HomePage.Failure(HomePage.LoadFailed)
  {
  }

  /**
   * Uploading text that parses to a value conforming to a document `c` (extra
   * members allowed) and loading the page shows `c`: the page receives
   * exactly `c`, and when its current phase has days, the first of them is
   * selected and displayed.
   */
  lemma UploadedDocumentIsDisplayed(rows: seq<Record>, next: nat, text: string,
                                   parse: string -> Option<Json>, c: Cronograma)
    requires Increasing(rows) && Below(rows, next)
    requires parse(text).Some? && FromJson(parse(text).value) == Some(c) && c.faseAtual != ""
    ensures UploadRoute.Check(UploadRoute.FormData(UploadRoute.Upload(text)), parse) == UploadRoute.Accept(text)
    ensures Delivered(CronogramaRoute.Get(rows + [Record(next, text)], parse, false)) ==
              Some(HomePage.Fetched(200, Some(c)))
    ensures var fase := HomePage.CurrentPhase(c);
            fase.Some? && |fase.value.dias| > 0 ==>
              HomePage.View(Some(c), false, None, HomePage.InitialSelection(Some(c))).block ==
                Some(HomePage.Block(fase.value.dias[0]))
  {
    var v := parse(text).value;
    UploadRoute.ConformingDocuments(v, c);
    var req := UploadRoute.FormData(UploadRoute.Upload(text));
    assert UploadRoute.Check(req, parse) == UploadRoute.Accept(text);
    CronogramaRoute.UploadThenGet(rows, next, req, parse);
    var resp := CronogramaRoute.Get(rows + [Record(next, text)], parse, false);
    assert resp == Response(200, JsonBody(v));
    assert Truthy(v);
    var fase := HomePage.CurrentPhase(c);
    if fase.Some? && |fase.value.dias| > 0 {
      HomePage.InitialSelectionShowsFirstDay(c, None);
    }
  }

  /** The one-phase, one-day, one-item document of the worked example. */
  function Example(): Cronograma {
    Cronograma("Fase 1", None, None, None, None,
               [Fase("Fase 1", [Dia("Dia 1", [Item(Some("09:00"), "Revisão")])])])
  }

  /** Uploaded and loaded, the example shows "Dia 1" with its one timed item. */
  lemma ExampleIsDisplayed(rows: seq<Record>, next: nat, text: string, parse: string -> Option<Json>)
    requires Increasing(rows) && Below(rows, next)
    requires parse(text) == Some(ToJson(Example()))
    ensures Delivered(CronogramaRoute.Get(rows + [Record(next, text)], parse, false)) ==
              Some(HomePage.Fetched(200, Some(Example())))
    ensures HomePage.InitialSelection(Some(Example())) == "Dia 1"
    ensures HomePage.View(Some(Example()), false, None, "Dia 1") ==
              HomePage.Schedule("Fase 1", None, ["Dia 1"], "Dia 1",
                                Some(HomePage.DayBlock("Dia 1", [HomePage.Row("09:00", "Revisão")], false)))
  {
    var c := Example();
    var dia := Dia("Dia 1", [Item(Some("09:00"), "Revisão")]);
    HomePage.CurrentPhaseIsFirstMatch(c, 0);
    assert HomePage.CurrentPhase(c) == Some(Fase("Fase 1", [dia]));
    RoundTrip(c);
    UploadedDocumentIsDisplayed(rows, next, text, parse, c);
    HomePage.InitialSelectionShowsFirstDay(c, None);
    assert HomePage.DayNames([dia]) == ["Dia 1"];
    assert HomePage.Rows(dia.itens) == [HomePage.Row("09:00", "Revisão")];
  }
}
