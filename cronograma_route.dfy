/**
 * `GET /api/cronograma`: reads the newest row and answers with the parse
 * of its text. The route only reads, so it is a function of the rows:
 * two requests with no upload between them get the same answer.
 */
module CronogramaRoute {
  import opened Wrappers
  import opened Json
  import opened Http
  import opened Store
  import UploadRoute

  const NoCronogramaFound := "No cronograma found"

  /** The response; `dbFails` stands for the database failing to answer the query. */
  function Get(rows: seq<Record>, parse: string -> Option<Json>, dbFails: bool): Response {
    if dbFails then Internal()
    else
      match Newest(rows)
      case None => Failure(404, NoCronogramaFound)
      case Some(row) =>
        match parse(row.data)
        case None => Internal()
        case Some(json) => Response(200, JsonBody(json))
  }

  /** The 404 is given exactly when the table is empty and readable. */
  lemma NotFoundIffEmpty(rows: seq<Record>, parse: string -> Option<Json>, dbFails: bool)
    ensures Get(rows, parse, dbFails).status == 404 <==> !dbFails && rows == []
    ensures Get(rows, parse, dbFails).status == 404 ==> Get(rows, parse, dbFails).body == ErrorBody(NoCronogramaFound)
  {
  }

  /** The answer is the parse of the text appended last, or 500 when it does not parse. */
  lemma ServesLastAppended(rows: seq<Record>, parse: string -> Option<Json>)
    requires Increasing(rows) && rows != []
    ensures parse(rows[|rows| - 1].data).Some? ==>
              Get(rows, parse, false) == Response(200, JsonBody(parse(rows[|rows| - 1].data).value))
    ensures parse(rows[|rows| - 1].data).None? ==> Get(rows, parse, false) == Internal()
  {
    NewestIsLast(rows);
  }

  /**
   * Round trip: after an upload of text `T` is accepted and stored, the
   * next GET answers with `parse(T)`, whatever the table held before.
   */
  lemma UploadThenGet(rows: seq<Record>, next: nat, req: UploadRoute.UploadRequest, parse: string -> Option<Json>)
    requires Increasing(rows) && Below(rows, next)
    requires UploadRoute.Check(req, parse).Accept?
    ensures var text := req.file.contents;
            Get(rows + [Record(next, text)], parse, false) == Response(200, JsonBody(parse(text).value))
  {
    NewestAfterAppend(rows, next, req.file.contents);
  }
}
