/**
 * `POST /api/upload`: the checks run in a fixed order (file present, text
 * parses, shallow structure) and the first one that fails decides the
 * response; only a request passing all three appends its text, verbatim,
 * to the store.
 */
module UploadRoute {
  import opened Wrappers
  import opened Json
  import opened Http
  import opened Store
  import CronogramaTypes

  /** What `formData.get('file')` returns. */
  datatype FileField =
    | Absent                  // no such field: `null`
    | TextValue(s: string)    // a plain form value, which has no `text()` method
    | Upload(contents: string) // an uploaded file; `contents` is what `file.text()` yields

  datatype UploadRequest =
    | NotFormData             // `request.formData()` rejects
    | FormData(file: FileField)

  const NoFileUploaded := "No file uploaded"
  const InvalidJsonFormat := "Invalid JSON format"
  const InvalidStructure := "Invalid cronograma structure"
  const UploadSuccessful := "Upload successful"

  /** How the basic-validation condition evaluates on a parsed value. */
  datatype Shape = Acceptable | Unacceptable | Throws

  /**
   * `!json.faseAtual || !json.fases || !Array.isArray(json.fases)` under
   * JavaScript's rules: reading a property of `null` throws, and an array
   * is always truthy, so the condition only asks for a truthy `faseAtual`
   * and an array `fases` on an object.
   */
  function StructureOf(v: Json): (r: Shape)
    ensures r == Throws <==> v == Null
    ensures r == Acceptable <==>
              v.Obj? && "faseAtual" in v.fields && Truthy(v.fields["faseAtual"]) &&
              "fases" in v.fields && v.fields["fases"].Arr?
  {
    if v == Null then Throws
    else if !Present(Property(v, "faseAtual")) then Unacceptable
    else if !Present(Property(v, "fases")) then Unacceptable
    else if !Property(v, "fases").value.Arr? then Unacceptable
    else Acceptable
  }

  /** Outcome of the checks: either the text to store or the response to send. */
  datatype Verdict = Accept(text: string) | Refuse(response: Response)

  /** Lines 7 to 26 of the handler: every check before the insert. */
  function Check(req: UploadRequest, parse: string -> Option<Json>): (r: Verdict)
    ensures r.Accept? <==>
              req.FormData? && req.file.Upload? && parse(req.file.contents).Some? &&
              StructureOf(parse(req.file.contents).value) == Acceptable
    ensures r.Accept? ==> r.text == req.file.contents
    ensures r.Refuse? ==> r.response.status == 400 || r.response == Internal()
  {
    match req
    case NotFormData => Refuse(Internal())
    case FormData(Absent) => Refuse(Failure(400, NoFileUploaded))
    case FormData(TextValue(s)) =>
      // a non-empty string passes `!file`, then `file.text()` throws
      if s == "" then Refuse(Failure(400, NoFileUploaded)) else Refuse(Internal())
    case FormData(Upload(text)) =>
      match parse(text)
      case None => Refuse(Failure(400, InvalidJsonFormat))
      case Some(json) =>
        match StructureOf(json)
        case Throws => Refuse(Internal())
        case Unacceptable => Refuse(Failure(400, InvalidStructure))
        case Acceptable => Accept(text)
  }

  /**
   * The whole handler. `insertFails` stands for the database rejecting the
   * insert, which the outer `catch` turns into a 500.
   */
  method Post(table: Table, req: UploadRequest, parse: string -> Option<Json>, insertFails: bool)
    returns (resp: Response)
    requires table.Valid()
    modifies table
    ensures table.Valid()
    ensures Check(req, parse).Refuse? ==>
              resp == Check(req, parse).response && table.rows == old(table.rows) && table.nextId == old(table.nextId)
    ensures Check(req, parse).Accept? && insertFails ==>
              resp == Internal() && table.rows == old(table.rows) && table.nextId == old(table.nextId)
    ensures Check(req, parse).Accept? && !insertFails ==>
              resp == Response(200, MessageBody(UploadSuccessful)) &&
              table.rows == old(table.rows) + [Record(old(table.nextId), req.file.contents)] &&
              table.nextId == old(table.nextId) + 1 &&
              Newest(table.rows) == Some(Record(old(table.nextId), req.file.contents))
  {
    var verdict := Check(req, parse);
    match verdict
    case Refuse(r) =>
      resp := r;
    case Accept(text) =>
      if insertFails {
        resp := Internal();
      } else {
        var _ := table.Insert(text);
        resp := Response(200, MessageBody(UploadSuccessful));
      }
  }

  // ---------------------------------------------------------------------
  // The order of the checks

  /** Without a file the answer is 400 "No file uploaded", whatever a parser would say. */
  lemma NoFileFirst(parse: string -> Option<Json>)
    ensures Check(FormData(Absent), parse) == Refuse(Failure(400, NoFileUploaded))
    ensures Check(FormData(TextValue("")), parse) == Refuse(Failure(400, NoFileUploaded))
  {
  }

  /** Text that does not parse is refused before its structure is looked at. */
  lemma ParseBeforeStructure(text: string, parse: string -> Option<Json>)
    requires parse(text).None?
    ensures Check(FormData(Upload(text)), parse) == Refuse(Failure(400, InvalidJsonFormat))
  {
  }

  /** A parsed value without a truthy `faseAtual`, or without an array `fases`, is refused with 400. */
  lemma BadStructureRefused(text: string, parse: string -> Option<Json>)
    requires parse(text).Some? && parse(text).value != Null
    requires !(parse(text).value.Obj? && "faseAtual" in parse(text).value.fields &&
               Truthy(parse(text).value.fields["faseAtual"])) ||
             !(parse(text).value.Obj? && "fases" in parse(text).value.fields &&
               parse(text).value.fields["fases"].Arr?)
    ensures Check(FormData(Upload(text)), parse) == Refuse(Failure(400, InvalidStructure))
  {
  }

  /** Text that parses to `null` makes the property read throw: 500. */
  lemma NullThrows(text: string, parse: string -> Option<Json>)
    requires parse(text) == Some(Null)
    ensures Check(FormData(Upload(text)), parse) == Refuse(Internal())
  {
  }

  // ---------------------------------------------------------------------
  // The validation is shallow

  /** An accepted document may have no phases, or a `faseAtual` that names none of them. */
  lemma ShallowValidation(text: string, parse: string -> Option<Json>, faseAtual: string, fases: seq<Json>)
    requires faseAtual != ""
    requires parse(text) == Some(Obj(map["faseAtual" := Str(faseAtual), "fases" := Arr(fases)]))
    ensures Check(FormData(Upload(text)), parse) == Accept(text)
  {
  }

  /**
   * Against the `Cronograma` interface: a conforming value passes the check
   * exactly when its `faseAtual` is not the empty string, and values far
   * from conforming (phases that are not even objects) pass as well.
   */
  lemma ConformingDocuments(v: Json, c: CronogramaTypes.Cronograma)
    requires CronogramaTypes.FromJson(v) == Some(c)
    ensures StructureOf(v) == Acceptable <==> c.faseAtual != ""
  {
  }

  lemma NonConformingAccepted(faseAtual: string)
    requires faseAtual != ""
    ensures var v := Obj(map["faseAtual" := Str(faseAtual), "fases" := Arr([Null])]);
            StructureOf(v) == Acceptable && CronogramaTypes.FromJson(v).None?
  {
  }
}
