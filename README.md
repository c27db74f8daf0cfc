# Cronograma: a verified model of the schedule upload and viewer

This project models the core of a small single-user web app that stores and displays a schedule document
(a *cronograma*). The document has a current-phase title (`faseAtual`) and an ordered list of phases (`fases`).
Each phase is an ordered list of days (`dias`), and each day an ordered list of items (`itens`).
The model covers four parts:

- **the data contract** (`CronogramaTypes`): the four interfaces as datatypes. `FromJson` recognises the parsed
  JSON values that conform to them; `ToJson` writes a document as such a value. `FromJson` is proved to invert `ToJson`: every document is
  read back from its JSON form unchanged. The converse does not hold, since `FromJson` ignores extra members.
- **the upload route** (`UploadRoute`): `POST /api/upload` runs three checks in a fixed order: a file is present,
  its text parses, the parsed value has a truthy `faseAtual` and an array `fases`. The first failing check decides
  the response. Only a request that passes all three appends its text, verbatim, to the store.
- **the store** (`Store`): the `cronogramas` table as an append-only class `Table`. It holds rows with
  auto-incremented ids starting at 1. `Newest` is the row `ORDER BY id DESC LIMIT 1` reads.
- **the read route and the page** (`CronogramaRoute`, `HomePage`): `GET /api/cronograma` answers with the parse of
  the newest row. The home page keeps four state fields, which its load and select events update. `View` gives
  the screen each state renders: the current phase is the first phase whose title equals `faseAtual`, and the
  displayed day is the first day whose name equals the selection.

`EndToEnd` joins them. It proves that a document uploaded as text is served back and displayed, with its current
phase's first day selected.

Outside calls become parameters:

- `JSON.parse` is a partial function `parse: string -> Option<Json>`, where `None` is a thrown `SyntaxError`.
- A failing database is a boolean: `insertFails` for the upload, `dbFails` for the read.
- The page's network result is a `FetchResult` datatype.

Three behaviours of the code may be unexpected; the model states what the code does:

- **No fallback day.** One might expect an unmatched selection to fall back to the first day. The code
  (`src/app/page.tsx:68`, `:113`) renders no schedule block instead. `HomePage.ScheduleView` states what the code
  does. `HomePage.KeptSelectionShowsDay` proves that the page's own events never reach that case: the load selects
  the first day and the selector only offers existing names.
- **Truthiness, not strings.** One might expect `faseAtual` to have to be a non-empty *string*. The code only tests
  truthiness (`src/app/api/upload/route.ts:24`), so `true` or `5` is accepted.
- **Unchecked fields.** One might expect a non-empty `descricao` and a positive integer `duracaoSemanas`.
  Nothing in the code checks either, and the model does not add the checks.

## Model

| member | source | states |
|---|---|---|
| `CronogramaTypes.ItemRoundTrip` | src/types/cronograma.ts:1-4 | an item (required `descricao`, optional `hora`) is read back from its JSON form unchanged; an absent `hora` is read back as absent |
| `CronogramaTypes.DiaRoundTrip` | src/types/cronograma.ts:6-9 | a day (name plus ordered items) is read back from its JSON form unchanged, items in the same order |
| `CronogramaTypes.FaseRoundTrip` | src/types/cronograma.ts:11-14 | a phase (title plus ordered days) is read back from its JSON form unchanged |
| `CronogramaTypes.ToJsonMembers` | src/types/cronograma.ts:16-23 | a written document has `faseAtual` and `fases`; each of `inicio`, `duracaoSemanas`, `objetivo`, `regras` is present exactly when the document has it |
| `CronogramaTypes.RoundTrip` | src/types/cronograma.ts:1-23 | every document is recognised from its JSON form as exactly itself: `FromJson(ToJson(c)) == Some(c)` |
| `CronogramaTypes.AllOf` | src/types/cronograma.ts:8 | a JSON array reads as a list exactly when every element reads, and the list keeps the elements' order |
| `CronogramaTypes.AllOfEncodeAll` | src/types/cronograma.ts:13 | reading back an array written element by element gives the original list, when each element reads back |
| `CronogramaTypes.StringsRoundTrip` | src/types/cronograma.ts:21 | the `regras` list is read back from its JSON form unchanged |
| `CronogramaTypes.OptionalWritten` | src/types/cronograma.ts:18-21 | an optional member written only when present is read back as present with its value, or as absent |
| `CronogramaTypes.OtherMembersKept` | src/types/cronograma.ts:18-21 | writing one optional member does not change any other member |
| `Seqs.FirstIndex` | src/app/page.tsx:62 | the index found holds the first element satisfying the predicate; no index means no element satisfies it |
| `Seqs.Find` | src/app/page.tsx:68 | `find` returns an element satisfying the predicate with none before it, and `undefined` exactly when none does |
| `Seqs.FindFirstMatch` | src/app/page.tsx:62 | the first element satisfying the predicate is the one `find` returns |
| `Store.Newest` | src/app/api/cronograma/route.ts:6 | the row read is one of the table's rows with the largest id; there is none exactly when the table is empty |
| `Store.NewestIsLast` | src/lib/db.ts:10 | with auto-incremented ids, the row with the largest id is the one appended last |
| `Store.NewestAfterAppend` | src/lib/db.ts:10 | appending a row with the next id keeps ids increasing and makes that row the newest |
| `Store.Table.constructor` | src/lib/db.ts:8-14 | a new table is empty and its first id will be 1 |
| `Store.Table.Insert` | src/app/api/upload/route.ts:28-29 | the table grows by exactly one row, the given text with the next id, earlier rows unchanged, and that row becomes the newest |
| `UploadRoute.StructureOf` | src/app/api/upload/route.ts:24 | the condition throws exactly on `null`, and passes exactly on an object with a truthy `faseAtual` and an array `fases` |
| `UploadRoute.Check` | src/app/api/upload/route.ts:7-26 | a request is accepted exactly when it carries a file whose text parses to a value of acceptable structure; the text kept is the file's text verbatim; every refusal is a 400 or the 500 |
| `UploadRoute.Post` | src/app/api/upload/route.ts:5-36 | a refused request or a failed insert leaves the table unchanged and answers with the refusal or 500; an accepted one appends exactly one row holding the text with the next id, advances the counter by one and answers "Upload successful" |
| `UploadRoute.NoFileFirst` | src/app/api/upload/route.ts:10-12 | with no file field (or an empty form value) the answer is 400 "No file uploaded", whatever the text would parse to |
| `UploadRoute.ParseBeforeStructure` | src/app/api/upload/route.ts:17-21 | text that does not parse gives 400 "Invalid JSON format" |
| `UploadRoute.BadStructureRefused` | src/app/api/upload/route.ts:24-26 | a non-null value without a truthy `faseAtual` or without an array `fases` gives 400 "Invalid cronograma structure" |
| `UploadRoute.NullThrows` | src/app/api/upload/route.ts:24-35 | text parsing to `null` makes the property read throw, and the answer is 500 "Internal server error" |
| `UploadRoute.ShallowValidation` | src/app/api/upload/route.ts:24 | a value with a non-empty `faseAtual` and any `fases` array is accepted, including an empty one and one naming no current phase |
| `UploadRoute.ConformingDocuments` | src/app/api/upload/route.ts:24 | a value that conforms to the `Cronograma` interface passes the check exactly when its `faseAtual` is non-empty |
| `UploadRoute.NonConformingAccepted` | src/app/api/upload/route.ts:24 | a value whose phases are not even objects still passes the check |
| `CronogramaRoute.NotFoundIffEmpty` | src/app/api/cronograma/route.ts:9-11 | the answer is 404 "No cronograma found" exactly when the table is readable and empty |
| `CronogramaRoute.ServesLastAppended` | src/app/api/cronograma/route.ts:6-18 | on a non-empty table the answer is 200 with the parse of the last appended text, or 500 when that text does not parse |
| `CronogramaRoute.UploadThenGet` | src/app/api/cronograma/route.ts:13-14 | after an accepted upload of text T, the next GET answers 200 with parse(T), whatever was stored before |
| `HomePage.CurrentPhase` | src/app/page.tsx:62 | the current phase has title `faseAtual` and no earlier phase has it; there is none exactly when no phase has that title |
| `HomePage.CurrentPhaseIsFirstMatch` | src/app/page.tsx:62 | the first phase titled `faseAtual` is the current one, so later duplicates are ignored |
| `HomePage.DayNames` | src/app/page.tsx:104-108 | the selector's options are exactly the current phase's day names, in order |
| `HomePage.DisplayedDay` | src/app/page.tsx:68 | a day is found exactly when some day has the selected name, and then it is the first such day |
| `HomePage.Rows` | src/app/page.tsx:119-130 | the items are listed in their original order with their descriptions; a present non-empty `hora` is shown, a missing or empty one shows "Sem horário" |
| `HomePage.PhaseNotFoundView` | src/app/page.tsx:65 | when no phase has the current title the page shows the phase-not-found error and no selector |
| `HomePage.NoDaysView` | src/app/page.tsx:66 | when the current phase has no days the page shows "Nenhum dia encontrado nesta fase" |
| `HomePage.ScheduleView` | src/app/page.tsx:62-136 | with a current phase that has days, the page offers its day names in order and shows the first day with the selected name, or no schedule block (no fallback) when none has it; the objective appears only when non-empty; a day without items shows the no-items notice |
| `HomePage.InitialSelectionKept` | src/app/page.tsx:25-29 | the day a load selects is always one the selector offers |
| `HomePage.InitialSelectionShowsFirstDay` | src/app/page.tsx:25-29 | after a load the page displays `dias[0]` of the current phase |
| `HomePage.KeptSelectionShowsDay` | src/app/page.tsx:100-113 | while the selection is one of the offered names, a schedule screen always shows the day with that name |
| `HomePage.Home.constructor` | src/app/page.tsx:8-11 | the first render has no document, is loading, has no error and no selected day |
| `HomePage.Home.Load` | src/app/page.tsx:13-34 | loading ends in every case; an ok response keeps its truthy body, a 404 keeps nothing and sets no error, another status sets "Falha ao carregar cronograma", a rejection sets its message; the selection is the current phase's first day or stays `''` |
| `HomePage.Home.Select` | src/app/page.tsx:98-101 | selecting an offered day changes only `selectedDay`, and the page then shows that day |
| `EndToEnd.EmptyStoreWelcomes` | src/app/page.tsx:16-17 | an empty table reaches the page as a 404: no document, no error, the welcome screen "Nenhum cronograma encontrado" |
| `EndToEnd.StoreFailureShowsError` | src/app/page.tsx:18-32 | a failing table read reaches the page as the error screen "Falha ao carregar cronograma" |
| `EndToEnd.UploadedDocumentIsDisplayed` | src/app/page.tsx:13-34 | text parsing to a value that conforms to a document with a non-empty `faseAtual` (extra members allowed) is accepted; a later load receives that document exactly and displays its current phase's first day |
| `EndToEnd.ExampleIsDisplayed` | src/app/page.tsx:98-133 | the one-phase example document, once uploaded and loaded, selects "Dia 1" and lists its one item as "09:00" / "Revisão" |

## Left out

- `src/app/upload/page.tsx` (the upload form): it only posts the file and navigates, with no schedule logic.
- `src/lib/db.ts` wiring: the SQLite file, the connection and the table creation are replaced by the in-memory `Store.Table`. Only the auto-increment ids are kept; `created_at` timestamps are not modelled.
- The JSON grammar: `JSON.parse` is a parameter. The route serialises its body and the page parses it again; the model takes that round trip as returning the same value.
- JSON numbers are `real`: floating-point rounding, `-0` and very large numbers are not modelled. `duracaoSemanas` is only carried.
- HTTP transport (`NextRequest`, `formData()`, `NextResponse`): requests and responses are small datatypes. Several `file` fields in one form are not distinguished; the model sees what `formData.get('file')` returns. A failing `file.text()` on a real file is not modelled.
- HomePage: the page is modelled on typed documents. The body of an ok response goes through an unchecked TypeScript cast; a body that does not conform to the interfaces is not modelled (`EndToEnd.Delivered` gives `None`). Every `Fase` has a `dias` list. What the code does with such a body: when the current phase has no `dias`, the load callback's unguarded `currentPhase.dias.length` (`src/app/page.tsx:27`) throws after `setCronograma`, the `.catch` at `:32` sets `error` to the TypeError's message, and the error screen is shown, so the `!currentPhase.dias` guard at `:66` is never reached by the page's own load; an upload the shallow check accepts with `fases: [null]` (`UploadRoute.NonConformingAccepted`) ends the same way, throwing at `f.titulo` on `:26`.
- JSX markup, CSS classes (such as the badge colour), links and `console.error` logging. The screens keep only the data they show. The phase-not-found message is the `PhaseNotFound(faseAtual)` constructor, not the full text.
- How the browser shows a `<select>` whose value matches no option: never reachable from the page's own events (`HomePage.KeptSelectionShowsDay`).
- React's re-running of effects (strict mode, remounting): the load runs once, from the first render.
- Concurrent uploads and the atomicity of inserts, which rest on the storage engine.
- `CronogramaRoute.Get` has no contract of its own. It is a function of the rows, so two reads with no upload between them give the same response by construction; its behaviour is stated by `NotFoundIffEmpty`, `ServesLastAppended` and `UploadThenGet`.
