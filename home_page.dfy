/**
 * The home page: its four pieces of state (`cronograma`, `loading`,
 * `error`, `selectedDay`), the load event that fills them from
 * `GET /api/cronograma`, the day selector's change event, and the screen
 * each state renders to.
 */
module HomePage {
  import opened Wrappers
  import opened Json
  import opened Http
  import opened Seqs
  import opened CronogramaTypes

  // ---------------------------------------------------------------------
  // Resolving the current phase and the selected day

  /** `fases.find(f => f.titulo === faseAtual)`: the first phase with that title. */
  function CurrentPhase(c: Cronograma): (r: Option<Fase>)
    ensures r.None? <==> forall i :: 0 <= i < |c.fases| ==> c.fases[i].titulo != c.faseAtual
    ensures r.Some? ==> r.value.titulo == c.faseAtual
    ensures r.Some? ==> exists i :: 0 <= i < |c.fases| && c.fases[i] == r.value &&
                                    forall j :: 0 <= j < i ==> c.fases[j].titulo != c.faseAtual
  {
    Find(c.fases, (f: Fase) => f.titulo == c.faseAtual)
  }

  /** The first phase titled `faseAtual` is the current one; later ones with that title are ignored. */
  lemma CurrentPhaseIsFirstMatch(c: Cronograma, i: nat)
    requires i < |c.fases| && c.fases[i].titulo == c.faseAtual
    requires forall j :: 0 <= j < i ==> c.fases[j].titulo != c.faseAtual
    ensures CurrentPhase(c) == Some(c.fases[i])
  {
    FindFirstMatch(c.fases, (f: Fase) => f.titulo == c.faseAtual, i);
  }

  /** `dias.find(d => d.nome === selectedDay)`: no fallback when nothing matches. */
  function DayNamed(dias: seq<Dia>, nome: string): Option<Dia> {
    Find(dias, (d: Dia) => d.nome == nome)
  }

  /** The selector's options: the day names, in order. */
  function DayNames(dias: seq<Dia>): (r: seq<string>)
    ensures |r| == |dias| && forall i :: 0 <= i < |dias| ==> r[i] == dias[i].nome
  {
    if dias == [] then [] else [dias[0].nome] + DayNames(dias[1..])
  }

  /** The day shown has the selected name and is the first such day; it exists iff some day has the name. */
  lemma DisplayedDay(dias: seq<Dia>, nome: string)
    ensures DayNamed(dias, nome).Some? <==> nome in DayNames(dias)
    ensures DayNamed(dias, nome).Some? ==>
              exists i :: 0 <= i < |dias| && dias[i] == DayNamed(dias, nome).value && dias[i].nome == nome &&
                          forall j :: 0 <= j < i ==> dias[j].nome != nome
  {
    var names := DayNames(dias);
    if nome in names {
      var k :| 0 <= k < |names| && names[k] == nome;
      assert dias[k].nome == nome;
    }
  }

  // ---------------------------------------------------------------------
  // What the page shows

  const LoadFailed := "Falha ao carregar cronograma"
  const NoTime := "Sem horário"

  /** One list entry: the time badge and the description. */
  datatype Row = Row(badge: string, descricao: string)

  /** The schedule block of the displayed day. */
  datatype DayBlock = DayBlock(nome: string, rows: seq<Row>, noItemsNotice: bool)

  datatype Screen =
    | Loading                    // "Carregando..."
    | Failure(message: string)   // "Erro" with the message
    | Welcome                    // "Nenhum cronograma encontrado."
    | PhaseNotFound(faseAtual: string)
    | NoDays                     // "Nenhum dia encontrado nesta fase."
    | Schedule(titulo: string, objetivo: Option<string>, options: seq<string>, selected: string,
               block: Option<DayBlock>)

  /** `item.hora || 'Sem horário'`: an empty `hora` is falsy too. */
  function TimeLabel(hora: Option<string>): string {
    if hora.Some? && hora.value != "" then hora.value else NoTime
  }

  /** The items as listed: in their original order, an untimed one labelled "Sem horário". */
  function Rows(itens: seq<Item>): (r: seq<Row>)
    ensures |r| == |itens|
    ensures forall i :: 0 <= i < |itens| ==> r[i].descricao == itens[i].descricao
    ensures forall i :: 0 <= i < |itens| && itens[i].hora.Some? && itens[i].hora.value != "" ==>
              r[i].badge == itens[i].hora.value
    ensures forall i :: 0 <= i < |itens| && (itens[i].hora.None? || itens[i].hora.value == "") ==>
              r[i].badge == NoTime
  {
    if itens == [] then []
    else [Row(TimeLabel(itens[0].hora), itens[0].descricao)] + Rows(itens[1..])
  }

  function Block(d: Dia): DayBlock {
    DayBlock(d.nome, Rows(d.itens), |d.itens| == 0)
  }

  /** `{error && ...}`: an error message is shown only when it is a non-empty string. */
  predicate Shown(s: Option<string>) {
    s.Some? && s.value != ""
  }

  /** The screen rendered for a state, branch by branch in the order the component tests them. */
  function View(cronograma: Option<Cronograma>, loading: bool, error: Option<string>, selectedDay: string): Screen {
    if loading then Loading
    else if Shown(error) then Failure(error.value)
    else if cronograma.None? then Welcome
    else
      var c := cronograma.value;
      match CurrentPhase(c)
      case None => PhaseNotFound(c.faseAtual)
      case Some(fase) =>
        if |fase.dias| == 0 then NoDays
        else
          Schedule(fase.titulo, if Shown(c.objetivo) then c.objetivo else None, DayNames(fase.dias), selectedDay,
                   match DayNamed(fase.dias, selectedDay)
                   case None => None
                   case Some(d) => Some(Block(d)))
  }

  /** No phase titled `faseAtual`: the phase-not-found error, and no selector. */
  lemma PhaseNotFoundView(c: Cronograma, error: Option<string>, selectedDay: string)
    requires !Shown(error)
    requires forall i :: 0 <= i < |c.fases| ==> c.fases[i].titulo != c.faseAtual
    ensures View(Some(c), false, error, selectedDay) == PhaseNotFound(c.faseAtual)
  {
  }

  /** A current phase without days: the no-days error. */
  lemma NoDaysView(c: Cronograma, i: nat, error: Option<string>, selectedDay: string)
    requires !Shown(error)
    requires i < |c.fases| && c.fases[i].titulo == c.faseAtual && c.fases[i].dias == []
    requires forall j :: 0 <= j < i ==> c.fases[j].titulo != c.faseAtual
    ensures View(Some(c), false, error, selectedDay) == NoDays
  {
    CurrentPhaseIsFirstMatch(c, i);
  }

  /**
   * A current phase with days: the selector offers exactly its day names in
   * order, and the block shows the first day with the selected name, or
   * nothing at all when no day has it (there is no fallback to the first day).
   * The objective is shown only when non-empty; a day without items shows
   * the "Nenhum item para este dia." notice instead of an error.
   */
  lemma ScheduleView(c: Cronograma, error: Option<string>, selectedDay: string)
    requires !Shown(error)
    requires CurrentPhase(c).Some? && |CurrentPhase(c).value.dias| > 0
    ensures var fase := CurrentPhase(c).value;
            var s := View(Some(c), false, error, selectedDay);
            && s.Schedule?
            && s.titulo == c.faseAtual
            && s.options == DayNames(fase.dias)
            && (s.objetivo.Some? <==> c.objetivo.Some? && c.objetivo.value != "")
            && (s.objetivo.Some? ==> s.objetivo == c.objetivo)
            && (s.block.Some? ==> (s.block.value.noItemsNotice <==> s.block.value.rows == []))
            && (s.block.None? <==> forall i :: 0 <= i < |fase.dias| ==> fase.dias[i].nome != selectedDay)
            && (s.block.Some? ==> exists i :: 0 <= i < |fase.dias| && s.block == Some(Block(fase.dias[i])) &&
                                             fase.dias[i].nome == selectedDay &&
                                             forall j :: 0 <= j < i ==> fase.dias[j].nome != selectedDay)
  {
    DisplayedDay(CurrentPhase(c).value.dias, selectedDay);
  }

  // ---------------------------------------------------------------------
  // The component's state and its two events

  /** What the fetch promise chain sees. */
  datatype FetchResult =
    | Fetched(status: int, body: Option<Cronograma>) // a response; `body` is `res.json()` when ok, `None` if falsy
    | Rejected(message: string)                      // `fetch` or `res.json()` rejected with this message

  /** The document kept by a load: an ok response's truthy body, else none (a 404 included). */
  function LoadedDocument(result: FetchResult): Option<Cronograma> {
    if result.Fetched? && IsOk(result.status) then result.body else None
  }

  /** The error a load records: a rejection's message, or the failure message for a non-ok, non-404 status. */
  function LoadError(result: FetchResult): Option<string> {
    match result
    case Rejected(message) => Some(message)
    case Fetched(status, _) => if !IsOk(status) && status != 404 then Some(LoadFailed) else None
  }

  /** The day auto-selected on load: the current phase's first day, else `''`. */
  function InitialSelection(cronograma: Option<Cronograma>): string {
    if cronograma.Some? && CurrentPhase(cronograma.value).Some? && |CurrentPhase(cronograma.value).value.dias| > 0
    then CurrentPhase(cronograma.value).value.dias[0].nome
    else ""
  }

  /** Whenever the current phase has days, the selected day is one of their names. */
  predicate SelectionKept(cronograma: Option<Cronograma>, selectedDay: string) {
    match cronograma
    case None => true
    case Some(c) =>
      match CurrentPhase(c)
      case None => true
      case Some(fase) => |fase.dias| == 0 || selectedDay in DayNames(fase.dias)
  }

  /** A load auto-selects a name the selector offers. */
  lemma InitialSelectionKept(cronograma: Option<Cronograma>)
    ensures SelectionKept(cronograma, InitialSelection(cronograma))
  {
    if cronograma.Some? && CurrentPhase(cronograma.value).Some? {
      var fase := CurrentPhase(cronograma.value).value;
      if |fase.dias| > 0 {
        assert DayNames(fase.dias)[0] == fase.dias[0].nome;
      }
    }
  }

  /** On load, the view shows the first day of the current phase when it has one. */
  lemma InitialSelectionShowsFirstDay(c: Cronograma, error: Option<string>)
    requires !Shown(error)
    requires CurrentPhase(c).Some? && |CurrentPhase(c).value.dias| > 0
    ensures View(Some(c), false, error, InitialSelection(Some(c))).block == Some(Block(CurrentPhase(c).value.dias[0]))
  {
    var dias := CurrentPhase(c).value.dias;
    FindFirstMatch(dias, (d: Dia) => d.nome == dias[0].nome, 0);
  }

  /** In a state whose selection is kept, a schedule always shows a day: the no-fallback case never arises. */
  lemma KeptSelectionShowsDay(cronograma: Option<Cronograma>, error: Option<string>, selectedDay: string)
    requires SelectionKept(cronograma, selectedDay)
    requires View(cronograma, false, error, selectedDay).Schedule?
    ensures View(cronograma, false, error, selectedDay).block.Some?
    ensures View(cronograma, false, error, selectedDay).block.value.nome == selectedDay
  {
    var fase := CurrentPhase(cronograma.value).value;
    DisplayedDay(fase.dias, selectedDay);
  }

  class Home {
    var cronograma: Option<Cronograma>
    var loading: bool
    var error: Option<string>
    var selectedDay: string

    ghost predicate Valid()
      reads this
    {
      (loading ==> cronograma.None? && error.None? && selectedDay == "") &&
      SelectionKept(cronograma, selectedDay)
    }

    /** The first render: nothing loaded yet, loading, no error, no day selected. */
    constructor ()
      ensures Valid()
      ensures cronograma.None? && loading && error.None? && selectedDay == ""
    {
      cronograma := None;
      loading := true;
      error := None;
      selectedDay := "";
    }

    function Render(): Screen
      reads this
    {
      View(cronograma, loading, error, selectedDay)
    }

    /** The mount effect's promise chain settling with `result`; it runs once, from the first render. */
    method Load(result: FetchResult)
      requires Valid() && loading
      modifies this
      ensures Valid() && !loading
      ensures cronograma == LoadedDocument(result)
      ensures error == LoadError(result)
      ensures selectedDay == InitialSelection(cronograma)
      ensures Render().Schedule? ==> Render().block == Some(Block(CurrentPhase(cronograma.value).value.dias[0]))
    {
      match result {
        case Rejected(message) =>
          error := Some(message);
        case Fetched(status, body) =>
          if !IsOk(status) {
            if status != 404 {
              error := Some(LoadFailed);
            }
          } else if body.Some? {
            cronograma := body;
            var phase := CurrentPhase(body.value);
            if phase.Some? && |phase.value.dias| > 0 {
              selectedDay := phase.value.dias[0].nome;
            }
          }
      }
      loading := false;
      InitialSelectionKept(cronograma);
      if Render().Schedule? {
        InitialSelectionShowsFirstDay(cronograma.value, error);
      }
    }

    /** The selector's `onChange`: the browser only offers the listed options. */
    method Select(value: string)
      requires Valid() && Render().Schedule? && value in Render().options
      modifies this
      ensures Valid()
      ensures selectedDay == value
      ensures cronograma == old(cronograma) && loading == old(loading) && error == old(error)
      ensures Render().Schedule? && Render().block.Some? && Render().block.value.nome == value
    {
      selectedDay := value;
      KeptSelectionShowsDay(cronograma, error, selectedDay);
    }
  }
}
