/**
 * The schedule ("cronograma") document: a current-phase title and an
 * ordered list of phases, each an ordered list of days, each an ordered
 * list of items. Optional interface members are `Option`s.
 *
 * Besides the records themselves, the module gives their JSON form:
 * `ToJson` writes a document as the object the interfaces describe, and
 * `FromJson` recognises exactly the parsed values that conform to the
 * interfaces (with any extra members ignored).
 */
module CronogramaTypes {
  import opened Wrappers
  import opened Json

  /** A scheduled entry: an optional time label and a required description. */
  datatype Item = Item(hora: Option<string>, descricao: string)

  /** A named day and the items shown for it, in display order. */
  datatype Dia = Dia(nome: string, itens: seq<Item>)

  /** A titled phase and its days, in selector order. */
  datatype Fase = Fase(titulo: string, dias: seq<Dia>)

  /** The whole document. `duracaoSemanas` is carried, never computed with. */
  datatype Cronograma = Cronograma(
    faseAtual: string,
    inicio: Option<string>,
    duracaoSemanas: Option<real>,
    objetivo: Option<string>,
    regras: Option<seq<string>>,
    fases: seq<Fase>)

  // ---------------------------------------------------------------------
  // Decoding a parsed value against the interfaces

  /** Every element decodes; the decoded elements keep their order. */
  function AllOf<T>(vs: seq<Json>, f: Json -> Option<T>): (r: Option<seq<T>>)
    ensures r.Some? <==> forall i :: 0 <= i < |vs| ==> f(vs[i]).Some?
    ensures r.Some? ==> |r.value| == |vs| &&
                        forall i :: 0 <= i < |vs| ==> f(vs[i]) == Some(r.value[i])
  {
    if vs == [] then Some([])
    else
      match (f(vs[0]), AllOf(vs[1..], f))
      case (Some(x), Some(xs)) => Some([x] + xs)
      case _ => None
  }

  /** A member that must be present; `None` when it is missing or mistyped. */
  function Required<T>(m: map<string, Json>, key: string, f: Json -> Option<T>): Option<T> {
    if key in m then f(m[key]) else None
  }

  /** An optional member: `Some(None)` when absent, `None` when mistyped. */
  function Optional<T>(m: map<string, Json>, key: string, f: Json -> Option<T>): Option<Option<T>> {
    if key !in m then Some(None)
    else match f(m[key])
      case None => None
      case Some(x) => Some(Some(x))
  }

  function AsString(v: Json): Option<string> {
    if v.Str? then Some(v.s) else None
  }

  function AsNumber(v: Json): Option<real> {
    if v.Num? then Some(v.n) else None
  }

  function AsStrings(v: Json): Option<seq<string>> {
    if v.Arr? then AllOf(v.elems, AsString) else None
  }

  function ItemFromJson(v: Json): Option<Item> {
    if !v.Obj? then None
    else
      match (Optional(v.fields, "hora", AsString), Required(v.fields, "descricao", AsString))
      case (Some(hora), Some(descricao)) => Some(Item(hora, descricao))
      case _ => None
  }

  function ItemsFromJson(v: Json): Option<seq<Item>> {
    if v.Arr? then AllOf(v.elems, ItemFromJson) else None
  }

  function DiaFromJson(v: Json): Option<Dia> {
    if !v.Obj? then None
    else
      match (Required(v.fields, "nome", AsString), Required(v.fields, "itens", ItemsFromJson))
      case (Some(nome), Some(itens)) => Some(Dia(nome, itens))
      case _ => None
  }

  function DiasFromJson(v: Json): Option<seq<Dia>> {
    if v.Arr? then AllOf(v.elems, DiaFromJson) else None
  }

  function FaseFromJson(v: Json): Option<Fase> {
    if !v.Obj? then None
    else
      match (Required(v.fields, "titulo", AsString), Required(v.fields, "dias", DiasFromJson))
      case (Some(titulo), Some(dias)) => Some(Fase(titulo, dias))
      case _ => None
  }

  function FasesFromJson(v: Json): Option<seq<Fase>> {
    if v.Arr? then AllOf(v.elems, FaseFromJson) else None
  }

  /** The document a parsed value denotes, when it conforms to `Cronograma`. */
  function FromJson(v: Json): Option<Cronograma> {
    if !v.Obj? then None
    else
      var faseAtual := Required(v.fields, "faseAtual", AsString);
      var inicio := Optional(v.fields, "inicio", AsString);
      var duracao := Optional(v.fields, "duracaoSemanas", AsNumber);
      var objetivo := Optional(v.fields, "objetivo", AsString);
      var regras := Optional(v.fields, "regras", AsStrings);
      var fases := Required(v.fields, "fases", FasesFromJson);
      if faseAtual.Some? && inicio.Some? && duracao.Some? && objetivo.Some? && regras.Some? && fases.Some?
      then Some(Cronograma(faseAtual.value, inicio.value, duracao.value, objetivo.value, regras.value, fases.value))
      else None
  }

  // ---------------------------------------------------------------------
  // Writing a document in the shape the interfaces describe

  function EncodeAll<T>(xs: seq<T>, f: T -> Json): (r: seq<Json>)
    ensures |r| == |xs| && forall i :: 0 <= i < |xs| ==> r[i] == f(xs[i])
  {
    if xs == [] then [] else [f(xs[0])] + EncodeAll(xs[1..], f)
  }

  /** The members of an object: `m` plus `key` when an optional value is present. */
  function WithOptional<T>(m: map<string, Json>, key: string, o: Option<T>, f: T -> Json): map<string, Json> {
    if o.Some? then m[key := f(o.value)] else m
  }

  function StrJson(s: string): Json { Str(s) }

  function NumJson(n: real): Json { Num(n) }

  function StringsJson(rs: seq<string>): Json { Arr(EncodeAll(rs, StrJson)) }

  function ItemToJson(x: Item): Json {
    Obj(WithOptional(map["descricao" := Str(x.descricao)], "hora", x.hora, StrJson))
  }

  function DiaToJson(d: Dia): Json {
    Obj(map["nome" := Str(d.nome), "itens" := Arr(EncodeAll(d.itens, ItemToJson))])
  }

  function FaseToJson(f: Fase): Json {
    Obj(map["titulo" := Str(f.titulo), "dias" := Arr(EncodeAll(f.dias, DiaToJson))])
  }

  function ToJson(c: Cronograma): Json {
    var required := map["faseAtual" := Str(c.faseAtual), "fases" := Arr(EncodeAll(c.fases, FaseToJson))];
    var m1 := WithOptional(required, "inicio", c.inicio, StrJson);
    var m2 := WithOptional(m1, "duracaoSemanas", c.duracaoSemanas, NumJson);
    var m3 := WithOptional(m2, "objetivo", c.objetivo, StrJson);
    Obj(WithOptional(m3, "regras", c.regras, StringsJson))
  }

  // ---------------------------------------------------------------------
  // The JSON form is faithful: decoding inverts encoding at every level

  /** Decoding every element of an encoded sequence gives the sequence back. */
  lemma {:induction false} AllOfEncodeAll<T>(xs: seq<T>, enc: T -> Json, dec: Json -> Option<T>)
    requires forall i :: 0 <= i < |xs| ==> dec(enc(xs[i])) == Some(xs[i])
    ensures AllOf(EncodeAll(xs, enc), dec) == Some(xs)
  {
    if xs != [] {
      assert forall i :: 0 <= i < |xs[1..]| ==> dec(enc(xs[1..][i])) == Some(xs[1..][i]) by {
        forall i | 0 <= i < |xs[1..]| ensures dec(enc(xs[1..][i])) == Some(xs[1..][i]) {
          assert xs[1..][i] == xs[i + 1];
        }
      }
      AllOfEncodeAll(xs[1..], enc, dec);
      assert EncodeAll(xs, enc)[1..] == EncodeAll(xs[1..], enc);
      assert [xs[0]] + xs[1..] == xs;
    }
  }

  lemma StringsRoundTrip(rs: seq<string>)
    ensures AsStrings(StringsJson(rs)) == Some(rs)
  {
    AllOfEncodeAll(rs, StrJson, AsString);
  }

  /** An item without `hora` is written without the member and read back as `None`. */
  lemma ItemRoundTrip(x: Item)
    ensures ItemFromJson(ItemToJson(x)) == Some(x)
  {
  }

  lemma DiaRoundTrip(d: Dia)
    ensures DiaFromJson(DiaToJson(d)) == Some(d)
  {
    forall i | 0 <= i < |d.itens| ensures ItemFromJson(ItemToJson(d.itens[i])) == Some(d.itens[i]) {
      ItemRoundTrip(d.itens[i]);
    }
    AllOfEncodeAll(d.itens, ItemToJson, ItemFromJson);
  }

  lemma FaseRoundTrip(f: Fase)
    ensures FaseFromJson(FaseToJson(f)) == Some(f)
  {
    forall i | 0 <= i < |f.dias| ensures DiaFromJson(DiaToJson(f.dias[i])) == Some(f.dias[i]) {
      DiaRoundTrip(f.dias[i]);
    }
    AllOfEncodeAll(f.dias, DiaToJson, DiaFromJson);
  }

  /** Reading back an optional member written by `WithOptional`. */
  lemma OptionalWritten<T>(m: map<string, Json>, key: string, o: Option<T>, enc: T -> Json, dec: Json -> Option<T>)
    requires key !in m
    requires o.Some? ==> dec(enc(o.value)) == o
    ensures Optional(WithOptional(m, key, o, enc), key, dec) == Some(o)
  {
  }

  /** Writing an optional member leaves every other member as it was. */
  lemma OtherMembersKept<T>(m: map<string, Json>, key: string, o: Option<T>, enc: T -> Json, other: string)
    requires other != key
    ensures other in WithOptional(m, key, o, enc) <==> other in m
    ensures other in m ==> WithOptional(m, key, o, enc)[other] == m[other]
  {
  }

  /** The members of a written document, read back one by one. */
  lemma ToJsonMembers(c: Cronograma)
    ensures ToJson(c).Obj?
    ensures Required(ToJson(c).fields, "faseAtual", AsString) == Some(c.faseAtual)
    ensures Optional(ToJson(c).fields, "inicio", AsString) == Some(c.inicio)
    ensures Optional(ToJson(c).fields, "duracaoSemanas", AsNumber) == Some(c.duracaoSemanas)
    ensures Optional(ToJson(c).fields, "objetivo", AsString) == Some(c.objetivo)
    ensures Optional(ToJson(c).fields, "regras", AsStrings) == Some(c.regras)
    ensures "fases" in ToJson(c).fields && ToJson(c).fields["fases"] == Arr(EncodeAll(c.fases, FaseToJson))
  {
    var required := map["faseAtual" := Str(c.faseAtual), "fases" := Arr(EncodeAll(c.fases, FaseToJson))];
    var m1 := WithOptional(required, "inicio", c.inicio, StrJson);
    var m2 := WithOptional(m1, "duracaoSemanas", c.duracaoSemanas, NumJson);
    var m3 := WithOptional(m2, "objetivo", c.objetivo, StrJson);
    var m := WithOptional(m3, "regras", c.regras, StringsJson);
    assert ToJson(c) == Obj(m);
    OptionalWritten(required, "inicio", c.inicio, StrJson, AsString);
    OptionalWritten(m1, "duracaoSemanas", c.duracaoSemanas, NumJson, AsNumber);
    OptionalWritten(m2, "objetivo", c.objetivo, StrJson, AsString);
    if c.regras.Some? {
      StringsRoundTrip(c.regras.value);
    }
    OptionalWritten(m3, "regras", c.regras, StringsJson, AsStrings);
    OtherMembersKept(m1, "duracaoSemanas", c.duracaoSemanas, NumJson, "inicio");
    OtherMembersKept(m2, "objetivo", c.objetivo, StrJson, "inicio");
    OtherMembersKept(m3, "regras", c.regras, StringsJson, "inicio");
    OtherMembersKept(m2, "objetivo", c.objetivo, StrJson, "duracaoSemanas");
    OtherMembersKept(m3, "regras", c.regras, StringsJson, "duracaoSemanas");
    OtherMembersKept(m3, "regras", c.regras, StringsJson, "objetivo");
  }

  /** A document and its JSON form determine each other. */
  lemma RoundTrip(c: Cronograma)
    ensures FromJson(ToJson(c)) == Some(c)
  {
    forall i | 0 <= i < |c.fases| ensures FaseFromJson(FaseToJson(c.fases[i])) == Some(c.fases[i]) {
      FaseRoundTrip(c.fases[i]);
    }
    AllOfEncodeAll(c.fases, FaseToJson, FaseFromJson);
    if c.regras.Some? {
      StringsRoundTrip(c.regras.value);
    }
    ToJsonMembers(c);
  }
}
