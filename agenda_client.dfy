/** public/js/agenda.js: the browser side of a child's daily schedule. The status
    normaliser and the two display mappers are functions; the activity form, whose
    fields the script fills and reads, is a class; the list rendering is a loop. */
module AgendaClient {
  import opened JsValues
  import opened Text
  import Uri
  import Http
  import opened AgendaModel

  /** The keys the script reads as "done". */
  const CONCLUIDO_ALIASES: seq<string> := [
    "CONCLUIDA", "CONCLUIDOS", "CONCLUIDAS", "CONCLUIDO", "FEITO", "FEITA",
    "DONE", "FINALIZADO", "FINALIZADA"]

  /** The keys the script reads as "pending". */
  const PENDENTE_ALIASES: seq<string> := [
    "PEND", "TODO", "ABERTO", "ABERTA", "EM_ABERTO", "EMABERTO", "AGUARDANDO"]

  /** `normalizeStatus(v)`: falsy input gives null; otherwise the accent-free, trimmed,
      upper-cased text is returned when it is already an enum value, and mapped through
      the two alias lists otherwise. */
  function NormalizeStatus(v: JsValue): (r: Option<string>)
    ensures r.None? || IsStatusEnum(r.value)
    ensures !Truthy(v) ==> r.None?
    ensures Truthy(v) ==>
      (r == Some(CONCLUIDO) <==> CanonicalUpper(ToJsString(v)) in CONCLUIDO_ALIASES)
    ensures Truthy(v) ==>
      (r == Some(PENDENTE) <==> CanonicalUpper(ToJsString(v)) == PENDENTE
                                || CanonicalUpper(ToJsString(v)) in PENDENTE_ALIASES)
  {
    if !Truthy(v) then None
    else
      var s := CanonicalUpper(ToJsString(v));
      if s == PENDENTE || s == CONCLUIDO then Some(s)
      else if s in CONCLUIDO_ALIASES then Some(CONCLUIDO)
      else if s in PENDENTE_ALIASES then Some(PENDENTE)
      else None
  }

  /** `labelFromEnum(s)`. */
  function LabelFromEnum(v: JsValue): (r: string)
    ensures r == "Concluída" <==> v == Str(CONCLUIDO)
    ensures r != "Concluída" ==> r == "Pendente"
  {
    if v == Str(CONCLUIDO) then "Concluída" else "Pendente"
  }

  /** `statusClassFromEnum(s)`. */
  function StatusClassFromEnum(v: JsValue): (r: string)
    ensures r == "concluida" <==> v == Str(CONCLUIDO)
    ensures r != "concluida" ==> r == "pendente"
  {
    if v == Str(CONCLUIDO) then "concluida" else "pendente"
  }

  /** `normalizeStatus(v) || 'PENDENTE'`, the default each call site applies. */
  function StatusOrPendente(v: JsValue): (r: string)
    ensures IsStatusEnum(r)
    ensures r == CONCLUIDO <==> NormalizeStatus(v) == Some(CONCLUIDO)
  {
    NormalizeStatus(v).GetOr(PENDENTE)
  }

  /** The status a key stands for, independently of how the key was obtained. */
  function StatusForKey(k: string): Option<string> {
    if k in CONCLUIDO_ALIASES then Some(CONCLUIDO)
    else if k == PENDENTE || k in PENDENTE_ALIASES then Some(PENDENTE)
    else None
  }

  /** A truthy input gives what its key stands for. */
  lemma NormalizeStatusByKey(v: JsValue)
    requires Truthy(v)
    ensures NormalizeStatus(v) == StatusForKey(CanonicalUpper(ToJsString(v)))
  {
  }

  /** Two strings with the same key normalise alike; the empty string, which the falsy
      guard rejects, has the empty key, which no list holds. */
  lemma NormalizeStatusSameKey(a: string, b: string)
    requires CanonicalUpper(a) == CanonicalUpper(b)
    ensures NormalizeStatus(Str(a)) == NormalizeStatus(Str(b))
  {
    if a == "" || b == "" {
      PlainUpperIsCanonical("");
    }
  }

  /** Surrounding white space does not matter. */
  lemma NormalizeStatusIgnoresPadding(p: string, s: string, q: string)
    requires AllWhitespace(p) && AllWhitespace(q)
    ensures NormalizeStatus(Str(p + s + q)) == NormalizeStatus(Str(s))
  {
    CanonicalUpperIgnoresPadding(p, s, q);
    NormalizeStatusSameKey(p + s + q, s);
  }

  /** Case and accents do not matter: inputs whose characters agree one by one once
      accents are stripped and letters upper-cased normalise alike. */
  lemma NormalizeStatusIgnoresCaseAndAccents(a: string, b: string)
    requires |a| == |b|
    requires forall i :: 0 <= i < |a| ==> CharKey(a[i]) == CharKey(b[i])
    ensures NormalizeStatus(Str(a)) == NormalizeStatus(Str(b))
  {
    CanonicalUpperCharwise(a, b);
    NormalizeStatusSameKey(a, b);
  }

  /** Text made of upper-case ASCII letters, digits, underscores and inner spaces is its
      own key. */
  lemma PlainUpperIsCanonical(s: string)
    requires forall i :: 0 <= i < |s| ==> IsAsciiUpper(s[i]) || IsDigit(s[i]) || s[i] == '_' || s[i] == ' '
    requires s != [] ==> s[0] != ' ' && s[|s| - 1] != ' '
    ensures CanonicalUpper(s) == s
  {
    PlainTextUnchanged(s);
  }

  lemma {:induction false} PlainTextUnchanged(s: string)
    requires forall i :: 0 <= i < |s| ==> IsAsciiUpper(s[i]) || IsDigit(s[i]) || s[i] == '_' || s[i] == ' '
    requires s != [] ==> s[0] != ' ' && s[|s| - 1] != ' '
    ensures StripAccents(s) == s && Trim(s) == s && Upper(s) == s
  {
    PlainFlatMaps(s);
  }

  lemma {:induction false} PlainFlatMaps(s: string)
    requires forall i :: 0 <= i < |s| ==> IsAsciiUpper(s[i]) || IsDigit(s[i]) || s[i] == '_' || s[i] == ' '
    ensures StripAccents(s) == s && Upper(s) == s
  {
    if s != [] {
      PlainFlatMaps(s[1..]);
      assert s == [s[0]] + s[1..];
    }
  }

  /** The two enum values are fixed points. */
  lemma EnumValuesAreFixedPoints(s: string)
    requires IsStatusEnum(s)
    ensures NormalizeStatus(Str(s)) == Some(s)
  {
    PlainUpperIsCanonical(s);
  }

  /** Normalising a normalised status changes nothing. */
  lemma NormalizeStatusIdempotent(v: JsValue)
    requires NormalizeStatus(v).Some?
    ensures NormalizeStatus(Str(NormalizeStatus(v).value)) == NormalizeStatus(v)
  {
    EnumValuesAreFixedPoints(NormalizeStatus(v).value);
  }

  /** The two alias lists share no key, so the order of the two checks does not matter. */
  lemma AliasListsDisjoint(k: string)
    ensures !(k in CONCLUIDO_ALIASES && k in PENDENTE_ALIASES)
    ensures !(k in CONCLUIDO_ALIASES && k == PENDENTE)
  {
  }

  /** `'concluída'` and `'CONCLUIDA'` agree character by character once keyed. */
  lemma ConcluidaKeys(a: string, b: string)
    requires a == "concluída" && b == "CONCLUIDA"
    ensures |a| == |b| && forall i :: 0 <= i < |a| ==> CharKey(a[i]) == CharKey(b[i])
  {
    assert FoldAccent('\U{ED}') == ['i'];
    AsciiLetterKey('i');
    forall i | 0 <= i < |a|
      ensures CharKey(a[i]) == CharKey(b[i])
    {
      AsciiLetterKey(b[i]);
      if i != 6 {
        AsciiLetterKey(a[i]);
      }
    }
  }

  /** `'CONCLUIDA'` is an alias of done. */
  lemma AliasExample(done: string)
    requires done == "CONCLUIDA"
    ensures NormalizeStatus(Str(done)) == Some(CONCLUIDO)
  {
    PlainUpperIsCanonical(done);
  }

  /** `'concluída'` is read as done: case and accents do not matter. */
  lemma AccentedExample(core: string)
    requires core == "concluída"
    ensures NormalizeStatus(Str(core)) == Some(CONCLUIDO)
  {
    var done := "CONCLUIDA";
    ConcluidaKeys(core, done);
    NormalizeStatusIgnoresCaseAndAccents(core, done);
    AliasExample(done);
  }

  /** `' concluída '` is read as done: the padding does not matter either. */
  lemma PaddedAccentedExample(s: string)
    requires s == " concluída "
    ensures NormalizeStatus(Str(s)) == Some(CONCLUIDO)
  {
    var core := s[1..|s| - 1];
    assert s == " " + core + " ";
    NormalizeStatusIgnoresPadding(" ", core, " ");
    AccentedExample(core);
  }

  /** Inner spaces are kept, so `'EM ABERTO'` is not recognised. */
  lemma InnerSpaceExample(spaced: string)
    requires spaced == "EM ABERTO"
    ensures NormalizeStatus(Str(spaced)) == None
  {
    PlainUpperIsCanonical(spaced);
  }

  /** `'EM_ABERTO'` is an alias of pending. */
  lemma UnderscoreExample(underscored: string)
    requires underscored == "EM_ABERTO"
    ensures NormalizeStatus(Str(underscored)) == Some(PENDENTE)
  {
    PlainUpperIsCanonical(underscored);
  }

  /** The label and the CSS class always take the same branch. */
  lemma LabelAndClassAgree(v: JsValue)
    ensures LabelFromEnum(v) == "Concluída" <==> StatusClassFromEnum(v) == "concluida"
  {
  }

  /** The body of the create and update requests. */
  datatype AgendaPayload = AgendaPayload(
    horario: string, titulo: string, descricao: string, status_tarefa: string, id_crianca: JsValue)

  /** What pressing "save" leads to: an alert and no request, or one request. */
  datatype SaveOutcome =
    | Rejected(alert: string)
    | Send(verb: Http.Method, url: string, payload: AgendaPayload)

  const ALERT_MISSING_FIELDS: string := "Preencha todos os campos obrigatórios!"
  const ALERT_NO_CHILD: string := "Nenhuma criança selecionada."
  /** What the `catch` of `salvarAtividade` shows, for instance when the page has no
      status select and reading its value throws. */
  const ALERT_CONNECTION: string := "Erro ao conectar com o servidor."
  const AGENDA_BASE: string := "/api/agenda"

  /** An activity as `GET /api/agenda/:id` returns it. */
  datatype TarefaDto = TarefaDto(
    idAgenda: JsValue, horario: JsValue, horio: JsValue, titulo: JsValue,
    descricao: JsValue, status_tarefa: JsValue)

  /** The activity modal's form: the five inputs `openAtividadeModal` fills and
      `salvarAtividade` reads. */
  class AtividadeForm {
    var atividadeId: string
    var horario: string
    var titulo: string
    var descricao: string
    var status: string
    const hasStatusSelect: bool

    constructor (hasStatusSelect: bool)
      ensures this.hasStatusSelect == hasStatusSelect
      ensures atividadeId == horario == titulo == descricao == ""
      ensures status == (if hasStatusSelect then PENDENTE else "")
    {
      this.hasStatusSelect := hasStatusSelect;
      atividadeId, horario, titulo, descricao := "", "", "", "";
      status := if hasStatusSelect then PENDENTE else "";
    }

    /** `openAtividadeModal(atividadeId)`: clears the fields and selects "PENDENTE"; when
        an id is given, `loaded` is what fetching it gave (`None` when the request failed,
        in which case the modal stays closed). Returns whether the modal opens. */
    method Open(atividadeIdArg: JsValue, loaded: Option<TarefaDto>) returns (shown: bool)
      modifies this
      ensures shown <==> !Truthy(atividadeIdArg) || loaded.Some?
      ensures !Truthy(atividadeIdArg) || loaded.None? ==>
        atividadeId == horario == titulo == descricao == ""
        && status == (if hasStatusSelect then PENDENTE else old(status))
      ensures Truthy(atividadeIdArg) && loaded.Some? ==>
        var t := loaded.value;
        && atividadeId == InputText(t.idAgenda)
        && horario == InputText(Coalesce(t.horario, Coalesce(t.horio, Str(""))))
        && titulo == InputText(Coalesce(t.titulo, Str("")))
        && descricao == InputText(Coalesce(t.descricao, Str("")))
        && status == (if hasStatusSelect then StatusOrPendente(t.status_tarefa) else old(status))
      ensures hasStatusSelect ==> IsStatusEnum(status)
    {
      atividadeId := "";
      horario := "";
      titulo := "";
      descricao := "";
      if hasStatusSelect {
        status := PENDENTE;
      }
      if Truthy(atividadeIdArg) {
        if loaded.None? {
          return false;
        }
        var t := loaded.value;
        atividadeId := InputText(t.idAgenda);
        horario := InputText(Coalesce(t.horario, Coalesce(t.horio, Str(""))));
        titulo := InputText(Coalesce(t.titulo, Str("")));
        descricao := InputText(Coalesce(t.descricao, Str("")));
        var st := StatusOrPendente(t.status_tarefa);
        if hasStatusSelect {
          status := st;
        }
      }
      shown := true;
    }

    /** `salvarAtividade()` up to the request. The status select is read without a
        guard, so a page without one throws before any check and only the `catch`
        alert is shown. Otherwise the three text fields are checked (after trimming)
        before the selected child, and the request is a PUT to the encoded id exactly
        when the form holds an id. */
    method Save(idCrianca: JsValue) returns (out: SaveOutcome)
      ensures !hasStatusSelect ==> out == Rejected(ALERT_CONNECTION)
      ensures out == Rejected(ALERT_MISSING_FIELDS) <==>
        hasStatusSelect && (Trim(horario) == "" || Trim(titulo) == "" || Trim(descricao) == "")
      ensures out == Rejected(ALERT_NO_CHILD) <==>
        hasStatusSelect && Trim(horario) != "" && Trim(titulo) != "" && Trim(descricao) != ""
        && !Truthy(idCrianca)
      ensures out.Rejected? ==> out.alert in {ALERT_CONNECTION, ALERT_MISSING_FIELDS, ALERT_NO_CHILD}
      ensures out.Send? <==>
        hasStatusSelect && Trim(horario) != "" && Trim(titulo) != "" && Trim(descricao) != ""
        && Truthy(idCrianca)
      ensures out.Send? ==> (out.verb == Http.PUT <==> atividadeId != "")
      ensures out.Send? ==> out.verb == Http.PUT || out.verb == Http.POST
      ensures out.Send? && atividadeId != "" ==>
        out.url == AGENDA_BASE + "/" + Uri.EncodeUriComponent(atividadeId)
      ensures out.Send? && atividadeId == "" ==> out.url == AGENDA_BASE
      ensures out.Send? ==>
        && out.payload.horario == Trim(horario) != ""
        && out.payload.titulo == Trim(titulo) != ""
        && out.payload.descricao == Trim(descricao) != ""
        && out.payload.status_tarefa == StatusOrPendente(Str(status))
        && IsStatusEnum(out.payload.status_tarefa)
        && out.payload.id_crianca == idCrianca && Truthy(idCrianca)
    {
      var h := Trim(horario);
      var ti := Trim(titulo);
      var d := Trim(descricao);
      if !hasStatusSelect {
        return Rejected(ALERT_CONNECTION);
      }
      var st := StatusOrPendente(Str(status));
      if h == "" || ti == "" || d == "" {
        return Rejected(ALERT_MISSING_FIELDS);
      }
      if !Truthy(idCrianca) {
        return Rejected(ALERT_NO_CHILD);
      }
      var data := AgendaPayload(h, ti, d, st, idCrianca);
      var verb := if atividadeId != "" then Http.PUT else Http.POST;
      var url := if atividadeId != "" then AGENDA_BASE + "/" + Uri.EncodeUriComponent(atividadeId) else AGENDA_BASE;
      out := Send(verb, url, data);
    }
  }

  /** One rendered `<li class="task">`. */
  datatype TaskItem = TaskItem(
    dataStatus: string, badge: string, horario: string, titulo: string, descricao: string)

  /** What `carregarAtividadesDoDia` shows: the "no activity" line, the list, or an alert. */
  datatype AgendaView = NoActivities | Tasks(items: seq<TaskItem>) | LoadFailed

  /** The item one activity renders to: `${x || ''}` for time and title, `${x ?? ''}`
      for the description, status class and label from the defaulted status. */
  function RenderTask(t: TarefaDto): (item: TaskItem)
    ensures item.dataStatus == "concluida" <==> NormalizeStatus(t.status_tarefa) == Some(CONCLUIDO)
    ensures item.dataStatus == "pendente" <==> NormalizeStatus(t.status_tarefa) != Some(CONCLUIDO)
  {
    var st := StatusOrPendente(t.status_tarefa);
    TaskItem(StatusClassFromEnum(Str(st)), LabelFromEnum(Str(st)),
             if Truthy(t.horario) then ToJsString(t.horario) else "",
             if Truthy(t.titulo) then ToJsString(t.titulo) else "",
             if IsNullish(t.descricao) then "" else ToJsString(t.descricao))
  }

  /** The status class is one of the two and marks exactly the activities the
      normaliser reads as done; the badge agrees with it. */
  lemma RenderTaskStatus(t: TarefaDto)
    ensures RenderTask(t).dataStatus == "pendente" || RenderTask(t).dataStatus == "concluida"
    ensures RenderTask(t).dataStatus == "concluida" <==> NormalizeStatus(t.status_tarefa) == Some(CONCLUIDO)
    ensures RenderTask(t).badge == "Concluída" <==> RenderTask(t).dataStatus == "concluida"
  {
  }

  /** `carregarAtividadesDoDia()`: a 404 or an empty list shows the "no activity" line;
      otherwise each activity is appended in order. */
  method LoadDay(reply: Http.ListReply<TarefaDto>) returns (view: AgendaView)
    ensures reply.NotFound? || (reply.Listed? && reply.rows == []) <==> view == NoActivities
    ensures reply.ErrorStatus? || reply.Network? <==> view == LoadFailed
    ensures reply.Listed? && reply.rows != [] ==>
      view.Tasks? && |view.items| == |reply.rows|
      && forall i :: 0 <= i < |view.items| ==> view.items[i] == RenderTask(reply.rows[i])
  {
    match reply
    case NotFound =>
      return NoActivities;
    case ErrorStatus =>
      return LoadFailed;
    case Network =>
      return LoadFailed;
    case Listed(rows) =>
      if |rows| == 0 {
        return NoActivities;
      }
      var items := RenderAll(rows);
      view := Tasks(items);
  }

  /** The `forEach` that appends one item per activity, in order. */
  method RenderAll(rows: seq<TarefaDto>) returns (items: seq<TaskItem>)
    ensures |items| == |rows|
    ensures forall i :: 0 <= i < |items| ==> items[i] == RenderTask(rows[i])
  {
    items := [];
    var i := 0;
    while i < |rows|
      invariant 0 <= i <= |rows|
      invariant |items| == i
      invariant forall j :: 0 <= j < i ==> items[j] == RenderTask(rows[j])
    {
      items := items + [RenderTask(rows[i])];
      i := i + 1;
    }
  }

  /** Every badge on the day's list shows one of the two enum labels, and it is
      "Concluída" exactly for the activities stored as done under some alias. */
  lemma DayListShowsOnlyEnumStatuses(rows: seq<TarefaDto>, items: seq<TaskItem>)
    requires |items| == |rows|
    requires forall i :: 0 <= i < |items| ==> items[i] == RenderTask(rows[i])
    ensures forall i :: 0 <= i < |items| ==>
      (items[i].badge == "Concluída" || items[i].badge == "Pendente")
      && (items[i].badge == "Concluída" <==> NormalizeStatus(rows[i].status_tarefa) == Some(CONCLUIDO))
  {
    forall i | 0 <= i < |items|
      ensures items[i].badge == "Concluída" || items[i].badge == "Pendente"
      ensures items[i].badge == "Concluída" <==> NormalizeStatus(rows[i].status_tarefa) == Some(CONCLUIDO)
    {
      RenderTaskStatus(rows[i]);
    }
  }
}
