/** public/js/info.js: the browser side of a child's information records (allergies,
    medication, other notes). The type normaliser, the tag shown in the list and the
    escaping of the description are functions; the page, whose `savingInfo` flag, save
    button and modal inputs the script updates, is a class; the list rendering is a loop. */
module InfoClient {
  import opened JsValues
  import opened Text
  import Uri
  import Http

  const INFO_BASE: string := "/api/info"

  /** `ENUM_TIPOS`: the types the script lets through. */
  const ENUM_TIPOS: seq<string> := ["alergias", "medicamento", "outros"]

  /** The alias table inside `normalizeTipoFront`. */
  const TIPO_ALIASES: map<string, string> := map[
    "alergia" := "alergias", "alergias" := "alergias",
    "saude" := "medicamento", "remedio" := "medicamento", "medicamento" := "medicamento",
    "outros" := "outros"]

  /** `normalizeTipoFront(v)`: falsy input gives null; otherwise the trimmed, lower-cased
      text is looked up in the alias table (`map[s] || null`) and the result is kept only
      when `ENUM_TIPOS` includes it, which also turns away a member inherited from
      Object.prototype. */
  function NormalizeTipoFront(v: JsValue): (r: Option<string>)
    ensures r.None? || r.value in ENUM_TIPOS
    ensures !Truthy(v) ==> r.None?
    ensures Truthy(v) ==> (r.Some? <==> CanonicalLower(ToJsString(v)) in TIPO_ALIASES)
    ensures r.Some? ==> r.value == TIPO_ALIASES[CanonicalLower(ToJsString(v))]
  {
    if !Truthy(v) then None
    else
      var s := CanonicalLower(ToJsString(v));
      var looked := Get(TIPO_ALIASES, s);
      var normalized := if PropTruthy(looked) then looked else Missing;
      match normalized
      case Own(t) => if t in ENUM_TIPOS then Some(t) else None
      case Inherited(_) => None
      case Missing => None
  }

  /** Each value of `ENUM_TIPOS` is a fixed point. */
  lemma EnumTiposAreFixedPoints(s: string)
    requires s in ENUM_TIPOS
    ensures NormalizeTipoFront(Str(s)) == Some(s)
  {
    assert s in TIPO_ALIASES && TIPO_ALIASES[s] == s;
    if s == "alergias" {
      PlainLowerIsCanonical(s);
    } else if s == "medicamento" {
      PlainLowerIsCanonical(s);
    } else {
      PlainLowerIsCanonical(s);
    }
    TipoByOwnKey(s);
  }

  /** A text whose key is in the alias table normalises to what the table maps it to. */
  lemma TipoByOwnKey(s: string)
    requires CanonicalLower(s) in TIPO_ALIASES
    ensures NormalizeTipoFront(Str(s)) == Some(TIPO_ALIASES[CanonicalLower(s)])
  {
  }

  /** Normalising a normalised type changes nothing. */
  lemma NormalizeTipoFrontIdempotent(v: JsValue)
    requires NormalizeTipoFront(v).Some?
    ensures NormalizeTipoFront(Str(NormalizeTipoFront(v).value)) == NormalizeTipoFront(v)
  {
    EnumTiposAreFixedPoints(NormalizeTipoFront(v).value);
  }

  /** Accents are kept, so `'Saúde'` is not the alias `'saude'`. */
  lemma AccentedTipoExample(s: string)
    requires s == "Sa\U{FA}de"
    ensures NormalizeTipoFront(Str(s)) == None
  {
    assert TrimStart(s) == s;
    assert TrimEnd(s) == s;
    assert CanonicalLower(s)[2] == '\U{FA}';
  }

  /** `'saude'` is the alias of `'medicamento'`. */
  lemma PlainTipoExample(s: string)
    requires s == "saude"
    ensures NormalizeTipoFront(Str(s)) == Some("medicamento")
  {
    assert s in TIPO_ALIASES && TIPO_ALIASES[s] == "medicamento";
    PlainLowerIsCanonical(s);
    TipoByOwnKey(s);
  }

  /** `map['constructor']` is a function, which `includes` turns away. */
  lemma InheritedKeyExample(s: string)
    requires s == "constructor"
    ensures NormalizeTipoFront(Str(s)) == None
  {
    assert s !in TIPO_ALIASES;
    PlainLowerIsCanonical(s);
    TipoByAbsentKey(s);
  }

  /** Text whose key is not in the alias table is turned away. */
  lemma TipoByAbsentKey(s: string)
    requires CanonicalLower(s) !in TIPO_ALIASES
    ensures NormalizeTipoFront(Str(s)) == None
  {
  }

  /** `normalizeTipoFront(info.tipo_info) || 'outros'`: the type the edit modal selects. */
  function ModalTipo(v: JsValue): (r: string)
    ensures r in ENUM_TIPOS
    ensures NormalizeTipoFront(v).Some? ==> r == NormalizeTipoFront(v).value
    ensures NormalizeTipoFront(v).None? ==> r == "outros"
  {
    NormalizeTipoFront(v).GetOr("outros")
  }

  /** `normalizeTipoFront(info.tipo_info) || info.tipo_info || 'outros'`: the tag shown
      in the list, interpolated into the template. */
  function DisplayTag(v: JsValue): (r: string)
    ensures NormalizeTipoFront(v).Some? ==> r == NormalizeTipoFront(v).value
    ensures NormalizeTipoFront(v).None? && Truthy(v) ==> r == ToJsString(v)
    ensures !Truthy(v) ==> r == "outros"
    ensures r != ""
  {
    match NormalizeTipoFront(v)
    case Some(t) => t
    case None => if Truthy(v) then ToJsString(v) else "outros"
  }

  /** `s.replace(/c/g, repl)`. */
  function ReplaceAll(s: string, c: char, repl: string): string {
    if s == [] then [] else (if s[0] == c then repl else [s[0]]) + ReplaceAll(s[1..], c, repl)
  }

  /** `.replace(/</g, "&lt;").replace(/>/g, "&gt;")`. */
  function EscapeAngles(s: string): (r: string)
    ensures '<' !in r && '>' !in r
  {
    var once := ReplaceAll(s, '<', "&lt;");
    ReplaceAllRemoves(s, '<', "&lt;", '<');
    ReplaceAllRemoves(once, '>', "&gt;", '>');
    ReplaceAllRemoves(once, '>', "&gt;", '<');
    ReplaceAll(once, '>', "&gt;")
  }

  /** Replacing every `c` by a text without `c` leaves no `c`, and keeps every character
      that is absent from both `s` and the replacement out of the result. */
  lemma {:induction false} ReplaceAllRemoves(s: string, c: char, repl: string, x: char)
    requires c !in repl
    requires x == c || (x !in s && x !in repl)
    ensures x !in ReplaceAll(s, c, repl)
  {
    if s != [] {
      ReplaceAllRemoves(s[1..], c, repl, x);
      assert x !in (if s[0] == c then repl else [s[0]]);
    }
  }

  /** Text without `c` is left as it is. */
  lemma {:induction false} ReplaceAllAbsent(s: string, c: char, repl: string)
    requires c !in s
    ensures ReplaceAll(s, c, repl) == s
  {
    if s != [] {
      ReplaceAllAbsent(s[1..], c, repl);
      assert s == [s[0]] + s[1..];
    }
  }

  /** A description without angle brackets, `&` included, is shown as it is. */
  lemma EscapeWithoutAnglesIsIdentity(s: string)
    requires '<' !in s && '>' !in s
    ensures EscapeAngles(s) == s
  {
    ReplaceAllAbsent(s, '<', "&lt;");
    ReplaceAllAbsent(s, '>', "&gt;");
  }

  /** `&` is not escaped, so the escaping cannot be undone: `<` and the text `&lt;`
      are shown alike. */
  lemma EscapeIsNotInjective(a: string, b: string)
    requires a == "<" && b == "&lt;"
    ensures EscapeAngles(a) == EscapeAngles(b) && a != b
  {
    EscapeWithoutAnglesIsIdentity(b);
    assert ReplaceAll(a, '<', "&lt;") == "&lt;";
  }

  /** `info.descricao ? String(info.descricao).replace(...).replace(...) : ''`. */
  function RenderDescricao(v: JsValue): (r: string)
    ensures '<' !in r && '>' !in r
    ensures !Truthy(v) ==> r == ""
    ensures Truthy(v) ==> r == EscapeAngles(ToJsString(v))
  {
    if !Truthy(v) then "" else EscapeAngles(ToJsString(v))
  }

  /** An information record as `GET /api/info/crianca/:id` lists it. */
  datatype InfoDto = InfoDto(idInfo_crianca: JsValue, tipo_info: JsValue, descricao: JsValue)

  /** The body of the create and update requests. */
  datatype InfoPayload = InfoPayload(tipo_info: string, descricao: string, id_crianca: JsValue)

  /** How the server answered a save: success, an error status with the `message` and
      `error` fields of its JSON body (`""` when absent), or no answer at all. */
  datatype SaveReply = Saved | Refused(message: string, error: string) | Unreachable

  /** What pressing "save" led to. `Busy`: a save was already under way and nothing
      happened. `Invalid`: an alert and no request. `Sent`: one request, the alert shown
      after the answer, and whether the modal was closed and the list reloaded. */
  datatype SaveInfoOutcome =
    | Busy
    | Invalid(alert: string)
    | Sent(verb: Http.Method, url: string, payload: InfoPayload, alert: string, reloaded: bool)

  const ALERT_BAD_TIPO: string := "Selecione um tipo válido."
  const ALERT_NO_DESCRICAO: string := "Descrição é obrigatória."
  const ALERT_NO_CHILD: string := "Nenhuma criança selecionada."
  const ALERT_SAVE_FAILED: string := "Erro ao salvar informação."
  const ALERT_UNREACHABLE: string := "Erro ao conectar com o servidor."
  const ALERT_UPDATED: string := "Informação atualizada!"
  const ALERT_ADDED: string := "Informação adicionada!"
  const ALERT_GONE: string := "Essa informação não existe mais (talvez foi excluída)."
  const ALERT_LOAD_FAILED: string := "Erro ao carregar informação."

  /** `data?.message || data?.error || 'Erro ao salvar informação.'`. */
  function RefusalAlert(message: string, error: string): (r: string)
    ensures r != ""
    ensures message != "" ==> r == message
    ensures message == "" && error != "" ==> r == error
    ensures message == "" && error == "" ==> r == ALERT_SAVE_FAILED
  {
    if message != "" then message else if error != "" then error else ALERT_SAVE_FAILED
  }

  /** `infos.find(i => String(i.idInfo_crianca) === String(idInfo))`. */
  function FindInfo(infos: seq<InfoDto>, idInfo: JsValue): (r: Option<InfoDto>)
    ensures r.Some? <==> exists i :: 0 <= i < |infos| && ToJsString(infos[i].idInfo_crianca) == ToJsString(idInfo)
    ensures r.Some? ==>
      exists i :: 0 <= i < |infos| && infos[i] == r.value
        && ToJsString(infos[i].idInfo_crianca) == ToJsString(idInfo)
        && forall j :: 0 <= j < i ==> ToJsString(infos[j].idInfo_crianca) != ToJsString(idInfo)
  {
    if infos == [] then None
    else if ToJsString(infos[0].idInfo_crianca) == ToJsString(idInfo) then Some(infos[0])
    else
      var r := FindInfo(infos[1..], idInfo);
      assert forall i :: 1 <= i < |infos| ==> infos[i] == infos[1..][i - 1];
      r
  }

  /** The information section of the page: the module-level `savingInfo` flag, the save
      button (`hasButton` is false when the page has none), the three inputs of the
      modal, and whether the modal is shown. */
  class InfoPage {
    var savingInfo: bool
    var buttonDisabled: bool
    const hasButton: bool
    var infoId: string
    var tipoSelect: string
    var descricaoInput: string
    var modalShown: bool

    constructor (hasButton: bool)
      ensures this.hasButton == hasButton
      ensures !savingInfo && !buttonDisabled && !modalShown
      ensures infoId == descricaoInput == "" && tipoSelect == "alergias"
    {
      this.hasButton := hasButton;
      savingInfo, buttonDisabled, modalShown := false, false, false;
      infoId, tipoSelect, descricaoInput := "", "alergias", "";
    }

    /** `openInfoModal(idInfo)`: clears the inputs and selects `'alergias'`; with an id,
        `listed` is the child's list (`None` when fetching it failed) and the record with
        that id fills the inputs, its type falling back to `'outros'`. Returns whether the
        modal opens. */
    method OpenInfoModal(idInfo: JsValue, listed: Option<seq<InfoDto>>) returns (alert: Option<string>)
      modifies this
      ensures savingInfo == old(savingInfo) && buttonDisabled == old(buttonDisabled)
      ensures var editing := !IsNullish(idInfo) && idInfo != Str("");
        && (!editing ==>
              alert.None? && modalShown && infoId == descricaoInput == "" && tipoSelect == "alergias")
        && (editing && listed.None? ==>
              alert == Some(ALERT_LOAD_FAILED) && modalShown == old(modalShown)
              && infoId == descricaoInput == "" && tipoSelect == "alergias")
        && (editing && listed.Some? && FindInfo(listed.value, idInfo).None? ==>
              alert == Some(ALERT_GONE) && modalShown == old(modalShown)
              && infoId == descricaoInput == "" && tipoSelect == "alergias")
        && (editing && listed.Some? && FindInfo(listed.value, idInfo).Some? ==>
              var info := FindInfo(listed.value, idInfo).value;
              alert.None? && modalShown
              && infoId == InputText(Coalesce(info.idInfo_crianca, Str("")))
              && tipoSelect == ModalTipo(info.tipo_info)
              && descricaoInput == (if Truthy(info.descricao) then ToJsString(info.descricao) else ""))
      ensures tipoSelect in ENUM_TIPOS
    {
      infoId, tipoSelect, descricaoInput := "", "alergias", "";
      if !IsNullish(idInfo) && idInfo != Str("") {
        if listed.None? {
          return Some(ALERT_LOAD_FAILED);
        }
        var found := FindInfo(listed.value, idInfo);
        if found.None? {
          return Some(ALERT_GONE);
        }
        var info := found.value;
        infoId := InputText(Coalesce(info.idInfo_crianca, Str("")));
        tipoSelect := ModalTipo(info.tipo_info);
        descricaoInput := if Truthy(info.descricao) then ToJsString(info.descricao) else "";
      }
      modalShown := true;
      alert := None;
    }

    /** `salvarInfo()` with the selected child `idCrianca` and the server's answer
        `reply`. A call made while a save is under way does nothing. Otherwise the type,
        then the trimmed description, then the child are checked before any request;
        PUT goes to `/api/info/<encoded id>` when the modal holds an id and POST to
        `/api/info` otherwise; and every path ends with the flag cleared and the button
        enabled again. */
    method SalvarInfo(idCrianca: JsValue, reply: SaveReply) returns (out: SaveInfoOutcome)
      modifies this
      ensures old(savingInfo) ==>
        out == Busy && savingInfo && buttonDisabled == old(buttonDisabled) && modalShown == old(modalShown)
      ensures !old(savingInfo) ==>
        !savingInfo && (hasButton ==> !buttonDisabled) && (!hasButton ==> buttonDisabled == old(buttonDisabled))
      ensures infoId == old(infoId) && tipoSelect == old(tipoSelect)
        && descricaoInput == old(descricaoInput)
      ensures !old(savingInfo) ==>
        && (out == Invalid(ALERT_BAD_TIPO) <==> NormalizeTipoFront(Str(tipoSelect)).None?)
        && (out == Invalid(ALERT_NO_DESCRICAO) <==>
              NormalizeTipoFront(Str(tipoSelect)).Some? && Trim(descricaoInput) == "")
        && (out == Invalid(ALERT_NO_CHILD) <==>
              NormalizeTipoFront(Str(tipoSelect)).Some? && Trim(descricaoInput) != ""
              && !Truthy(idCrianca))
        && (out.Invalid? || out.Sent?)
        && (out.Invalid? ==> out.alert in {ALERT_BAD_TIPO, ALERT_NO_DESCRICAO, ALERT_NO_CHILD})
        && (out.Sent? <==>
              NormalizeTipoFront(Str(tipoSelect)).Some? && Trim(descricaoInput) != "" && Truthy(idCrianca))
      ensures out.Sent? ==>
        && out.payload == InfoPayload(NormalizeTipoFront(Str(tipoSelect)).value, Trim(descricaoInput), idCrianca)
        && out.payload.tipo_info in ENUM_TIPOS && out.payload.descricao != "" && Truthy(idCrianca)
        && (out.verb == Http.PUT <==> infoId != "")
        && (out.verb == Http.PUT || out.verb == Http.POST)
        && out.url == (if infoId != "" then INFO_BASE + "/" + Uri.EncodeUriComponent(infoId) else INFO_BASE)
        && (out.reloaded <==> reply.Saved?)
        && modalShown == (if reply.Saved? then false else old(modalShown))
        && out.alert == match reply
             case Saved => if infoId != "" then ALERT_UPDATED else ALERT_ADDED
             case Refused(m, e) => RefusalAlert(m, e)
             case Unreachable => ALERT_UNREACHABLE
      ensures out.Invalid? ==> modalShown == old(modalShown)
    {
      if savingInfo {
        return Busy;
      }
      savingInfo := true;
      if hasButton {
        buttonDisabled := true;
      }
      var tipo := NormalizeTipoFront(Str(tipoSelect));
      var descricao := Trim(descricaoInput);
      if tipo.None? {
        out := Invalid(ALERT_BAD_TIPO);
      } else if descricao == "" {
        out := Invalid(ALERT_NO_DESCRICAO);
      } else if !Truthy(idCrianca) {
        out := Invalid(ALERT_NO_CHILD);
      } else {
        var payload := InfoPayload(tipo.value, descricao, idCrianca);
        var verb := if infoId != "" then Http.PUT else Http.POST;
        var url := if infoId != "" then INFO_BASE + "/" + Uri.EncodeUriComponent(infoId) else INFO_BASE;
        match reply
        case Saved =>
          modalShown := false;
          out := Sent(verb, url, payload, if infoId != "" then ALERT_UPDATED else ALERT_ADDED, true);
        case Refused(m, e) =>
          out := Sent(verb, url, payload, RefusalAlert(m, e), false);
        case Unreachable =>
          out := Sent(verb, url, payload, ALERT_UNREACHABLE, false);
      }
      savingInfo := false;
      if hasButton {
        buttonDisabled := false;
      }
    }
  }

  /** One rendered `<li>`: the tag in brackets and the escaped description. */
  datatype InfoItem = InfoItem(tag: string, descricao: string)

  /** What `carregarInfos` shows: the "no information" line, the list, or an alert. */
  datatype InfoView = NoData | Items(items: seq<InfoItem>) | LoadFailed

  /** One record of the list: the tag and the escaped description, which holds no
      angle bracket. */
  function RenderInfo(info: InfoDto): (item: InfoItem)
    ensures item.tag == DisplayTag(info.tipo_info) != ""
    ensures Truthy(info.descricao) ==> item.descricao == EscapeAngles(ToJsString(info.descricao))
    ensures !Truthy(info.descricao) ==> item.descricao == ""
  {
    InfoItem(DisplayTag(info.tipo_info), RenderDescricao(info.descricao))
  }

  /** `carregarInfos()`: a 404 or an empty list shows the "no information" line, another
      failure an alert; otherwise each record is appended in order. */
  method CarregarInfos(reply: Http.ListReply<InfoDto>) returns (view: InfoView)
    ensures reply.NotFound? || (reply.Listed? && reply.rows == []) <==> view == NoData
    ensures reply.ErrorStatus? || reply.Network? <==> view == LoadFailed
    ensures reply.Listed? && reply.rows != [] ==>
      view.Items? && |view.items| == |reply.rows|
      && forall i :: 0 <= i < |view.items| ==> view.items[i] == RenderInfo(reply.rows[i])
  {
    match reply
    case NotFound =>
      return NoData;
    case ErrorStatus =>
      return LoadFailed;
    case Network =>
      return LoadFailed;
    case Listed(rows) =>
      if |rows| == 0 {
        return NoData;
      }
      var items: seq<InfoItem> := [];
      var i := 0;
      while i < |rows|
        invariant 0 <= i <= |rows|
        invariant |items| == i
        invariant forall j :: 0 <= j < i ==> items[j] == RenderInfo(rows[j])
      {
        items := items + [RenderInfo(rows[i])];
        i := i + 1;
      }
      view := Items(items);
  }

  /** No rendered description holds `<` or `>`, and every tag is non-empty. */
  lemma RenderedInfosAreSafe(rows: seq<InfoDto>, items: seq<InfoItem>)
    requires |items| == |rows|
    requires forall i :: 0 <= i < |items| ==> items[i] == RenderInfo(rows[i])
    ensures forall i :: 0 <= i < |items| ==>
      '<' !in items[i].descricao && '>' !in items[i].descricao && items[i].tag != ""
  {
    forall i | 0 <= i < |items|
      ensures '<' !in items[i].descricao && '>' !in items[i].descricao && items[i].tag != ""
    {
      assert items[i] == RenderInfo(rows[i]);
    }
  }
}
