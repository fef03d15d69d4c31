/** controllers/agendaController.js: the server-side status normaliser and the records
    `create` and `update` hand to the ORM. `normStatus` is a map lookup; the two
    handlers reassign `titulo` and build their record step by step, so they are methods. */
module AgendaController {
  import opened JsValues
  import opened Text
  import opened AgendaModel
  import opened Orm

  /** The accented key `CONCLUÍDO` (U+00CD is the capital I with acute accent). */
  const CONCLUIDO_ACCENTED: string := "CONCLU\U{CD}DO"

  /** `MAP_STATUS`: alias key to stored status. */
  const MAP_STATUS: map<string, string> := map[
    "PENDENTE" := PENDENTE, "CONCLUIDO" := CONCLUIDO,
    CONCLUIDO_ACCENTED := CONCLUIDO, "CONCLUIDA" := CONCLUIDO, "FEITO" := CONCLUIDO,
    "DONE" := CONCLUIDO,
    "PEND" := PENDENTE, "TODO" := PENDENTE, "ABERTO" := PENDENTE, "ABERTA" := PENDENTE]

  /** Every key Object.prototype lends an object literal has a lower-case ASCII letter
      in its first or third place. */
  lemma PrototypeKeysHaveLowerCase(k: string)
    requires k in OBJECT_PROTOTYPE_KEYS
    ensures |k| > 2 && (IsAsciiLower(k[0]) || IsAsciiLower(k[2]))
  {
  }

  /** An upper-cased string is never one of those keys, so `MAP_STATUS[s]` on an
      upper-cased `s` reads an own entry or nothing. */
  lemma UpperIsNeverPrototypeKey(s: string)
    ensures Upper(s) !in OBJECT_PROTOTYPE_KEYS
  {
    UpperHasNoAsciiLower(s);
    if Upper(s) in OBJECT_PROTOTYPE_KEYS {
      PrototypeKeysHaveLowerCase(Upper(s));
      assert false;
    }
  }

  /** `normStatus(v)`: falsy input gives null; otherwise the accent-free, trimmed,
      upper-cased key is looked up in `MAP_STATUS`, and an enum value missing from the
      map would be returned as it is. */
  function NormStatus(v: JsValue): (r: Option<string>)
    ensures r.None? || IsStatusEnum(r.value)
    ensures !Truthy(v) ==> r.None?
    ensures Truthy(v) ==> (r.Some? <==> CanonicalUpper(ToJsString(v)) in MAP_STATUS)
  {
    if !Truthy(v) then None
    else
      var s := CanonicalUpper(ToJsString(v));
      UpperIsNeverPrototypeKey(Trim(StripAccents(ToJsString(v))));
      match Get(MAP_STATUS, s)
      case Own(mapped) => Some(mapped)
      case Missing => if IsStatusEnum(s) then Some(s) else None
  }

  /** The status a key stands for on the server, independently of the lookup. */
  function ServerStatusForKey(k: string): Option<string> {
    if k in {CONCLUIDO, "CONCLUIDA", "FEITO", "DONE"} then Some(CONCLUIDO)
    else if k in {PENDENTE, "PEND", "TODO", "ABERTO", "ABERTA"} then Some(PENDENTE)
    else None
  }

  /** A truthy input gives what its key stands for. */
  lemma NormStatusByKey(v: JsValue)
    requires Truthy(v)
    ensures NormStatus(v) == ServerStatusForKey(CanonicalUpper(ToJsString(v)))
  {
    AccentedKeyUnreachable(v);
  }

  /** No character's accent-free upper-case form contains `Í`. */
  lemma CharKeyHasNoCapitalIAcute(c: char)
    ensures '\U{CD}' !in CharKey(c)
  {
    var f := FoldAccent(c);
    if f != [] {
      assert f[1..] == [];
      assert Upper(f) == UpperChar(f[0]) + Upper([]);
    }
  }

  /** The `CONCLUÍDO` entry of `MAP_STATUS` is never read: accents are stripped before
      the lookup, so no key contains `Í`. */
  lemma AccentedKeyUnreachable(v: JsValue)
    ensures CanonicalUpper(ToJsString(v)) != CONCLUIDO_ACCENTED
  {
    var s := ToJsString(v);
    var flat := FlatMap(CharKey, s);
    forall i | 0 <= i < |s|
      ensures '\U{CD}' !in CharKey(s[i])
    {
      CharKeyHasNoCapitalIAcute(s[i]);
    }
    FlatMapAvoids(CharKey, s, '\U{CD}');
    TrimKeepsCharacters(flat);
    CanonicalUpperByChars(s);
    assert CONCLUIDO_ACCENTED[6] == '\U{CD}';
  }

  /** The fields `create` and `update` destructure from `req.body`. */
  datatype AgendaBody = AgendaBody(
    horario: JsValue, titulo: JsValue, titulo_tarefa: JsValue, descricao: JsValue,
    status_tarefa: JsValue, id_crianca: JsValue)

  /** The part of `create` before the ORM call: `titulo` falls back to `titulo_tarefa`,
      and the status is normalised with `PENDENTE` as the safe default. */
  method Create(body: AgendaBody) returns (ins: AgendaModel.AgendaInsert)
    ensures ins.horario == body.horario && ins.descricao == body.descricao
    ensures ins.id_crianca == body.id_crianca
    ensures Truthy(body.titulo) ==> ins.titulo == body.titulo
    ensures !Truthy(body.titulo) && Truthy(body.titulo_tarefa) ==> ins.titulo == body.titulo_tarefa
    ensures !Truthy(body.titulo) && !Truthy(body.titulo_tarefa) ==> ins.titulo == body.titulo
    ensures ins.status_tarefa.Str? && IsStatusEnum(ins.status_tarefa.s)
    ensures NormStatus(body.status_tarefa).None? ==> ins.status_tarefa == Str(PENDENTE)
    ensures NormStatus(body.status_tarefa).Some? ==>
      ins.status_tarefa == Str(NormStatus(body.status_tarefa).value)
  {
    var titulo := body.titulo;
    if !Truthy(titulo) && Truthy(body.titulo_tarefa) {
      titulo := body.titulo_tarefa;
    }
    var status := NormStatus(body.status_tarefa).GetOr(PENDENTE);
    ins := AgendaModel.AgendaInsert(body.horario, titulo, body.descricao, Str(status), body.id_crianca);
  }

  /** Whatever status a request carries, the one `create` passes on satisfies the
      column's ENUM and `isIn`; a missing or unrecognised status is stored as `PENDENTE`. */
  lemma CreateStatusIsStorable(body: AgendaBody, ins: AgendaModel.AgendaInsert)
    requires ins.status_tarefa.Str? && IsStatusEnum(ins.status_tarefa.s)
    requires NormStatus(body.status_tarefa).None? ==> ins.status_tarefa == Str(PENDENTE)
    ensures AgendaModel.StatusAccepted(AgendaModel.StatusWithDefault(ins.status_tarefa))
    ensures IsNullish(body.status_tarefa) ==> ins.status_tarefa == Str(AgendaModel.STATUS_DEFAULT)
  {
    AgendaModel.StatusDomain(ins.status_tarefa.s);
  }

  /** The part of `update` before the ORM call: `horario`, `titulo` (after the same
      fallback) and `descricao` always, `status_tarefa` only when the request carries a
      truthy status that normalises. */
  method Update(body: AgendaBody) returns (data: Record)
    ensures data.Keys == {"horario", "titulo", "descricao"}
      + (if Truthy(body.status_tarefa) && NormStatus(body.status_tarefa).Some? then {"status_tarefa"} else {})
    ensures "horario" in data && data["horario"] == body.horario
    ensures "descricao" in data && data["descricao"] == body.descricao
    ensures "titulo" in data
    ensures Truthy(body.titulo) ==> data["titulo"] == body.titulo
    ensures !Truthy(body.titulo) && Truthy(body.titulo_tarefa) ==> data["titulo"] == body.titulo_tarefa
    ensures !Truthy(body.titulo) && !Truthy(body.titulo_tarefa) ==> data["titulo"] == body.titulo
    ensures "status_tarefa" in data ==>
      data["status_tarefa"] == Str(NormStatus(body.status_tarefa).value)
      && IsStatusEnum(data["status_tarefa"].s)
  {
    var titulo := body.titulo;
    if !Truthy(titulo) && Truthy(body.titulo_tarefa) {
      titulo := body.titulo_tarefa;
    }
    var status := if Truthy(body.status_tarefa) then NormStatus(body.status_tarefa) else None;
    data := map["horario" := body.horario, "titulo" := titulo, "descricao" := body.descricao];
    if status.Some? {
      data := data["status_tarefa" := Str(status.value)];
    }
  }

  /** An update whose status is missing or unrecognised leaves the stored status as it
      was; a recognised one replaces it. Nothing but the four editable columns changes. */
  lemma UpdateKeepsStatusUnlessRecognised(stored: Record, body: AgendaBody, data: Record)
    requires data.Keys == {"horario", "titulo", "descricao"}
      + (if Truthy(body.status_tarefa) && NormStatus(body.status_tarefa).Some? then {"status_tarefa"} else {})
    requires "status_tarefa" in data ==> data["status_tarefa"] == Str(NormStatus(body.status_tarefa).value)
    requires "status_tarefa" in stored
    ensures "status_tarefa" in ApplyUpdate(stored, data)
    ensures NormStatus(body.status_tarefa).None? ==>
      ApplyUpdate(stored, data)["status_tarefa"] == stored["status_tarefa"]
    ensures NormStatus(body.status_tarefa).Some? ==>
      ApplyUpdate(stored, data)["status_tarefa"] == Str(NormStatus(body.status_tarefa).value)
    ensures forall k :: k in stored && k !in {"horario", "titulo", "descricao", "status_tarefa"} ==>
      k in ApplyUpdate(stored, data) && ApplyUpdate(stored, data)[k] == stored[k]
  {
  }
}
