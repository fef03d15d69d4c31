/** controllers/infoCriancaController.js: the server-side type normaliser, the 400 rule
    of `create` and the record `update` builds from an empty object. */
module InfoController {
  import opened JsValues
  import opened Text
  import opened Orm
  import Http
  import InfoCriancaModel

  /** `MAP_TIPO`: alias key to stored type. */
  const MAP_TIPO: map<string, string> := map[
    "alergia" := "alergias", "alergias" := "alergias",
    "saude" := "medicamento", "medicamento" := "medicamento", "remedio" := "medicamento",
    "outros" := "outros"]

  /** The three values `MAP_TIPO` maps onto. */
  predicate IsServerTipo(s: string) {
    s == "alergias" || s == "medicamento" || s == "outros"
  }

  /** `normTipo(v)` as written: `MAP_TIPO[key] || null`, where `Missing` stands for
      null and a key Object.prototype lends the map yields the inherited member. */
  function NormTipoAsWritten(v: JsValue): (r: Prop)
    ensures !Truthy(v) ==> r.Missing?
    ensures r.Own? ==> IsServerTipo(r.value)
    ensures r.Inherited? <==>
      Truthy(v) && CanonicalLower(ToJsString(v)) !in MAP_TIPO
      && CanonicalLower(ToJsString(v)) in OBJECT_PROTOTYPE_KEYS
  {
    if !Truthy(v) then Missing
    else
      var looked := Get(MAP_TIPO, CanonicalLower(ToJsString(v)));
      if PropTruthy(looked) then looked else Missing
  }

  /** `'constructor'` gets past the `!tipo` check: what `normTipo` returns for it is
      the inherited `Object` function, which `create` would then hand to the ORM as the
      type. */
  lemma InheritedKeySlipsThrough(s: string)
    requires s == "constructor"
    ensures NormTipoAsWritten(Str(s)) == Inherited("constructor")
    ensures NormTipo(Str(s)) == None
  {
    assert s in OBJECT_PROTOTYPE_KEYS && s !in MAP_TIPO;
    PlainLowerIsCanonical(s);
    InheritedKeyAsWritten(s);
  }

  /** Text whose key is lent by Object.prototype and missing from the map yields the
      inherited member. */
  lemma InheritedKeyAsWritten(s: string)
    requires CanonicalLower(s) in OBJECT_PROTOTYPE_KEYS && CanonicalLower(s) !in MAP_TIPO
    ensures NormTipoAsWritten(Str(s)) == Inherited(CanonicalLower(s))
    ensures NormTipo(Str(s)) == None
  {
  }

  /** `normTipo(v)` as evidently intended: only the own keys of `MAP_TIPO` are types. */
  function NormTipo(v: JsValue): (r: Option<string>)
    ensures !Truthy(v) ==> r.None?
    ensures r.None? || IsServerTipo(r.value)
    ensures Truthy(v) ==> (r.Some? <==> CanonicalLower(ToJsString(v)) in MAP_TIPO)
    ensures r.Some? ==> r.value == MAP_TIPO[CanonicalLower(ToJsString(v))]
  {
    if !Truthy(v) then None
    else
      var key := CanonicalLower(ToJsString(v));
      if key in MAP_TIPO then Some(MAP_TIPO[key]) else None
  }

  /** The two differ exactly on the keys Object.prototype lends: elsewhere an own entry
      is the same type and null is no type. */
  lemma NormTipoAsWrittenAgreesOnOwnKeys(v: JsValue)
    ensures NormTipoAsWritten(v).Own? <==> NormTipo(v).Some?
    ensures NormTipoAsWritten(v).Own? ==> NormTipoAsWritten(v).value == NormTipo(v).value
    ensures NormTipoAsWritten(v).Missing? ==> NormTipo(v).None?
  {
  }

  /** No type `normTipo` produces is one the InfoCrianca model accepts: the model's
      list is upper-case, the map's values are lower-case. */
  lemma NormTipoOutsideModel(v: JsValue)
    ensures NormTipo(v).Some? ==> !InfoCriancaModel.IsInfoTipo(NormTipo(v).value)
    ensures NormTipoAsWritten(v).Own? ==> !InfoCriancaModel.IsInfoTipo(NormTipoAsWritten(v).value)
  {
    if NormTipo(v).Some? {
      InfoCriancaModel.TipoDomain(NormTipo(v).value);
    }
    if NormTipoAsWritten(v).Own? {
      InfoCriancaModel.TipoDomain(NormTipoAsWritten(v).value);
    }
  }

  /** The fields `create` and `update` destructure from `req.body`. */
  datatype InfoBody = InfoBody(tipo_info: JsValue, descricao: JsValue, id_crianca: JsValue)

  const INVALID_TIPO: string := "tipo_info inválido"

  /** The part of `create` before the ORM call: an unrecognised type is answered with
      400 and a message carrying the raw input; otherwise the normalised type goes into
      the insert together with the description and the child, the date left to its
      default. */
  function CreateInfo(body: InfoBody): (r: Http.Result<InfoCriancaModel.InfoInsert>)
    ensures r.Fail? <==> NormTipo(body.tipo_info).None?
    ensures r.Fail? ==> r.reply == Http.ErrorReply(400, INVALID_TIPO + ": " + ToJsString(body.tipo_info))
    ensures r.Ok? ==>
      && r.value.tipo_info == Str(NormTipo(body.tipo_info).value)
      && r.value.descricao == body.descricao && r.value.id_crianca == body.id_crianca
      && r.value.data_registro.None?
  {
    match NormTipo(body.tipo_info)
    case None => Http.Fail(Http.ErrorReply(400, INVALID_TIPO + ": " + ToJsString(body.tipo_info)))
    case Some(tipo) => Http.Ok(InfoCriancaModel.InfoInsert(Str(tipo), body.descricao, None, body.id_crianca))
  }

  /** Every insert `create` lets through is one the InfoCrianca model rejects, so no
      information record can be created through this handler. */
  lemma CreateNeverStores(body: InfoBody, now: int)
    ensures CreateInfo(body).Ok? ==> InfoCriancaModel.Insert(CreateInfo(body).value, now).None?
  {
    NormTipoOutsideModel(body.tipo_info);
  }

  /** The part of `update` before the ORM call: the record starts empty; a truthy type
      must normalise, or the answer is 400, and goes in normalised; the description goes
      in when it is neither null nor undefined. */
  method UpdateInfo(body: InfoBody) returns (r: Http.Result<Record>)
    ensures r.Fail? <==> Truthy(body.tipo_info) && NormTipo(body.tipo_info).None?
    ensures r.Fail? ==> r.reply == Http.ErrorReply(400, INVALID_TIPO)
    ensures r.Ok? ==>
      && r.value.Keys == (if Truthy(body.tipo_info) then {"tipo_info"} else {})
                         + (if IsNullish(body.descricao) then {} else {"descricao"})
      && ("tipo_info" in r.value ==> r.value["tipo_info"] == Str(NormTipo(body.tipo_info).value))
      && ("descricao" in r.value ==> r.value["descricao"] == body.descricao)
  {
    var data: Record := map[];
    if Truthy(body.tipo_info) {
      var tipo := NormTipo(body.tipo_info);
      if tipo.None? {
        return Http.Fail(Http.ErrorReply(400, INVALID_TIPO));
      }
      data := data["tipo_info" := Str(tipo.value)];
    }
    if !IsNullish(body.descricao) {
      data := data["descricao" := body.descricao];
    }
    r := Http.Ok(data);
  }

  /** An accepted update changes at most the type and the description: with no type in
      the request the stored type is kept, with no description the stored one is. */
  lemma UpdateTouchesOnlyGivenFields(stored: Record, body: InfoBody, data: Record)
    requires data.Keys == (if Truthy(body.tipo_info) then {"tipo_info"} else {})
                          + (if IsNullish(body.descricao) then {} else {"descricao"})
    requires "tipo_info" in data ==>
      NormTipo(body.tipo_info).Some? && data["tipo_info"] == Str(NormTipo(body.tipo_info).value)
    ensures forall k :: k in stored && k != "tipo_info" && k != "descricao" ==>
      k in ApplyUpdate(stored, data) && ApplyUpdate(stored, data)[k] == stored[k]
    ensures "tipo_info" in stored && !Truthy(body.tipo_info) ==>
      ApplyUpdate(stored, data)["tipo_info"] == stored["tipo_info"]
    ensures "descricao" in stored && IsNullish(body.descricao) ==>
      ApplyUpdate(stored, data)["descricao"] == stored["descricao"]
    ensures Truthy(body.tipo_info) ==>
      NormTipo(body.tipo_info).Some?
      && ApplyUpdate(stored, data)["tipo_info"] == Str(NormTipo(body.tipo_info).value)
  {
  }
}
