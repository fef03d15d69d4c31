/** How the browser scripts and the controllers fit together: the status a page sends is
    one the agenda controller keeps, the two type normalisers are the same function, and
    what the info page makes of a type the table itself stores. */
module ClientServer {
  import opened JsValues
  import opened Text
  import AgendaClient
  import AgendaController
  import AgendaModel
  import InfoClient
  import InfoController
  import InfoCriancaModel

  // ---------------------------------------------------------------- Task status

  /** Every alias the controller knows, the script knows too, for the same status. */
  lemma ServerAliasesAreClientAliases(k: string)
    requires AgendaController.ServerStatusForKey(k).Some?
    ensures AgendaClient.StatusForKey(k) == AgendaController.ServerStatusForKey(k)
  {
  }

  /** Whenever the controller recognises a status, the script reads it the same way. */
  lemma ServerStatusAgreesWithClient(v: JsValue)
    requires AgendaController.NormStatus(v).Some?
    ensures AgendaClient.NormalizeStatus(v) == AgendaController.NormStatus(v)
  {
    var k := CanonicalUpper(ToJsString(v));
    AgendaController.NormStatusByKey(v);
    AgendaClient.NormalizeStatusByKey(v);
    ServerAliasesAreClientAliases(k);
  }

  /** The converse fails: `'FINALIZADO'` is done for the script and unknown to the
      controller, which would store it as pending on create and ignore it on update. */
  lemma ClientOnlyAlias(s: string)
    requires s == "FINALIZADO"
    ensures AgendaClient.NormalizeStatus(Str(s)) == Some(AgendaModel.CONCLUIDO)
    ensures AgendaController.NormStatus(Str(s)) == None
  {
    assert s in AgendaClient.CONCLUIDO_ALIASES;
    assert AgendaController.ServerStatusForKey(s) == None;
    AgendaClient.PlainUpperIsCanonical(s);
    AgendaClient.NormalizeStatusByKey(Str(s));
    AgendaController.NormStatusByKey(Str(s));
  }

  /** An enum value is its own key, and the controller maps it onto itself. */
  lemma ServerKeepsEnumValue(s: string)
    requires AgendaModel.IsStatusEnum(s)
    ensures AgendaController.NormStatus(Str(s)) == Some(s)
  {
    assert AgendaController.ServerStatusForKey(s) == Some(s);
    AgendaClient.PlainUpperIsCanonical(s);
    AgendaController.NormStatusByKey(Str(s));
  }

  /** The status the script sends survives the controller's normaliser unchanged. */
  lemma ClientStatusSurvivesServer(v: JsValue)
    requires AgendaClient.NormalizeStatus(v).Some?
    ensures AgendaController.NormStatus(Str(AgendaClient.NormalizeStatus(v).value)) == AgendaClient.NormalizeStatus(v)
  {
    ServerKeepsEnumValue(AgendaClient.NormalizeStatus(v).value);
  }

  /** The status a saved activity carries (`normalizeStatus(v) || 'PENDENTE'`) is stored
      as it is by `create` and written as it is by `update`, and the table accepts it. */
  lemma SentStatusIsStored(v: JsValue)
    ensures AgendaController.NormStatus(Str(AgendaClient.StatusOrPendente(v))) == Some(AgendaClient.StatusOrPendente(v))
    ensures AgendaModel.IsAgendaStatus(AgendaClient.StatusOrPendente(v))
  {
    var s := AgendaClient.StatusOrPendente(v);
    ServerKeepsEnumValue(s);
    AgendaModel.StatusDomain(s);
  }

  // ---------------------------------------------------------------- Info type

  /** The script's alias table and the controller's are the same table. */
  lemma TipoTablesAgree()
    ensures InfoController.MAP_TIPO == InfoClient.TIPO_ALIASES
  {
  }

  /** Apart from the inherited keys the script filters out, both sides normalise a type
      alike: the corrected `normTipo` is `normalizeTipoFront`. */
  lemma TipoNormalisersAgree(v: JsValue)
    ensures InfoController.NormTipo(v) == InfoClient.NormalizeTipoFront(v)
  {
    TipoTablesAgree();
  }

  /** An upper-case ASCII word's info-type key is its lower-case form. */
  lemma {:induction false} UpperWordKey(s: string, lower: string)
    requires |s| == |lower| && s != []
    requires forall i :: 0 <= i < |s| ==> IsAsciiUpper(s[i]) && lower[i] == (s[i] as int + 32) as char
    ensures CanonicalLower(s) == lower
  {
    assert TrimStart(s) == s;
    assert TrimEnd(s) == s;
  }

  /** `'ALERGIA'`, a type the table stores, is shown and edited as `alergias`. */
  lemma StoredAlergiaShown(s: string)
    requires s == "ALERGIA"
    ensures InfoCriancaModel.IsInfoTipo(s)
    ensures InfoClient.DisplayTag(Str(s)) == "alergias"
    ensures InfoClient.ModalTipo(Str(s)) == "alergias"
  {
    assert s in InfoCriancaModel.TIPO_ENUM && s in InfoCriancaModel.TIPO_IS_IN;
    var key := "alergia";
    assert key in InfoClient.TIPO_ALIASES && InfoClient.TIPO_ALIASES[key] == "alergias";
    UpperWordKey(s, key);
    InfoClient.TipoByOwnKey(s);
  }

  /** `'ESCOLA'`, a type the table stores, has no alias: the list shows it raw and the
      edit modal preselects `outros`, so saving the edit sends `outros`, which the
      controller keeps and the table refuses; the stored type stays `ESCOLA`. */
  lemma StoredEscolaShown(s: string)
    requires s == "ESCOLA"
    ensures InfoCriancaModel.IsInfoTipo(s)
    ensures InfoClient.DisplayTag(Str(s)) == "ESCOLA"
    ensures InfoClient.ModalTipo(Str(s)) == "outros"
  {
    assert s in InfoCriancaModel.TIPO_ENUM && s in InfoCriancaModel.TIPO_IS_IN;
    var key := "escola";
    assert key !in InfoClient.TIPO_ALIASES;
    UpperWordKey(s, key);
    InfoClient.TipoByAbsentKey(s);
  }
}
