/** models/InfoCrianca.js: the columns of the `info_crianca` table and the values
    Sequelize lets into them, modelled as constants and predicates over an insert. */
module InfoCriancaModel {
  import opened JsValues

  /** `DataTypes.ENUM('ALERGIA', 'SAUDE', 'ESCOLA', 'OUTROS')`. */
  const TIPO_ENUM: seq<string> := ["ALERGIA", "SAUDE", "ESCOLA", "OUTROS"]
  /** `validate: { isIn: [['ALERGIA', 'SAUDE', 'ESCOLA', 'OUTROS']] }`. */
  const TIPO_IS_IN: seq<string> := ["ALERGIA", "SAUDE", "ESCOLA", "OUTROS"]

  /** The attributes of an `InfoCrianca.create` call; `Undefined` is an attribute not given,
      and `data_registro` is a timestamp or absent. */
  datatype InfoInsert = InfoInsert(
    tipo_info: JsValue, descricao: JsValue, data_registro: Option<int>, id_crianca: JsValue)

  /** A stored `info_crianca` row: none of its three columns can be NULL. */
  datatype InfoRow = InfoRow(tipo_info: string, descricao: string, data_registro: int)

  /** A `tipo_info` string both the `isIn` validator and the ENUM column accept. */
  predicate IsInfoTipo(s: string) {
    s in TIPO_IS_IN && s in TIPO_ENUM
  }

  /** `allowNull: false` and `isIn` on `tipo_info`, `allowNull: false` on `descricao`. */
  predicate InsertAccepted(ins: InfoInsert) {
    && ins.tipo_info.Str? && IsInfoTipo(ins.tipo_info.s)
    && !IsNullish(ins.descricao)
  }

  /** The row an accepted insert stores; `now` is the clock reading `DataTypes.NOW` takes
      when `data_registro` is absent. */
  function Insert(ins: InfoInsert, now: int): (r: Option<InfoRow>)
    ensures r.Some? <==> InsertAccepted(ins)
    ensures r.Some? ==> IsInfoTipo(r.value.tipo_info)
    ensures r.Some? ==> r.value.data_registro == ins.data_registro.GetOr(now)
  {
    if InsertAccepted(ins) then
      Some(InfoRow(ins.tipo_info.s, ToJsString(ins.descricao), ins.data_registro.GetOr(now)))
    else None
  }

  /** The ENUM list and the `isIn` list name the same four values. */
  lemma TipoDomain(s: string)
    ensures IsInfoTipo(s) <==> s in {"ALERGIA", "SAUDE", "ESCOLA", "OUTROS"}
    ensures (s in TIPO_ENUM) <==> (s in TIPO_IS_IN)
  {
  }
}
