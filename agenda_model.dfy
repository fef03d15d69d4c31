/** models/Agenda.js: the columns of the `agenda` table and the values Sequelize lets
    into them. The declaration is a table, so it is modelled as constants and a
    predicate over the attributes of an insert. */
module AgendaModel {
  import opened JsValues

  /** The two task statuses, which the browser script and the controller both use. */
  const PENDENTE: string := "PENDENTE"
  const CONCLUIDO: string := "CONCLUIDO"

  predicate IsStatusEnum(s: string) {
    s == PENDENTE || s == CONCLUIDO
  }

  /** `DataTypes.ENUM('PENDENTE', 'CONCLUIDO')`. */
  const STATUS_ENUM: seq<string> := ["PENDENTE", "CONCLUIDO"]
  /** `validate: { isIn: [['PENDENTE','CONCLUIDO']] }`. */
  const STATUS_IS_IN: seq<string> := ["PENDENTE", "CONCLUIDO"]
  /** `defaultValue: 'PENDENTE'`. */
  const STATUS_DEFAULT: string := "PENDENTE"
  /** `DataTypes.STRING(150)` for `titulo`. */
  const TITULO_MAX_LENGTH: nat := 150

  /** The attributes of an `Agenda.create` call; `Undefined` is an attribute not given. */
  datatype AgendaInsert = AgendaInsert(
    horario: JsValue, titulo: JsValue, descricao: JsValue, status_tarefa: JsValue, id_crianca: JsValue)

  /** A stored `agenda` row; `None` is SQL NULL. */
  datatype AgendaRow = AgendaRow(
    horario: string, titulo: string, descricao: Option<string>, status_tarefa: Option<string>)

  /** A status string the `isIn` validator and the ENUM column both accept. */
  predicate IsAgendaStatus(s: string) {
    s in STATUS_IS_IN && s in STATUS_ENUM
  }

  /** `status_tarefa` after the default: the default applies only to an absent attribute. */
  function StatusWithDefault(given: JsValue): JsValue {
    if given.Undefined? then Str(STATUS_DEFAULT) else given
  }

  /** `allowNull: true` lets null through without running `isIn`; a string must be listed. */
  predicate StatusAccepted(v: JsValue) {
    v.Null? || (v.Str? && IsAgendaStatus(v.s))
  }

  /** `allowNull: false` on `horario` and `titulo`, `titulo` within its column width,
      `descricao` free, `status_tarefa` accepted after the default. */
  predicate InsertAccepted(ins: AgendaInsert) {
    && !IsNullish(ins.horario)
    && !IsNullish(ins.titulo)
    && |ToJsString(ins.titulo)| <= TITULO_MAX_LENGTH
    && StatusAccepted(StatusWithDefault(ins.status_tarefa))
  }

  function ColumnValue(v: JsValue): Option<string> {
    if IsNullish(v) then None else Some(ToJsString(v))
  }

  /** The row an accepted insert stores, or `None` when Sequelize or the column rejects it. */
  function Insert(ins: AgendaInsert): (r: Option<AgendaRow>)
    ensures r.Some? <==> InsertAccepted(ins)
    ensures r.Some? ==> |r.value.titulo| <= TITULO_MAX_LENGTH
    ensures r.Some? ==> r.value.status_tarefa.None? || IsAgendaStatus(r.value.status_tarefa.value)
    ensures r.Some? && ins.status_tarefa.Undefined? ==> r.value.status_tarefa == Some(STATUS_DEFAULT)
    ensures r.Some? && ins.status_tarefa.Null? ==> r.value.status_tarefa.None?
  {
    if InsertAccepted(ins) then
      Some(AgendaRow(ToJsString(ins.horario), ToJsString(ins.titulo), ColumnValue(ins.descricao),
                     ColumnValue(StatusWithDefault(ins.status_tarefa))))
    else None
  }

  /** The ENUM list and the `isIn` list name the same two values. */
  lemma StatusDomain(s: string)
    ensures IsAgendaStatus(s) <==> s == "PENDENTE" || s == "CONCLUIDO"
    ensures (s in STATUS_ENUM) <==> (s in STATUS_IS_IN)
  {
  }
}
