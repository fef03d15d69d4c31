/** The JavaScript values that cross the scripts and controllers of the application:
    request-body fields, stored columns read back as JSON, globals such as the
    selected child's id. Only undefined, null, integers and strings are modelled. */
module JsValues {

  datatype Option<+T> = None | Some(value: T) {
    /** `x || default` for a result that is either a string or null. */
    function GetOr(default: T): T {
      match this
      case Some(v) => v
      case None => default
    }
  }

  datatype JsValue = Undefined | Null | Num(n: int) | Str(s: string)

  /** JavaScript truthiness on the modelled values: `0` and `""` are falsy, as are
      `null` and `undefined`. */
  predicate Truthy(v: JsValue) {
    match v
    case Undefined => false
    case Null => false
    case Num(n) => n != 0
    case Str(s) => s != ""
  }

  /** `v == null` (loose equality): holds of null and of undefined only. */
  predicate IsNullish(v: JsValue) {
    v.Undefined? || v.Null?
  }

  predicate IsDigit(c: char) {
    '0' <= c <= '9'
  }

  function DigitChar(d: nat): (c: char)
    requires d < 10
    ensures IsDigit(c)
  {
    ('0' as int + d) as char
  }

  /** The decimal form JavaScript gives a non-negative integer. */
  function NatToDecimal(n: nat): (r: string)
    ensures r != [] && forall i :: 0 <= i < |r| ==> IsDigit(r[i])
  {
    if n < 10 then [DigitChar(n)] else NatToDecimal(n / 10) + [DigitChar(n % 10)]
  }

  /** `String(v)`. */
  function ToJsString(v: JsValue): string {
    match v
    case Undefined => "undefined"
    case Null => "null"
    case Num(n) => if n < 0 then "-" + NatToDecimal(-n) else NatToDecimal(n)
    case Str(s) => s
  }

  /** `a ?? b`. */
  function Coalesce(a: JsValue, b: JsValue): JsValue {
    if IsNullish(a) then b else a
  }

  /** What assigning a value to an input's `value` leaves there: null becomes "". */
  function InputText(v: JsValue): string {
    if v.Null? then "" else ToJsString(v)
  }

  /** The property names that every object literal inherits from Object.prototype. */
  const OBJECT_PROTOTYPE_KEYS: set<string> := {
    "constructor", "__proto__", "hasOwnProperty", "isPrototypeOf",
    "propertyIsEnumerable", "toString", "valueOf", "toLocaleString",
    "__defineGetter__", "__defineSetter__", "__lookupGetter__", "__lookupSetter__"
  }

  /** What `obj[key]` yields on an object literal whose own properties hold strings:
      nothing, an own string, or an inherited member (a function or, for
      `__proto__`, the prototype object itself). */
  datatype Prop = Missing | Own(value: string) | Inherited(key: string)

  function Get(obj: map<string, string>, key: string): (p: Prop)
    ensures p.Own? <==> key in obj
    ensures p.Own? ==> p.value == obj[key]
    ensures p.Inherited? <==> key !in obj && key in OBJECT_PROTOTYPE_KEYS
  {
    if key in obj then Own(obj[key])
    else if key in OBJECT_PROTOTYPE_KEYS then Inherited(key)
    else Missing
  }

  /** Truthiness of a property read: an inherited member is a function or an
      object, hence truthy; an own string is truthy when non-empty. */
  predicate PropTruthy(p: Prop) {
    match p
    case Missing => false
    case Own(v) => v != ""
    case Inherited(_) => true
  }
}

/** The parts of HTTP the handlers and the scripts decide on before any request is made. */
module Http {

  datatype Method = GET | POST | PUT | DELETE

  /** An error response a controller sends: its status code and its JSON `error` text. */
  datatype ErrorReply = ErrorReply(status: nat, error: string)

  /** The outcome of a handler that either builds a record for the ORM or answers with an error. */
  datatype Result<+T> = Ok(value: T) | Fail(reply: ErrorReply)

  /** The response to a list request as the scripts branch on it: 404, another error
      status, no response at all, or the listed rows. */
  datatype ListReply<T> = NotFound | ErrorStatus | Network | Listed(rows: seq<T>)
}

/** The part of Sequelize's `Model.update` the handlers rely on: which attributes of the
    record they build end up written. */
module Orm {
  import opened JsValues

  /** A plain object: property name to value. */
  type Record = map<string, JsValue>

  /** What `Model.update` writes into a stored row: each attribute of the record whose
      value is not `undefined` replaces the stored one; everything else is kept. */
  function ApplyUpdate(stored: Record, data: Record): (r: Record)
    ensures r.Keys == stored.Keys + WrittenKeys(data)
    ensures forall k :: k in WrittenKeys(data) ==> r[k] == data[k]
    ensures forall k :: k in stored && k !in WrittenKeys(data) ==> r[k] == stored[k]
  {
    map k | k in stored.Keys + WrittenKeys(data) ::
      if k in WrittenKeys(data) then data[k] else stored[k]
  }

  /** The attributes of a record `Model.update` writes: those not `undefined`. */
  function WrittenKeys(data: Record): set<string> {
    set k | k in data && !data[k].Undefined?
  }
}
