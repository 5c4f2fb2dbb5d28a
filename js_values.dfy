/**
 * The values the storm-event pipeline moves around: a record is a JavaScript object
 * seen as a map from property name to value; a missing key is `undefined`.
 */
module JsValues {

  datatype Option<+T> = None | Some(value: T)

  /** What a JavaScript `Date` holds: milliseconds since the epoch, or an invalid date. */
  datatype Stamp = Instant(ms: int) | InvalidDate

  /** A property value: what csv-parser, JSON.parse or the processing steps store. */
  datatype Value =
    | Str(s: string)
    | Num(n: real)
    | Null
    | Time(stamp: Stamp)           // a Date formatted back into a string
    | Arr(items: seq<Value>)
    | Obj(props: map<string, Value>)

  type Record = map<string, Value>

  /** JavaScript truthiness (NaN is never produced by the model). */
  predicate Truthy(v: Value)
  {
    match v
    case Str(s) => s != ""
    case Num(n) => n != 0.0
    case Null => false
    case _ => true
  }

  /** Truthiness of `r[k]`, where a missing key reads as `undefined`. */
  predicate FieldTruthy(r: Record, k: string)
  {
    k in r && Truthy(r[k])
  }

  /** `r[k] || null` */
  function OrNull(r: Record, k: string): (v: Value)
    ensures Truthy(v) <==> FieldTruthy(r, k)
    ensures v == Null || (k in r && v == r[k])
  {
    if FieldTruthy(r, k) then r[k] else Null
  }

  /** Every property of the record is a string, as csv-parser delivers rows. */
  predicate AllStrings(r: Record)
  {
    forall k :: k in r ==> r[k].Str?
  }

  /** The shift of an instant by a whole number of hours (the Date arithmetic `t - h * 60 * 60 * 1000`). */
  function ShiftHours(t: Stamp, hours: int): (r: Stamp)
    ensures r.InvalidDate? <==> t.InvalidDate?
    ensures t.Instant? ==> r.ms + hours * 3600000 == t.ms
  {
    match t
    case Instant(ms) => Instant(ms - hours * 60 * 60 * 1000)
    case InvalidDate => InvalidDate
  }
}
