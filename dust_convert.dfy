/**
 * One year of the legacy dust pipeline: `convertDustDB`
 * (backend/dust_processing/index.js:161-476). A backward loop over the year's
 * events splices out the rejected ones and rewrites each kept one in place (a
 * `begin` and an `end` object, parsed damages, a `losses` object, dropped
 * columns), adds its losses to the year's totals and files it under its episode.
 */
module DustConvert {
  import opened JsValues
  import opened JsText
  import opened JsNumbers
  import opened JsKeys
  import opened DustFilters

  // ---------------------------------------------------------------------------
  // Columns and constants
  // ---------------------------------------------------------------------------

  /** The six loss columns, in the order of the `totalLosses` object. */
  const LossFields: seq<string> :=
    ["INJURIES_DIRECT", "INJURIES_INDIRECT", "DEATHS_DIRECT", "DEATHS_INDIRECT", "DAMAGE_PROPERTY", "DAMAGE_CROPS"]

  /** `l.toLowerCase()` for each loss column: the keys of an event's `losses` object. */
  const LossNames: seq<string> :=
    ["injuries_direct", "injuries_indirect", "deaths_direct", "deaths_indirect", "damage_property", "damage_crops"]

  /** The two columns holding an amount of money such as "1.5M". */
  const DamageFields: seq<string> := ["DAMAGE_PROPERTY", "DAMAGE_CROPS"]

  /** The two ends of an event and the properties they become. */
  const Points: seq<string> := ["BEGIN", "END"]
  const PointNames: seq<string> := ["begin", "end"]

  /** `timeZoneOffsets`: hours to add to UTC, looked up by the part of CZ_TIMEZONE before the first '-'. */
  const ZoneOffsets: map<string, int> := map[
    "AKST" := -7, "AST" := -4, "CST" := -6, "EST" := -5, "HST" := -10,
    "MST" := -7, "PST" := -8, "SST" := -11, "GST10" := 4]

  /** The columns deleted from every kept event. */
  const CommonDeleted: seq<string> := [
    "BEGIN_YEARMONTH", "BEGIN_DAY", "BEGIN_TIME", "END_YEARMONTH", "END_DAY", "END_TIME", "CZ_TIMEZONE",
    "MONTH_NAME", "BEGIN_DATE_TIME", "END_DATE_TIME", "YEAR",
    "BEGIN_LOCATION", "END_LOCATION",
    "BEGIN_LAT", "BEGIN_LON", "END_LAT", "END_LON",
    "STATE",
    "CZ_TYPE", "CZ_FIPS", "CZ_NAME"]

  /** The columns deleted as well when the data type is Region. */
  const RegionDeleted: seq<string> := [
    "WFO", "MAGNITUDE", "EVENT_NARRATIVE", "EPISODE_NARRATIVE", "DATA_SOURCE", "TOR_F_SCALE",
    "TOR_LENGTH", "TOR_WIDTH", "BEGIN_RANGE", "BEGIN_AZIMUTH", "END_RANGE", "END_AZIMUTH",
    "EVENT_TYPE", "SOURCE", "MAGNITUDE_TYPE"]

  /** The `forEach(key => delete …)` list of a kept event. */
  function DeletedKeys(dataType: string): seq<string>
  {
    CommonDeleted + (if dataType == "Region" then RegionDeleted else []) + LossFields
  }

  // ---------------------------------------------------------------------------
  // The input row
  // ---------------------------------------------------------------------------

  /** `k` holds a number with no fraction, as the date and time columns do. */
  predicate IntAt(e: Record, k: string)
  {
    k in e && e[k].Num? && e[k].n == e[k].n.Floor as real
  }

  function IntOf(e: Record, k: string): int
    requires IntAt(e, k)
  {
    e[k].n.Floor
  }

  /** A money column is falsy, or a text that starts with a numeral; the unit is its last character. */
  predicate DamageText(e: Record, k: string)
  {
    !FieldTruthy(e, k) || (e[k].Str? && ParseFloat(e[k].s).Some?)
  }

  /** A count column is missing, null or a number, so `value || null` is a number or null. */
  predicate CountValue(e: Record, k: string)
  {
    k !in e || e[k].Num? || e[k].Null?
  }

  /** `String(v)` for an episode id: a text, or a number with no fraction. */
  predicate KeyValue(v: Value)
  {
    v.Str? || (v.Num? && v.n == v.n.Floor as real)
  }

  function PropertyKey(v: Value): string
    requires KeyValue(v)
  {
    if v.Str? then v.s else IntToString(v.n.Floor)
  }

  /** The date and time columns of one end of the event are whole numbers; CZ_TIMEZONE is a text (it is split). */
  predicate PointRow(e: Record, p: string)
  {
    IntAt(e, p + "_YEARMONTH") && IntAt(e, p + "_DAY") && IntAt(e, p + "_TIME") &&
    "CZ_TIMEZONE" in e && e["CZ_TIMEZONE"].Str?
  }

  /**
   * The shape of a row of the year's JSON file that `convertDustDB` processes without
   * throwing: both ends' date and time columns are whole numbers, CZ_TIMEZONE is a
   * text, the money columns parse, the count columns add up as numbers, the episode id
   * can name a property and the row has no `events` property of its own.
   */
  predicate DustRow(e: Record)
  {
    && PointRow(e, "BEGIN") && PointRow(e, "END")
    && DamageText(e, "DAMAGE_PROPERTY") && DamageText(e, "DAMAGE_CROPS")
    && CountValue(e, "INJURIES_DIRECT") && CountValue(e, "INJURIES_INDIRECT")
    && CountValue(e, "DEATHS_DIRECT") && CountValue(e, "DEATHS_INDIRECT")
    && "EPISODE_ID" in e && KeyValue(e["EPISODE_ID"])
    && "EVENT_ID" in e
    && "events" !in e
  }

  // ---------------------------------------------------------------------------
  // `.begin` and `.end` (backend/dust_processing/index.js:325-345)
  // ---------------------------------------------------------------------------

  /** JavaScript's `a % b`: the remainder takes the sign of `a`. */
  function JsRem(a: int, b: int): (r: int)
    requires b > 0
    ensures a >= 0 ==> 0 <= r < b && a == (a / b) * b + r
  {
    if a >= 0 then a % b else -((-a) % b)
  }

  /** The text handed to `new Date`: "year.month.day hour:minute:0 UTC". */
  function DateText(year: int, month: int, day: int, hour: int, minute: int): string
  {
    IntToString(year) + "." + IntToString(month) + "." + IntToString(day) + " " +
    IntToString(hour) + ":" + IntToString(minute) + ":0 UTC"
  }

  /** The part of CZ_TIMEZONE before its first '-'. */
  function ZoneOf(e: Record): string
    requires "CZ_TIMEZONE" in e && e["CZ_TIMEZONE"].Str?
  {
    SplitOn(e["CZ_TIMEZONE"].s, '-')[0]
  }

  /**
   * The instant of one end of the event: its local date and time read as UTC, less
   * the zone's offset; an unknown zone makes the offset NaN and the date invalid.
   * `parse` stands for `new Date(text)`.
   */
  function PointTime(e: Record, p: string, parse: string -> Stamp): Stamp
    requires PointRow(e, p)
  {
    var ym := IntOf(e, p + "_YEARMONTH");
    var time := IntOf(e, p + "_TIME");
    var local := parse(DateText(ym / 100, JsRem(ym, 100), IntOf(e, p + "_DAY"), time / 100, JsRem(time, 100)));
    var zone := ZoneOf(e);
    if zone in ZoneOffsets then ShiftHours(local, ZoneOffsets[zone]) else InvalidDate
  }

  /** `{ time, location, coordinates }` for one end of the event. */
  function PointObject(e: Record, p: string, parse: string -> Stamp): Value
    requires PointRow(e, p)
  {
    Obj(map[
      "time" := Time(PointTime(e, p, parse)),
      "location" := OrNull(e, p + "_LOCATION"),
      "coordinates" := Arr([OrNull(e, p + "_LAT"), OrNull(e, p + "_LON")])])
  }

  /** The row with the objects of the first `n` ends attached. */
  function PointsAttached(e: Record, n: nat, parse: string -> Stamp): (r: Record)
    requires DustRow(e) && n <= |Points|
  {
    if n == 0 then e
    else PointsAttached(e, n - 1, parse)[PointNames[n - 1] := PointObject(e, Points[n - 1], parse)]
  }

  /** The row with its `begin` and `end` objects. */
  function WithPoints(e: Record, parse: string -> Stamp): Record
    requires DustRow(e)
  {
    PointsAttached(e, |Points|, parse)
  }

  /** A column other than `begin` and `end` is as the row had it. */
  lemma PointsAttachedAt(e: Record, n: nat, parse: string -> Stamp, k: string)
    requires DustRow(e) && n <= |Points| && k !in PointNames
    ensures k in PointsAttached(e, n, parse) <==> k in e
    ensures k in e ==> PointsAttached(e, n, parse)[k] == e[k]
  {
    if n > 0 {
      PointsAttachedAt(e, n - 1, parse, k);
    }
  }

  /** The money columns survive attaching `begin` and `end`. */
  lemma WithPointsDamages(e: Record, parse: string -> Stamp)
    requires DustRow(e)
    ensures DamagesText(WithPoints(e, parse))
  {
    PointsAttachedAt(e, |Points|, parse, "DAMAGE_PROPERTY");
    PointsAttachedAt(e, |Points|, parse, "DAMAGE_CROPS");
  }

  /** Attaching `begin` leaves what the `end` object is made of untouched. */
  lemma EndUnaffected(e: Record, v: Value, parse: string -> Stamp)
    requires PointRow(e, "END")
    ensures PointRow(e["begin" := v], "END")
    ensures PointObject(e["begin" := v], "END", parse) == PointObject(e, "END", parse)
  {
    var r := e["begin" := v];
    assert |"END" + "_LOCATION"| == 12 && |"END" + "_LAT"| == 7 && |"END" + "_LON"| == 7;
    assert |"END" + "_YEARMONTH"| == 13 && |"END" + "_DAY"| == 7 && |"END" + "_TIME"| == 8;
    assert r["CZ_TIMEZONE"] == e["CZ_TIMEZONE"];
  }

  /** The `points.forEach` loop that attaches `begin` and `end`. */
  method AttachPoints(e: Record, parse: string -> Stamp) returns (r: Record)
    requires DustRow(e)
    ensures r == WithPoints(e, parse)
  {
    r := e;
    for j := 0 to |Points|
      invariant r == PointsAttached(e, j, parse)
    {
      var p := Points[j];
      if j == 1 {
        EndUnaffected(e, PointObject(e, "BEGIN", parse), parse);
      }
      var obj := PointObject(r, p, parse);
      r := r[PointNames[j] := obj];
    }
  }

  // ---------------------------------------------------------------------------
  // Damages and losses (backend/dust_processing/index.js:347-378)
  // ---------------------------------------------------------------------------

  /** The `switch` on the last character of an amount: 'M' is a million, 'K' a thousand, anything else one. */
  function Multiplier(s: string): real
  {
    if |s| > 0 && s[|s| - 1] == 'M' then 1000000.0
    else if |s| > 0 && s[|s| - 1] == 'K' then 1000.0
    else 1.0
  }

  /** `parseFloat(text) * unit`. */
  function Amount(s: string): real
    requires ParseFloat(s).Some?
  {
    ParseFloat(s).value * Multiplier(s)
  }

  /** A falsy amount becomes null; any other is `parseFloat` of it times its unit. */
  function DamageValue(e: Record, d: string): (v: Value)
    requires DamageText(e, d)
    ensures v == Null || v.Num?
  {
    if !FieldTruthy(e, d) then Null
    else Num(Amount(e[d].s))
  }

  predicate DamagesText(e: Record)
  {
    DamageText(e, "DAMAGE_PROPERTY") && DamageText(e, "DAMAGE_CROPS")
  }

  /** The row with the first `n` money columns replaced by their amounts. */
  function DamagesParsed(e: Record, n: nat): (r: Record)
    requires DamagesText(e) && n <= |DamageFields|
  {
    if n == 0 then e
    else DamagesParsed(e, n - 1)[DamageFields[n - 1] := DamageValue(e, DamageFields[n - 1])]
  }

  /** A money column not parsed yet still holds its text. */
  lemma DamagesParsedAt(e: Record, n: nat, k: string)
    requires DamagesText(e) && n <= |DamageFields| && k !in DamageFields[..n]
    ensures k in DamagesParsed(e, n) <==> k in e
    ensures k in e ==> DamagesParsed(e, n)[k] == e[k]
  {
    if n > 0 {
      assert DamageFields[..n - 1] <= DamageFields[..n];
      DamagesParsedAt(e, n - 1, k);
    }
  }

  /** The `damages.forEach` loop. */
  method ParseDamages(e: Record) returns (r: Record)
    requires DamagesText(e)
    ensures r == DamagesParsed(e, |DamageFields|)
  {
    r := e;
    for j := 0 to |DamageFields|
      invariant r == DamagesParsed(e, j)
    {
      var d := DamageFields[j];
      DamagesParsedAt(e, j, d);
      if !FieldTruthy(r, d) {
        r := r[d := Null];
      } else {
        var text := r[d].s;
        var number := ParseFloat(text).value;
        var multiplier := 1.0;
        if |text| > 0 && text[|text| - 1] == 'M' {
          multiplier := 1000000.0;
        } else if |text| > 0 && text[|text| - 1] == 'K' {
          multiplier := 1000.0;
        }
        r := r[d := Num(number * multiplier)];
      }
    }
  }

  /** The first `n` entries of an event's `losses` object: each loss column's value, or null when it is falsy. */
  function LossesObject(e: Record, n: nat): (m: map<string, Value>)
    requires n <= |LossFields|
    ensures m.Keys == set j | 0 <= j < n :: LossNames[j]
  {
    if n == 0 then map[]
    else LossesObject(e, n - 1)[LossNames[n - 1] := OrNull(e, LossFields[n - 1])]
  }

  /** The `forEach` that fills `losses`. */
  method GroupLosses(e: Record) returns (r: Record)
    ensures r == e["losses" := Obj(LossesObject(e, |LossFields|))]
  {
    var losses: map<string, Value> := map[];
    for j := 0 to |LossFields|
      invariant losses == LossesObject(e, j)
    {
      var l := LossFields[j];
      losses := losses[LossNames[j] := OrNull(e, l)];
    }
    r := e["losses" := Obj(losses)];
  }

  /** The keys of `losses` are distinct, so each holds its own column's value. */
  lemma LossesObjectAt(e: Record, n: nat, j: nat)
    requires j < n <= |LossFields|
    ensures LossesObject(e, n)[LossNames[j]] == OrNull(e, LossFields[j])
  {
    if j < n - 1 {
      assert LossNames[n - 1] != LossNames[j];
      LossesObjectAt(e, n - 1, j);
    }
  }

  /** The record after deleting `keys` one by one. */
  function DeleteAll(e: Record, keys: seq<string>): (r: Record)
  {
    if keys == [] then e else DeleteAll(e, keys[..|keys| - 1]) - {keys[|keys| - 1]}
  }

  /** Deleting keys one by one deletes exactly the listed keys and keeps every other value. */
  lemma {:induction false} DeleteAllKeys(e: Record, keys: seq<string>)
    ensures forall k :: k in DeleteAll(e, keys) <==> k in e && k !in keys
    ensures forall k :: k in DeleteAll(e, keys) ==> DeleteAll(e, keys)[k] == e[k]
  {
    if keys != [] {
      DeleteAllKeys(e, keys[..|keys| - 1]);
      assert keys == keys[..|keys| - 1] + [keys[|keys| - 1]];
    }
  }

  /** The `forEach(key => delete …)` loop. */
  method DeleteKeys(e: Record, keys: seq<string>) returns (r: Record)
    ensures r == DeleteAll(e, keys)
  {
    r := e;
    for j := 0 to |keys|
      invariant r == DeleteAll(e, keys[..j])
    {
      assert keys[..j + 1][..j] == keys[..j];
      r := r - {keys[j]};
    }
    assert keys[..|keys|] == keys;
  }

  /** What a kept event becomes: `begin` and `end`, parsed damages, `losses`, and the listed columns deleted. */
  function Rewritten(e: Record, dataType: string, parse: string -> Stamp): Record
    requires DustRow(e)
  {
    WithPointsDamages(e, parse);
    var withPoints := WithPoints(e, parse);
    var withDamages := DamagesParsed(withPoints, |DamageFields|);
    DeleteAll(withDamages["losses" := Obj(LossesObject(withDamages, |LossFields|))], DeletedKeys(dataType))
  }

  /** The body of the backward loop for a kept event, before its totals and episode. */
  method RewriteEvent(e: Record, dataType: string, parse: string -> Stamp) returns (r: Record)
    requires DustRow(e)
    ensures r == Rewritten(e, dataType, parse)
  {
    r := AttachPoints(e, parse);
    WithPointsDamages(e, parse);
    r := ParseDamages(r);
    r := GroupLosses(r);
    r := DeleteKeys(r, DeletedKeys(dataType));
  }

  /** A year-month is the year times a hundred plus the month; a time is the hour times a hundred plus the minute. */
  lemma DateDecomposition(ym: int, time: int)
    requires ym >= 0 && time >= 0
    ensures ym == (ym / 100) * 100 + JsRem(ym, 100) && 0 <= JsRem(ym, 100) < 100
    ensures time == (time / 100) * 100 + JsRem(time, 100) && 0 <= JsRem(time, 100) < 100
  {
  }

  /** Only the part before the first hyphen names the zone: "AKST-9" is looked up as "AKST". */
  lemma ZonePrefix(zone: string, rest: string)
    requires '-' !in zone
    ensures SplitOn(zone + "-" + rest, '-')[0] == zone
    ensures SplitOn(zone, '-')[0] == zone
  {
    SplitAround(zone, rest, '-');
    SplitWhole(zone, '-');
    assert zone + "-" + rest == zone + ['-'] + rest;
  }

  /** A known zone shifts the local reading back by its offset in hours; an unknown one yields an invalid date. */
  lemma PointTimeShift(e: Record, p: string, parse: string -> Stamp)
    requires PointRow(e, p)
    ensures ZoneOf(e) !in ZoneOffsets ==> PointTime(e, p, parse) == InvalidDate
    ensures ZoneOf(e) in ZoneOffsets ==>
      var ym := IntOf(e, p + "_YEARMONTH");
      var time := IntOf(e, p + "_TIME");
      var local := parse(DateText(ym / 100, JsRem(ym, 100), IntOf(e, p + "_DAY"), time / 100, JsRem(time, 100)));
      (local.InvalidDate? <==> PointTime(e, p, parse).InvalidDate?) &&
      (local.Instant? ==> PointTime(e, p, parse).ms == local.ms - ZoneOffsets[ZoneOf(e)] * 3600000)
  {
  }

  // ---------------------------------------------------------------------------
  // What survives the rewrite
  // ---------------------------------------------------------------------------

  /**
   * Every deleted column is named in capitals and none ends in 'D', so neither the
   * lower-case properties the rewrite adds nor the two ids (which end in "_ID") are deleted.
   */
  predicate CapitalsNotId(keys: seq<string>)
  {
    forall i :: 0 <= i < |keys| ==> |keys[i]| > 0 && IsUpper(keys[i][0]) && keys[i][|keys[i]| - 1] != 'D'
  }

  lemma DeletedShapes(dataType: string)
    ensures CapitalsNotId(DeletedKeys(dataType))
  {
    CommonShaped();
    RegionShaped();
    LossShaped();
  }

  lemma CommonShaped()
    ensures CapitalsNotId(CommonDeleted)
  {
  }

  lemma RegionShaped()
    ensures CapitalsNotId(RegionDeleted)
  {
  }

  lemma LossShaped()
    ensures CapitalsNotId(LossFields)
  {
  }

  /** A loss column is longer than `begin` and `end`, so it is neither. */
  lemma LossNotPoint(j: nat)
    requires j < |LossFields|
    ensures LossFields[j] !in PointNames
  {
    assert |LossFields[j]| > 5;
  }

  /** The ids and the new objects are not on the delete list. */
  lemma Survivors(dataType: string)
    ensures "EVENT_ID" !in DeletedKeys(dataType) && "EPISODE_ID" !in DeletedKeys(dataType)
    ensures "losses" !in DeletedKeys(dataType) && "begin" !in DeletedKeys(dataType) && "end" !in DeletedKeys(dataType)
    ensures "events" !in DeletedKeys(dataType)
  {
    DeletedShapes(dataType);
    var keys := DeletedKeys(dataType);
    NotShaped(keys, "EVENT_ID");
    NotShaped(keys, "EPISODE_ID");
    NotShaped(keys, "losses");
    NotShaped(keys, "begin");
    NotShaped(keys, "end");
    NotShaped(keys, "events");
  }

  lemma NotShaped(keys: seq<string>, k: string)
    requires CapitalsNotId(keys) && |k| > 0 && (!IsUpper(k[0]) || k[|k| - 1] == 'D')
    ensures k !in keys
  {
  }

  /**
   * A column the rewrite neither adds nor deletes keeps its value: in particular
   * EVENT_ID and EPISODE_ID, and the absence of `events`.
   */
  lemma RewrittenKeeps(e: Record, dataType: string, parse: string -> Stamp, k: string)
    requires DustRow(e)
    requires k !in PointNames && k !in DamageFields && k != "losses" && k !in DeletedKeys(dataType)
    ensures k in Rewritten(e, dataType, parse) <==> k in e
    ensures k in e ==> Rewritten(e, dataType, parse)[k] == e[k]
  {
    WithPointsDamages(e, parse);
    var withPoints := WithPoints(e, parse);
    var withDamages := DamagesParsed(withPoints, |DamageFields|);
    PointsAttachedAt(e, |Points|, parse, k);
    DamagesParsedAt(withPoints, |DamageFields|, k);
    DeleteAllKeys(withDamages["losses" := Obj(LossesObject(withDamages, |LossFields|))], DeletedKeys(dataType));
  }

  /** The rewritten event still has its ids and has no `events` of its own. */
  lemma RewrittenIds(e: Record, dataType: string, parse: string -> Stamp)
    requires DustRow(e)
    ensures "EVENT_ID" in Rewritten(e, dataType, parse) && Rewritten(e, dataType, parse)["EVENT_ID"] == e["EVENT_ID"]
    ensures "EPISODE_ID" in Rewritten(e, dataType, parse) && Rewritten(e, dataType, parse)["EPISODE_ID"] == e["EPISODE_ID"]
    ensures "events" !in Rewritten(e, dataType, parse)
  {
    Survivors(dataType);
    RewrittenKeeps(e, dataType, parse, "EVENT_ID");
    RewrittenKeeps(e, dataType, parse, "EPISODE_ID");
    RewrittenKeeps(e, dataType, parse, "events");
  }

  // ---------------------------------------------------------------------------
  // Loss totals (backend/dust_processing/index.js:166-173, 441-450)
  // ---------------------------------------------------------------------------

  /** `value || 0` for a value of a `losses` object: a number, or null. */
  function LossAmount(v: Value): real
  {
    if v.Num? then v.n else 0.0
  }

  /** What an event adds to the `j`-th total: the count, or the parsed amount, or 0 when the column is falsy. */
  function RawLoss(e: Record, j: nat): real
    requires DustRow(e) && j < |LossFields|
  {
    var f := LossFields[j];
    if !FieldTruthy(e, f) then 0.0
    else if j < 4 then e[f].n
    else Amount(e[f].s)
  }

  const ZeroLosses: seq<real> := [0.0, 0.0, 0.0, 0.0, 0.0, 0.0]

  /** A `losses` object with every loss key. */
  predicate HasLossKeys(losses: map<string, Value>)
  {
    forall j :: 0 <= j < |LossNames| ==> LossNames[j] in losses
  }

  function AddLosses(totals: seq<real>, losses: map<string, Value>): (r: seq<real>)
    requires |totals| == |LossFields| && HasLossKeys(losses)
    ensures |r| == |LossFields|
  {
    seq(|LossFields|, j requires 0 <= j < |LossFields| => totals[j] + LossAmount(losses[LossNames[j]]))
  }

  /** The `forEach` that adds an event's losses to `totalLosses`. */
  method AddLossTotals(totals: seq<real>, losses: map<string, Value>) returns (r: seq<real>)
    requires |totals| == |LossFields| && HasLossKeys(losses)
    ensures r == AddLosses(totals, losses)
  {
    r := totals;
    for j := 0 to |LossFields|
      invariant |r| == |LossFields|
      invariant forall q :: 0 <= q < |LossFields| ==> r[q] == if q < j then totals[q] + LossAmount(losses[LossNames[q]]) else totals[q]
    {
      r := r[j := r[j] + LossAmount(losses[LossNames[j]])];
    }
  }

  /** The rewritten event's `losses` object holds every loss, and each adds what the raw row says. */
  lemma RewrittenLosses(e: Record, dataType: string, parse: string -> Stamp)
    requires DustRow(e)
    ensures "losses" in Rewritten(e, dataType, parse) && Rewritten(e, dataType, parse)["losses"].Obj?
    ensures HasLossKeys(Rewritten(e, dataType, parse)["losses"].props)
    ensures forall j :: 0 <= j < |LossFields| ==>
      LossAmount(Rewritten(e, dataType, parse)["losses"].props[LossNames[j]]) == RawLoss(e, j)
  {
    WithPointsDamages(e, parse);
    var withDamages := DamagesParsed(WithPoints(e, parse), |DamageFields|);
    var m := LossesObject(withDamages, |LossFields|);
    RewrittenLossesObject(e, dataType, parse);
    forall j | 0 <= j < |LossFields|
      ensures LossNames[j] in m && LossAmount(m[LossNames[j]]) == RawLoss(e, j)
    {
      LossesObjectAt(withDamages, |LossFields|, j);
      LossColumn(e, parse, j);
    }
  }

  /** The `losses` object survives the deletions. */
  lemma RewrittenLossesObject(e: Record, dataType: string, parse: string -> Stamp)
    requires DustRow(e)
    ensures DamagesText(WithPoints(e, parse))
    ensures "losses" in Rewritten(e, dataType, parse)
    ensures var withDamages := DamagesParsed(WithPoints(e, parse), |DamageFields|);
      Rewritten(e, dataType, parse)["losses"] == Obj(LossesObject(withDamages, |LossFields|))
  {
    WithPointsDamages(e, parse);
    var withDamages := DamagesParsed(WithPoints(e, parse), |DamageFields|);
    var full := withDamages["losses" := Obj(LossesObject(withDamages, |LossFields|))];
    Survivors(dataType);
    DeleteAllKept(full, DeletedKeys(dataType), "losses");
  }

  /** A key off the list survives `DeleteAll` with its value. */
  lemma DeleteAllKept(r: Record, keys: seq<string>, k: string)
    requires k in r && k !in keys
    ensures k in DeleteAll(r, keys) && DeleteAll(r, keys)[k] == r[k]
  {
    DeleteAllKeys(r, keys);
  }

  /** After the damages are parsed, `column || null` is what the raw row adds to the totals. */
  lemma LossColumn(e: Record, parse: string -> Stamp, j: nat)
    requires DustRow(e) && j < |LossFields|
    ensures DamagesText(WithPoints(e, parse))
    ensures LossAmount(OrNull(DamagesParsed(WithPoints(e, parse), |DamageFields|), LossFields[j])) == RawLoss(e, j)
  {
    WithPointsDamages(e, parse);
    var f := LossFields[j];
    LossNotPoint(j);
    PointsAttachedAt(e, |Points|, parse, f);
    LossOfParsed(WithPoints(e, parse), e, j);
  }

  /** The same, for any record that agrees with the row on the loss column. */
  lemma LossOfParsed(w: Record, e: Record, j: nat)
    requires DustRow(e) && DamagesText(w) && j < |LossFields|
    requires LossFields[j] in w <==> LossFields[j] in e
    requires LossFields[j] in e ==> w[LossFields[j]] == e[LossFields[j]]
    ensures LossAmount(OrNull(DamagesParsed(w, |DamageFields|), LossFields[j])) == RawLoss(e, j)
  {
    if j < 4 {
      CountLoss(w, e, j);
    } else {
      MoneyLoss(w, e, j - 4);
    }
  }

  /** `value || null || 0` is the value of a number and 0 for anything else. */
  lemma LossAmountOrNull(r: Record, f: string)
    requires f !in r || r[f].Num? || r[f].Null?
    ensures LossAmount(OrNull(r, f)) == if f in r then LossAmount(r[f]) else 0.0
  {
  }

  lemma CountLoss(w: Record, e: Record, j: nat)
    requires DustRow(e) && DamagesText(w) && j < 4
    requires LossFields[j] in w <==> LossFields[j] in e
    requires LossFields[j] in e ==> w[LossFields[j]] == e[LossFields[j]]
    ensures LossAmount(OrNull(DamagesParsed(w, |DamageFields|), LossFields[j])) == RawLoss(e, j)
  {
    var f := LossFields[j];
    assert CountValue(e, f);
    CountColumn(w, j);
    LossAmountOrNull(DamagesParsed(w, |DamageFields|), f);
  }

  lemma MoneyLoss(w: Record, e: Record, q: nat)
    requires DustRow(e) && DamagesText(w) && q < |DamageFields|
    requires DamageFields[q] in w <==> DamageFields[q] in e
    requires DamageFields[q] in e ==> w[DamageFields[q]] == e[DamageFields[q]]
    ensures LossAmount(OrNull(DamagesParsed(w, |DamageFields|), LossFields[q + 4])) == RawLoss(e, q + 4)
  {
    var f := DamageFields[q];
    var d := DamagesParsed(w, |DamageFields|);
    assert LossFields[q + 4] == f && f in d && d[f] == DamageValue(w, f) by {
      DamageParsedAt(w, q);
    }
    assert DamageValue(w, f) == DamageValue(e, f) by {
      assert DamageText(e, f);
      SameDamage(w, e, f);
    }
    assert LossAmount(OrNull(d, f)) == LossAmount(d[f]) by {
      LossAmountOrNull(d, f);
    }
    assert LossAmount(DamageValue(e, f)) == RawLoss(e, q + 4) by {
      DamageAmount(e, q);
    }
  }

  /** Two records that agree on a money column give it the same amount. */
  lemma SameDamage(w: Record, e: Record, f: string)
    requires DamageText(w, f) && DamageText(e, f)
    requires f in w <==> f in e
    requires f in e ==> w[f] == e[f]
    ensures DamageValue(w, f) == DamageValue(e, f)
  {
  }

  /** The amount a money column contributes. */
  lemma DamageAmount(e: Record, q: nat)
    requires DustRow(e) && q < |DamageFields|
    ensures LossFields[q + 4] == DamageFields[q]
    ensures LossAmount(DamageValue(e, DamageFields[q])) == RawLoss(e, q + 4)
  {
    assert LossFields[q + 4] == DamageFields[q];
    MoneyAmount(e, q + 4, DamageFields[q]);
  }

  /** A money column's total: the amount of its value, which is 0 for a falsy column. */
  lemma MoneyAmount(e: Record, j: nat, f: string)
    requires DustRow(e) && 4 <= j < |LossFields| && LossFields[j] == f && DamageText(e, f)
    ensures LossAmount(DamageValue(e, f)) == RawLoss(e, j)
  {
  }

  /** A count column is not a money column, so parsing the damages leaves it as it was. */
  lemma CountColumn(e: Record, j: nat)
    requires DamagesText(e) && j < 4
    ensures LossFields[j] in DamagesParsed(e, |DamageFields|) <==> LossFields[j] in e
    ensures LossFields[j] in e ==> DamagesParsed(e, |DamageFields|)[LossFields[j]] == e[LossFields[j]]
  {
    assert LossFields[j][0] != 'D' || LossFields[j][1] == 'E';
    assert DamageFields[..|DamageFields|] == DamageFields;
    DamagesParsedAt(e, |DamageFields|, LossFields[j]);
  }

  /** A parsed money column holds its amount. */
  lemma DamageParsedAt(e: Record, q: nat)
    requires DamagesText(e) && q < |DamageFields|
    ensures LossFields[q + 4] == DamageFields[q]
    ensures DamageFields[q] in DamagesParsed(e, |DamageFields|)
    ensures DamagesParsed(e, |DamageFields|)[DamageFields[q]] == DamageValue(e, DamageFields[q])
  {
    assert DamageFields[0] != DamageFields[1];
    assert DamagesParsed(e, 2) == DamagesParsed(e, 1)[DamageFields[1] := DamageValue(e, DamageFields[1])];
    assert DamagesParsed(e, 1) == e[DamageFields[0] := DamageValue(e, DamageFields[0])];
  }

  // ---------------------------------------------------------------------------
  // Episodes (backend/dust_processing/index.js:452-464)
  // ---------------------------------------------------------------------------

  /** The property name an event is filed under: `String(EPISODE_ID)`. */
  function EpisodeKey(e: Record): string
    requires "EPISODE_ID" in e && KeyValue(e["EPISODE_ID"])
  {
    PropertyKey(e["EPISODE_ID"])
  }

  /** `Object.assign({ events: [] }, event)` less EVENT_ID and EVENT_NARRATIVE, with its ids list. */
  function EpisodeCopy(c: Record, ids: seq<Value>): Record
  {
    (c - {"EVENT_ID", "EVENT_NARRATIVE"})["events" := Arr(ids)]
  }

  /** Every episode object has an `events` array. */
  predicate GroupsShaped(groups: map<string, Record>)
  {
    forall k :: k in groups ==> "events" in groups[k] && groups[k]["events"].Arr?
  }

  /** Filing a rewritten event: a first event of its episode starts a copy; its EVENT_ID is pushed. */
  function AddToGroup(groups: map<string, Record>, c: Record): (g: map<string, Record>)
    requires GroupsShaped(groups) && "EPISODE_ID" in c && KeyValue(c["EPISODE_ID"]) && "EVENT_ID" in c
    ensures GroupsShaped(g)
  {
    var key := EpisodeKey(c);
    var base := if key in groups then groups[key] else EpisodeCopy(c, []);
    groups[key := base["events" := Arr(base["events"].items + [c["EVENT_ID"]])]]
  }

  /** The episode-grouping step of the backward loop. */
  method FileUnderEpisode(groups: map<string, Record>, order: seq<string>, c: Record)
    returns (g: map<string, Record>, o: seq<string>)
    requires GroupsShaped(groups) && "EPISODE_ID" in c && KeyValue(c["EPISODE_ID"]) && "EVENT_ID" in c
    requires "events" !in c
    ensures g == AddToGroup(groups, c)
    ensures o == if EpisodeKey(c) in groups then order else order + [EpisodeKey(c)]
  {
    g, o := groups, order;
    var key := PropertyKey(c["EPISODE_ID"]);
    if key !in g {
      var copy := map["events" := Arr([])] + c;
      copy := copy - {"EVENT_ID"};
      copy := copy - {"EVENT_NARRATIVE"};
      assert copy == EpisodeCopy(c, []);
      g := g[key := copy];
      o := o + [key];
    }
    var ep := g[key];
    g := g[key := ep["events" := Arr(ep["events"].items + [c["EVENT_ID"]])]];
  }

  /** `Object.keys(episodes).map(e => episodes[e])`. */
  function EpisodeList(groups: map<string, Record>, order: seq<string>): (eps: seq<Record>)
    requires forall k :: k in order ==> k in groups
    ensures |eps| == |order|
  {
    var ks := OwnKeys(order);
    assert |ks| == |order| by {
      assert |multiset(ks)| == |multiset(order)|;
    }
    seq(|ks|, j requires 0 <= j < |ks| => assert ks[j] in multiset(order); groups[ks[j]])
  }

  /** An episode of the list is the group of one of the ordered keys. */
  lemma EpisodeListFrom(groups: map<string, Record>, order: seq<string>, ep: Record)
    requires (forall k :: k in order ==> k in groups) && ep in EpisodeList(groups, order)
    ensures exists k :: k in order && k in groups && ep == groups[k]
  {
    var ks := OwnKeys(order);
    var j :| 0 <= j < |EpisodeList(groups, order)| && EpisodeList(groups, order)[j] == ep;
    assert ks[j] in multiset(order);
    assert ep == groups[ks[j]];
  }

  // ---------------------------------------------------------------------------
  // The year, as a fold over the rows from the last one back
  // ---------------------------------------------------------------------------

  predicate AllDustRows(rows: seq<Record>)
  {
    forall i :: 0 <= i < |rows| ==> DustRow(rows[i])
  }

  /** The kept events, rewritten, in their original order. */
  function Converted(rows: seq<Record>, searchType: string, dataType: string, parse: string -> Stamp): (cs: seq<Record>)
    requires AllDustRows(rows)
    ensures |cs| <= |rows|
  {
    if rows == [] then []
    else
      (if Retained(rows[0], searchType, dataType) then [Rewritten(rows[0], dataType, parse)] else []) +
      Converted(rows[1..], searchType, dataType, parse)
  }

  /** The totals with what a raw row adds to each. */
  function AddRaw(totals: seq<real>, e: Record): (r: seq<real>)
    requires |totals| == |LossFields| && DustRow(e)
    ensures |r| == |LossFields|
  {
    seq(|LossFields|, j requires 0 <= j < |LossFields| => totals[j] + RawLoss(e, j))
  }

  /** The year's `totalLosses`. */
  function Totals(rows: seq<Record>, searchType: string, dataType: string): (t: seq<real>)
    requires AllDustRows(rows)
    ensures |t| == |LossFields|
  {
    if rows == [] then ZeroLosses
    else
      var rest := Totals(rows[1..], searchType, dataType);
      if Retained(rows[0], searchType, dataType) then AddRaw(rest, rows[0]) else rest
  }

  /** The year's `episodes` object: the rows are filed from the last one back. */
  function Grouped(rows: seq<Record>, searchType: string, dataType: string, parse: string -> Stamp): (g: map<string, Record>)
    requires AllDustRows(rows)
    ensures GroupsShaped(g)
  {
    if rows == [] then map[]
    else
      var rest := Grouped(rows[1..], searchType, dataType, parse);
      if Retained(rows[0], searchType, dataType) then
        RewrittenIds(rows[0], dataType, parse);
        AddToGroup(rest, Rewritten(rows[0], dataType, parse))
      else rest
  }

  /** No key twice. */
  predicate Distinct(s: seq<string>)
  {
    forall i, j :: 0 <= i < j < |s| ==> s[i] != s[j]
  }

  /** The order in which the episode properties were created: each kept episode once. */
  function Order(rows: seq<Record>, searchType: string, dataType: string, parse: string -> Stamp): (o: seq<string>)
    requires AllDustRows(rows)
    ensures forall k :: k in o <==> k in Grouped(rows, searchType, dataType, parse)
    ensures Distinct(o)
  {
    if rows == [] then []
    else
      var rest := Order(rows[1..], searchType, dataType, parse);
      if Retained(rows[0], searchType, dataType) then
        RewrittenIds(rows[0], dataType, parse);
        if EpisodeKey(rows[0]) !in Grouped(rows[1..], searchType, dataType, parse)
        then rest + [EpisodeKey(rows[0])]
        else rest
      else rest
  }

  /** Adding a rewritten event's `losses` adds what its raw row says. */
  lemma TotalsStep(e: Record, rest: seq<real>, dataType: string, parse: string -> Stamp)
    requires DustRow(e) && |rest| == |LossFields|
    ensures "losses" in Rewritten(e, dataType, parse) && Rewritten(e, dataType, parse)["losses"].Obj?
    ensures HasLossKeys(Rewritten(e, dataType, parse)["losses"].props)
    ensures AddLosses(rest, Rewritten(e, dataType, parse)["losses"].props) == AddRaw(rest, e)
  {
    RewrittenLosses(e, dataType, parse);
    var props := Rewritten(e, dataType, parse)["losses"].props;
    var added := AddLosses(rest, props);
    forall j | 0 <= j < |LossFields| ensures added[j] == AddRaw(rest, e)[j] {
    }
  }

  /** One step of the backward fold: the first of the remaining rows is met last. */
  lemma FoldStep(t: seq<Record>, searchType: string, dataType: string, parse: string -> Stamp)
    requires AllDustRows(t) && t != []
    ensures AllDustRows(t[1..])
    ensures var kept := Retained(t[0], searchType, dataType);
      && Converted(t, searchType, dataType, parse) ==
           (if kept then [Rewritten(t[0], dataType, parse)] else []) + Converted(t[1..], searchType, dataType, parse)
      && Totals(t, searchType, dataType) ==
           (if kept then AddRaw(Totals(t[1..], searchType, dataType), t[0]) else Totals(t[1..], searchType, dataType))
  {
  }

  /** The same step on the episodes and the order of their keys. */
  lemma FoldGroupStep(t: seq<Record>, searchType: string, dataType: string, parse: string -> Stamp)
    requires AllDustRows(t) && t != []
    ensures AllDustRows(t[1..])
    ensures "EPISODE_ID" in Rewritten(t[0], dataType, parse) && "EVENT_ID" in Rewritten(t[0], dataType, parse)
    ensures Rewritten(t[0], dataType, parse)["EPISODE_ID"] == t[0]["EPISODE_ID"]
    ensures var kept := Retained(t[0], searchType, dataType);
      && Grouped(t, searchType, dataType, parse) ==
           (if kept then AddToGroup(Grouped(t[1..], searchType, dataType, parse), Rewritten(t[0], dataType, parse))
            else Grouped(t[1..], searchType, dataType, parse))
      && Order(t, searchType, dataType, parse) ==
           (if kept && EpisodeKey(t[0]) !in Grouped(t[1..], searchType, dataType, parse)
            then Order(t[1..], searchType, dataType, parse) + [EpisodeKey(t[0])]
            else Order(t[1..], searchType, dataType, parse))
  {
    RewrittenIds(t[0], dataType, parse);
  }

  /** Splicing out element `i` of `p + [x] + q`, where `|p| == i`, or replacing it. */
  lemma SpliceAt(p: seq<Record>, x: Record, q: seq<Record>, i: nat, c: Record)
    requires |p| == i
    ensures var s := p + [x] + q; i < |s| && s[i] == x && s[..i] + s[i + 1..] == p + q && s[i := c] == p + ([c] + q)
  {
    var s := p + [x] + q;
    assert s[..i] == p;
    assert s[i + 1..] == q;
  }

  /** The body of the backward loop for a kept event: rewrite it, add its losses, file it under its episode. */
  method KeepEvent(e: Record, totals: seq<real>, groups: map<string, Record>, order: seq<string>,
                   dataType: string, parse: string -> Stamp)
    returns (c: Record, totals': seq<real>, groups': map<string, Record>, order': seq<string>)
    requires DustRow(e) && |totals| == |LossFields| && GroupsShaped(groups)
    ensures c == Rewritten(e, dataType, parse)
    ensures "EPISODE_ID" in c && c["EPISODE_ID"] == e["EPISODE_ID"] && "EVENT_ID" in c
    ensures totals' == AddRaw(totals, e)
    ensures groups' == AddToGroup(groups, c)
    ensures order' == if EpisodeKey(e) in groups then order else order + [EpisodeKey(e)]
  {
    c := RewriteEvent(e, dataType, parse);
    TotalsStep(e, totals, dataType, parse);
    totals' := AddLossTotals(totals, c["losses"].props);
    RewrittenIds(e, dataType, parse);
    groups', order' := FileUnderEpisode(groups, order, c);
  }

  /**
   * The state of the backward loop once rows `i..` are processed: the rows before `i`
   * untouched, the rest converted, and the totals, episodes and episode order of the
   * processed rows.
   */
  predicate YearState(rows: seq<Record>, i: nat, events: seq<Record>, totals: seq<real>,
                      groups: map<string, Record>, order: seq<string>,
                      searchType: string, dataType: string, parse: string -> Stamp)
    requires AllDustRows(rows)
  {
    && i <= |rows|
    && events == rows[..i] + Converted(rows[i..], searchType, dataType, parse)
    && totals == Totals(rows[i..], searchType, dataType)
    && groups == Grouped(rows[i..], searchType, dataType, parse)
    && order == Order(rows[i..], searchType, dataType, parse)
  }

  /** Before the pass at index `i`, the event there is still the raw row. */
  lemma StepFront(rows: seq<Record>, i: nat, events: seq<Record>, totals: seq<real>,
                  groups: map<string, Record>, order: seq<string>,
                  searchType: string, dataType: string, parse: string -> Stamp)
    requires AllDustRows(rows) && i < |rows|
    requires YearState(rows, i + 1, events, totals, groups, order, searchType, dataType, parse)
    ensures i < |events| && events[i] == rows[i]
    ensures |totals| == |LossFields| && GroupsShaped(groups)
    ensures events == rows[..i] + [rows[i]] + Converted(rows[i + 1..], searchType, dataType, parse)
  {
    assert rows[..i + 1] == rows[..i] + [rows[i]];
  }

  /** A rejected row is spliced out and changes nothing else. */
  lemma RejectStep(rows: seq<Record>, i: nat, events: seq<Record>, totals: seq<real>,
                   groups: map<string, Record>, order: seq<string>,
                   searchType: string, dataType: string, parse: string -> Stamp)
    requires AllDustRows(rows) && i < |rows| && !Retained(rows[i], searchType, dataType)
    requires YearState(rows, i + 1, events, totals, groups, order, searchType, dataType, parse)
    ensures i < |events|
    ensures YearState(rows, i, events[..i] + events[i + 1..], totals, groups, order, searchType, dataType, parse)
  {
    StepFront(rows, i, events, totals, groups, order, searchType, dataType, parse);
    var t := rows[i..];
    var rest := Converted(rows[i + 1..], searchType, dataType, parse);
    assert t[0] == rows[i] && t[1..] == rows[i + 1..];
    FoldStep(t, searchType, dataType, parse);
    FoldGroupStep(t, searchType, dataType, parse);
    SpliceAt(rows[..i], rows[i], rest, i, rows[i]);
    assert Converted(t, searchType, dataType, parse) == rest;
  }

  /** A kept row is replaced by its rewrite, added to the totals and filed under its episode. */
  lemma KeepStep(rows: seq<Record>, i: nat, events: seq<Record>, totals: seq<real>,
                 groups: map<string, Record>, order: seq<string>,
                 searchType: string, dataType: string, parse: string -> Stamp)
    requires AllDustRows(rows) && i < |rows| && Retained(rows[i], searchType, dataType)
    requires YearState(rows, i + 1, events, totals, groups, order, searchType, dataType, parse)
    ensures i < |events| && |totals| == |LossFields| && GroupsShaped(groups)
    ensures var c := Rewritten(rows[i], dataType, parse);
      && "EPISODE_ID" in c && c["EPISODE_ID"] == rows[i]["EPISODE_ID"] && "EVENT_ID" in c
      && YearState(rows, i, events[i := c], AddRaw(totals, rows[i]), AddToGroup(groups, c),
                   if EpisodeKey(rows[i]) in groups then order else order + [EpisodeKey(rows[i])],
                   searchType, dataType, parse)
  {
    StepFront(rows, i, events, totals, groups, order, searchType, dataType, parse);
    var t := rows[i..];
    var rest := Converted(rows[i + 1..], searchType, dataType, parse);
    var c := Rewritten(rows[i], dataType, parse);
    assert t[0] == rows[i] && t[1..] == rows[i + 1..];
    FoldStep(t, searchType, dataType, parse);
    FoldGroupStep(t, searchType, dataType, parse);
    SpliceAt(rows[..i], rows[i], rest, i, c);
    assert Converted(t, searchType, dataType, parse) == [c] + rest;
  }

  /** One pass of the backward loop, at index `i`. */
  method ConvertStep(rows: seq<Record>, i: nat, events: seq<Record>, totals: seq<real>,
                     groups: map<string, Record>, order: seq<string>,
                     searchType: string, dataType: string, parse: string -> Stamp)
    returns (events': seq<Record>, totals': seq<real>, groups': map<string, Record>, order': seq<string>)
    requires AllDustRows(rows) && i < |rows|
    requires YearState(rows, i + 1, events, totals, groups, order, searchType, dataType, parse)
    ensures YearState(rows, i, events', totals', groups', order', searchType, dataType, parse)
  {
    StepFront(rows, i, events, totals, groups, order, searchType, dataType, parse);
    var keep := MatchesBoth(events[i], searchType, dataType);
    if !keep {
      RejectStep(rows, i, events, totals, groups, order, searchType, dataType, parse);
      events', totals', groups', order' := events[..i] + events[i + 1..], totals, groups, order;
    } else {
      KeepStep(rows, i, events, totals, groups, order, searchType, dataType, parse);
      var c;
      c, totals', groups', order' := KeepEvent(events[i], totals, groups, order, dataType, parse);
      events' := events[i := c];
    }
  }

  /**
   * `convertDustDB` on one year's rows, once they are read: the backward loop that
   * splices out the rejected events, rewrites the kept ones in place, adds up their
   * losses and files them under their episodes; then `Object.keys` lists the episodes.
   */
  method ConvertDustDB(rows: seq<Record>, searchType: string, dataType: string, parse: string -> Stamp)
    returns (events: seq<Record>, numEvents: nat, episodes: seq<Record>, totalLosses: seq<real>)
    requires AllDustRows(rows)
    ensures numEvents == |rows|
    ensures events == Converted(rows, searchType, dataType, parse)
    ensures totalLosses == Totals(rows, searchType, dataType)
    ensures episodes == EpisodeList(Grouped(rows, searchType, dataType, parse), Order(rows, searchType, dataType, parse))
  {
    events := rows;
    numEvents := |events|;
    totalLosses := ZeroLosses;
    var groups: map<string, Record> := map[];
    var order: seq<string> := [];
    var i := |events|;
    assert rows[i..] == [];
    while i > 0
      invariant YearState(rows, i, events, totalLosses, groups, order, searchType, dataType, parse)
    {
      i := i - 1;
      events, totalLosses, groups, order :=
        ConvertStep(rows, i, events, totalLosses, groups, order, searchType, dataType, parse);
    }
    assert rows[0..] == rows;
    episodes := EpisodeList(groups, order);
  }

  // ---------------------------------------------------------------------------
  // What the episodes hold
  // ---------------------------------------------------------------------------

  /** Row `i` is kept and belongs to the episode with key `k`. */
  predicate KeptUnder(rows: seq<Record>, searchType: string, dataType: string, i: int, k: string)
    requires AllDustRows(rows)
  {
    0 <= i < |rows| && Retained(rows[i], searchType, dataType) && EpisodeKey(rows[i]) == k
  }

  /** The EVENT_IDs of the kept events of episode `k`, in file order. */
  function IdsWith(rows: seq<Record>, searchType: string, dataType: string, k: string): (ids: seq<Value>)
    requires AllDustRows(rows)
    ensures ids != [] <==> exists i :: KeptUnder(rows, searchType, dataType, i, k)
  {
    if rows == [] then []
    else
      var rest := IdsWith(rows[1..], searchType, dataType, k);
      assert forall i :: KeptUnder(rows[1..], searchType, dataType, i, k) ==> KeptUnder(rows, searchType, dataType, i + 1, k);
      assert forall i :: 0 < i && KeptUnder(rows, searchType, dataType, i, k) ==> KeptUnder(rows[1..], searchType, dataType, i - 1, k);
      (if KeptUnder(rows, searchType, dataType, 0, k) then [rows[0]["EVENT_ID"]] else []) + rest
  }

  /** The last kept event of episode `k` in file order: the first one the backward loop meets. */
  function LastKept(rows: seq<Record>, searchType: string, dataType: string, k: string): (i: nat)
    requires AllDustRows(rows) && IdsWith(rows, searchType, dataType, k) != []
    ensures KeptUnder(rows, searchType, dataType, i, k)
    ensures forall j :: i < j < |rows| ==> !KeptUnder(rows, searchType, dataType, j, k)
  {
    if IdsWith(rows[1..], searchType, dataType, k) != [] then
      var i := 1 + LastKept(rows[1..], searchType, dataType, k);
      assert forall j :: i < j < |rows| ==> KeptUnder(rows, searchType, dataType, j, k) == KeptUnder(rows[1..], searchType, dataType, j - 1, k);
      i
    else
      assert forall j :: 0 < j < |rows| ==> KeptUnder(rows, searchType, dataType, j, k) == KeptUnder(rows[1..], searchType, dataType, j - 1, k);
      0
  }

  function Reversed<T>(s: seq<T>): (r: seq<T>)
    ensures |r| == |s|
    ensures forall i :: 0 <= i < |s| ==> r[i] == s[|s| - 1 - i]
  {
    if s == [] then [] else Reversed(s[1..]) + [s[0]]
  }

  /** Pushing an id onto a fresh episode copy's list is the copy with the longer list. */
  lemma EpisodeCopyPush(c: Record, ids: seq<Value>, v: Value)
    ensures EpisodeCopy(c, ids)["events" := Arr(ids + [v])] == EpisodeCopy(c, ids + [v])
  {
  }

  /**
   * Episode `k` exists exactly when one of its events is kept; it is then a copy of
   * its last kept event in file order (less EVENT_ID and EVENT_NARRATIVE) whose
   * `events` lists the kept events' ids from the last one back.
   */
  predicate EpisodeOf(rows: seq<Record>, searchType: string, dataType: string, parse: string -> Stamp, k: string)
    requires AllDustRows(rows)
  {
    && (k in Grouped(rows, searchType, dataType, parse) <==> IdsWith(rows, searchType, dataType, k) != [])
    && (k in Grouped(rows, searchType, dataType, parse) ==>
         Grouped(rows, searchType, dataType, parse)[k] ==
           EpisodeCopy(Rewritten(rows[LastKept(rows, searchType, dataType, k)], dataType, parse),
                       Reversed(IdsWith(rows, searchType, dataType, k))))
  }

  /** Every episode of the year is as `EpisodeOf` describes it. */
  lemma {:induction false} GroupedEpisode(rows: seq<Record>, searchType: string, dataType: string, parse: string -> Stamp, k: string)
    requires AllDustRows(rows)
    ensures EpisodeOf(rows, searchType, dataType, parse, k)
  {
    if rows != [] {
      GroupedEpisode(rows[1..], searchType, dataType, parse, k);
      FoldGroupStep(rows, searchType, dataType, parse);
      if KeptUnder(rows, searchType, dataType, 0, k) {
        EpisodeHere(rows, searchType, dataType, parse, k);
      } else {
        EpisodeElsewhere(rows, searchType, dataType, parse, k);
      }
    }
  }

  /** The step where the row met is the episode's: it starts the copy or is pushed onto it. */
  lemma EpisodeHere(rows: seq<Record>, searchType: string, dataType: string, parse: string -> Stamp, k: string)
    requires AllDustRows(rows) && rows != [] && KeptUnder(rows, searchType, dataType, 0, k)
    requires EpisodeOf(rows[1..], searchType, dataType, parse, k)
    requires "EPISODE_ID" in Rewritten(rows[0], dataType, parse) && "EVENT_ID" in Rewritten(rows[0], dataType, parse)
    requires Rewritten(rows[0], dataType, parse)["EPISODE_ID"] == rows[0]["EPISODE_ID"]
    requires Grouped(rows, searchType, dataType, parse) ==
      AddToGroup(Grouped(rows[1..], searchType, dataType, parse), Rewritten(rows[0], dataType, parse))
    ensures EpisodeOf(rows, searchType, dataType, parse, k)
  {
    var tail := rows[1..];
    var ids := IdsWith(rows, searchType, dataType, k);
    var tailIds := IdsWith(tail, searchType, dataType, k);
    var c := Rewritten(rows[0], dataType, parse);
    RewrittenIds(rows[0], dataType, parse);
    assert EpisodeKey(c) == k;
    assert ids == [rows[0]["EVENT_ID"]] + tailIds;
    assert ids[1..] == tailIds;
    assert Reversed(ids) == Reversed(tailIds) + [c["EVENT_ID"]];
    if tailIds != [] {
      var last := LastKept(tail, searchType, dataType, k);
      assert LastKept(rows, searchType, dataType, k) == 1 + last;
      EpisodeCopyPush(Rewritten(tail[last], dataType, parse), Reversed(tailIds), c["EVENT_ID"]);
    } else {
      assert LastKept(rows, searchType, dataType, k) == 0;
      EpisodeCopyPush(c, [], c["EVENT_ID"]);
    }
  }

  /** The step where the row met is another episode's, or rejected: episode `k` is unchanged. */
  lemma EpisodeElsewhere(rows: seq<Record>, searchType: string, dataType: string, parse: string -> Stamp, k: string)
    requires AllDustRows(rows) && rows != [] && !KeptUnder(rows, searchType, dataType, 0, k)
    requires EpisodeOf(rows[1..], searchType, dataType, parse, k)
    requires "EPISODE_ID" in Rewritten(rows[0], dataType, parse) && "EVENT_ID" in Rewritten(rows[0], dataType, parse)
    requires Rewritten(rows[0], dataType, parse)["EPISODE_ID"] == rows[0]["EPISODE_ID"]
    requires Grouped(rows, searchType, dataType, parse) ==
      if Retained(rows[0], searchType, dataType)
      then AddToGroup(Grouped(rows[1..], searchType, dataType, parse), Rewritten(rows[0], dataType, parse))
      else Grouped(rows[1..], searchType, dataType, parse)
    ensures EpisodeOf(rows, searchType, dataType, parse, k)
  {
    var tail := rows[1..];
    assert IdsWith(rows, searchType, dataType, k) == IdsWith(tail, searchType, dataType, k);
    assert EpisodeKey(Rewritten(rows[0], dataType, parse)) == EpisodeKey(rows[0]);
    if IdsWith(tail, searchType, dataType, k) != [] {
      assert LastKept(rows, searchType, dataType, k) == 1 + LastKept(tail, searchType, dataType, k);
    }
  }
}
