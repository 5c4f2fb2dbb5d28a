/**
 * index.js: the storm-events (SED) pipeline. One CSV file per year is read row
 * by row; each row passes the configured search filter or is dropped; a kept row
 * gets UTC times and numeric losses, is added to the year's events and folded
 * into the episode it belongs to; the driver runs this for every configured year
 * and adds the yearly results up.
 */
module Ndep {
  import opened JsValues
  import opened JsText
  import opened JsNumbers
  import opened JsKeys
  import opened NdepWords

  // ---------------------------------------------------------------------------
  // Tables and column lists (index.js:75-170)
  // ---------------------------------------------------------------------------

  /** TIME_ZONE_OFFSETS: standard-time offset from UTC, in hours, per time-zone code. */
  const TimeZoneOffsets: map<string, int> := map[
    "AKST" := -9, "AST" := -4, "CST" := -6, "EST" := -5, "HST" := -10,
    "MST" := -7, "PST" := -8, "SST" := 13, "GST10" := 10]

  const LossHeadersRaw: seq<string> := [
    "INJURIES_DIRECT", "INJURIES_INDIRECT", "DEATHS_DIRECT", "DEATHS_INDIRECT",
    "DAMAGE_PROPERTY", "DAMAGE_CROPS"]

  const LossHeadersAll: seq<string> := [
    "INJURIES_DIRECT", "INJURIES_INDIRECT", "INJURIES_OVERALL",
    "DEATHS_DIRECT", "DEATHS_INDIRECT", "DEATHS_OVERALL",
    "DAMAGE_PROPERTY", "DAMAGE_CROPS", "DAMAGE_OVERALL"]

  const EpisodePrefix: string := "EPISODE_"

  /** EPISODE_LOSS_HEADERS_ALL: every loss header with the episode prefix, in the same order. */
  function EpisodeLossHeaders(): (r: seq<string>)
    ensures |r| == |LossHeadersAll|
  {
    seq(|LossHeadersAll|, i requires 0 <= i < |LossHeadersAll| => EpisodePrefix + LossHeadersAll[i])
  }

  /** The marker a merged episode property takes when its events disagree. */
  const MultipleValues: string := "(Multiple values)"

  /** HEADERS.EVENTS: the columns of the events output, written around its two anchors. */
  const EventHeaders: seq<string> :=
    EventHeadersBeforeId + ["EVENT_ID"] + EventHeadersBeforeDamage + ["DAMAGE_OVERALL"] + EventHeadersAfterDamage

  /** The event columns before EVENT_ID. */
  const EventHeadersBeforeId: seq<string> := [
    "BEGIN_YEARMONTH", "BEGIN_DAY", "BEGIN_TIME", "END_YEARMONTH", "END_DAY", "END_TIME",
    "EPISODE_ID"]

  /** The event columns between EVENT_ID and DAMAGE_OVERALL. */
  const EventHeadersBeforeDamage: seq<string> := [
    "STATE", "STATE_FIPS", "YEAR", "MONTH_NAME", "EVENT_TYPE",
    "CZ_TYPE", "CZ_FIPS", "CZ_NAME", "WFO", "BEGIN_DATE_TIME", "BEGIN_DATE_TIME_UTC",
    "CZ_TIMEZONE", "END_DATE_TIME", "END_DATE_TIME_UTC", "INJURIES_DIRECT",
    "INJURIES_INDIRECT", "INJURIES_OVERALL", "DEATHS_DIRECT", "DEATHS_INDIRECT",
    "DEATHS_OVERALL", "DAMAGE_PROPERTY", "DAMAGE_CROPS"]

  /** The event columns after DAMAGE_OVERALL. */
  const EventHeadersAfterDamage: seq<string> := [
    "SOURCE",
    "MAGNITUDE", "MAGNITUDE_TYPE", "FLOOD_CAUSE", "CATEGORY", "TOR_F_SCALE", "TOR_LENGTH",
    "TOR_WIDTH", "TOR_OTHER_WFO", "TOR_OTHER_CZ_STATE", "TOR_OTHER_CZ_FIPS",
    "TOR_OTHER_CZ_NAME", "BEGIN_RANGE", "BEGIN_AZIMUTH", "BEGIN_LOCATION", "END_RANGE",
    "END_AZIMUTH", "END_LOCATION", "BEGIN_LAT", "BEGIN_LON", "END_LAT", "END_LON",
    "EPISODE_NARRATIVE", "EVENT_NARRATIVE", "DATA_SOURCE"]

  /** `xs.indexOf(x)`: the first position of `x`, or -1. */
  function IndexOf(xs: seq<string>, x: string): (i: int)
    ensures -1 <= i
    ensures i == -1 <==> x !in xs
    ensures 0 <= i ==> i < |xs| && xs[i] == x && x !in xs[..i]
  {
    if xs == [] then -1
    else if xs[0] == x then 0
    else
      var j := IndexOf(xs[1..], x);
      if j == -1 then -1
      else
        assert xs[..j + 1] == [xs[0]] + xs[1..][..j];
        j + 1
  }

  /** `xs.splice(xs.indexOf(anchor) + 1, 0, ...items)` on a copy of `xs`. */
  function InsertAfter(xs: seq<string>, anchor: string, items: seq<string>): seq<string>
  {
    var at := IndexOf(xs, anchor) + 1;
    xs[..at] + items + xs[at..]
  }

  /** HEADERS.EPISODES, derived from HEADERS.EVENTS (index.js:168-170). */
  function EpisodeHeaders(): seq<string>
  {
    InsertAfter(InsertAfter(EventHeaders, "EVENT_ID", ["EVENT_IDS"]), "DAMAGE_OVERALL", EpisodeLossHeaders())
  }

  /** Splicing after the first occurrence of the anchor. */
  lemma InsertAfterFirst(pre: seq<string>, anchor: string, post: seq<string>, items: seq<string>)
    requires anchor !in pre
    ensures InsertAfter(pre + [anchor] + post, anchor, items) == pre + [anchor] + items + post
  {
    var xs := pre + [anchor] + post;
    assert xs[..|pre|] == pre && xs[|pre|] == anchor;
    assert xs[..|pre| + 1] == pre + [anchor] && xs[|pre| + 1..] == post;
  }

  /** Two splices, the second anchored after the first one. */
  lemma InsertTwice(pre: seq<string>, a1: string, mid: seq<string>, a2: string, post: seq<string>,
                    items1: seq<string>, items2: seq<string>)
    requires a1 !in pre
    requires a2 !in pre && a2 != a1 && a2 !in items1 && a2 !in mid
    ensures InsertAfter(InsertAfter(pre + [a1] + mid + [a2] + post, a1, items1), a2, items2) ==
      pre + [a1] + items1 + mid + [a2] + items2 + post
  {
    InsertAfterFirst(pre, a1, mid + [a2] + post, items1);
    assert pre + [a1] + mid + [a2] + post == pre + [a1] + (mid + [a2] + post);
    var first := pre + [a1] + items1 + mid;
    assert a2 !in first;
    InsertAfterFirst(first, a2, post, items2);
    assert pre + [a1] + items1 + (mid + [a2] + post) == first + [a2] + post;
  }

  /** Neither anchor occurs before its own place in the event columns. */
  lemma EventHeaderAnchors()
    ensures "EVENT_ID" !in EventHeadersBeforeId
    ensures "DAMAGE_OVERALL" !in EventHeadersBeforeId && "DAMAGE_OVERALL" != "EVENT_ID"
    ensures "DAMAGE_OVERALL" !in ["EVENT_IDS"] && "DAMAGE_OVERALL" !in EventHeadersBeforeDamage
  {
  }

  /**
   * The episode columns are the event columns with EVENT_IDS right after EVENT_ID
   * and the nine per-episode loss totals right after DAMAGE_OVERALL.
   */
  lemma EpisodeHeadersLayout()
    ensures EpisodeHeaders() ==
      EventHeadersBeforeId + ["EVENT_ID", "EVENT_IDS"] + EventHeadersBeforeDamage +
      ["DAMAGE_OVERALL"] + EpisodeLossHeaders() + EventHeadersAfterDamage
    ensures |EpisodeHeaders()| == |EventHeaders| + 10
  {
    EventHeaderAnchors();
    InsertTwice(EventHeadersBeforeId, "EVENT_ID", EventHeadersBeforeDamage, "DAMAGE_OVERALL", EventHeadersAfterDamage,
      ["EVENT_IDS"], EpisodeLossHeaders());
    assert EventHeadersBeforeId + ["EVENT_ID"] + ["EVENT_IDS"] == EventHeadersBeforeId + ["EVENT_ID", "EVENT_IDS"];
  }

  // ---------------------------------------------------------------------------
  // Search filters (index.js:16-30, 205-229)
  // ---------------------------------------------------------------------------

  const DustTypes: seq<string> := ["Dust Storm", "Dust Devil"]

  /** NON_PE_TYPES: event types the Partial Exhaustive filter excludes. */
  const NonPeTypes: seq<string> :=
    ["Winter Weather", "Heavy Snow", "Flash Flood", "Winter Storm", "Tornado", "Drought"]

  /** The names of the ten filters of the `filters` object. */
  const FilterNames: set<string> := {"A", "EO", "DO", "E", "PE", "HW", "HWD", "TW", "TWD", "HTWD"}

  /** `types.includes(event.EVENT_TYPE)` */
  predicate TypeIn(event: Record, types: seq<string>)
  {
    "EVENT_TYPE" in event && event["EVENT_TYPE"].Str? && event["EVENT_TYPE"].s in types
  }

  /** `event.EVENT_TYPE == t` */
  predicate TypeIs(event: Record, t: string)
  {
    "EVENT_TYPE" in event && event["EVENT_TYPE"] == Str(t)
  }

  /** Both narratives are present as strings (`event[key].toLowerCase()` needs them). */
  predicate HasNarratives(event: Record)
  {
    && "EVENT_NARRATIVE" in event && event["EVENT_NARRATIVE"].Str?
    && "EPISODE_NARRATIVE" in event && event["EPISODE_NARRATIVE"].Str?
  }

  /** The DO (Description Only) filter. */
  ghost predicate DescriptionOnly(event: Record)
    requires HasNarratives(event)
  {
    HasDustWord(event["EVENT_NARRATIVE"].s) || HasDustWord(event["EPISODE_NARRATIVE"].s)
  }

  /** The `filters` object as index.js fills it in. */
  ghost function FilterFlags(event: Record): map<string, bool>
    requires HasNarratives(event)
  {
    var eo := TypeIn(event, DustTypes);
    var d := DescriptionOnly(event);
    var e := eo || d;
    var hw := TypeIs(event, "High Wind");
    var tw := TypeIs(event, "Thunderstorm Wind");
    map[
      "A" := true, "EO" := eo, "DO" := d, "E" := e,
      "PE" := e && !TypeIn(event, NonPeTypes),
      "HW" := hw, "HWD" := hw && d, "TW" := tw, "TWD" := tw && d,
      "HTWD" := (hw && d) && (tw && d)]
  }

  /** `filters[filter]` is truthy: the row is kept. */
  ghost predicate Passes(filter: string, event: Record)
    requires HasNarratives(event)
  {
    filter in FilterFlags(event) && FilterFlags(event)[filter]
  }

  /**
   * What each filter name accepts, in terms of the event type and the word test;
   * a name outside the ten rejects every row.
   */
  lemma FilterMeaning(filter: string, event: Record)
    requires HasNarratives(event)
    ensures filter == "A" ==> Passes(filter, event)
    ensures filter == "EO" ==> (Passes(filter, event) <==> TypeIn(event, DustTypes))
    ensures filter == "E" ==> (Passes(filter, event) <==> TypeIn(event, DustTypes) || DescriptionOnly(event))
    ensures filter == "PE" ==>
      (Passes(filter, event) <==>
        (TypeIn(event, DustTypes) || DescriptionOnly(event)) && !TypeIn(event, NonPeTypes))
    ensures filter == "HWD" ==> (Passes(filter, event) <==> TypeIs(event, "High Wind") && DescriptionOnly(event))
    ensures filter == "TWD" ==>
      (Passes(filter, event) <==> TypeIs(event, "Thunderstorm Wind") && DescriptionOnly(event))
    ensures filter !in FilterNames ==> !Passes(filter, event)
  {
  }

  /**
   * HTWD as written (`filters.HWD && filters.TWD`) asks for an event type that is
   * both "High Wind" and "Thunderstorm Wind", so it keeps no row at all.
   */
  lemma HtwdKeepsNothing(event: Record)
    requires HasNarratives(event)
    ensures !Passes("HTWD", event)
  {
  }

  /** Every filter that asks for dust words in its name implies DO, and PE implies E. */
  lemma FilterHierarchy(event: Record)
    requires HasNarratives(event)
    ensures Passes("PE", event) ==> Passes("E", event)
    ensures Passes("EO", event) ==> Passes("E", event)
    ensures Passes("DO", event) ==> Passes("E", event)
    ensures Passes("HWD", event) ==> Passes("HW", event) && Passes("DO", event)
    ensures Passes("TWD", event) ==> Passes("TW", event) && Passes("DO", event)
  {
  }

  /** Computes the `filters` object for one row (index.js:206-228). */
  method SearchFilters(event: Record) returns (filters: map<string, bool>)
    requires HasNarratives(event)
    ensures filters == FilterFlags(event)
  {
    filters := map["A" := true];
    filters := filters["EO" := "EVENT_TYPE" in event && event["EVENT_TYPE"].Str? && event["EVENT_TYPE"].s in DustTypes];
    var d := false;
    var keys := ["EVENT_NARRATIVE", "EPISODE_NARRATIVE"];
    for k := 0 to |keys|
      invariant d <==> exists j :: 0 <= j < k && HasDustWord(event[keys[j]].s)
    {
      var found := ScanNarrative(event[keys[k]].s);
      d := d || found;
    }
    assert d <==> HasDustWord(event[keys[0]].s) || HasDustWord(event[keys[1]].s);
    filters := filters["DO" := d];
    filters := filters["E" := filters["EO"] || filters["DO"]];
    var nonPe := "EVENT_TYPE" in event && event["EVENT_TYPE"].Str? && event["EVENT_TYPE"].s in NonPeTypes;
    filters := filters["PE" := filters["E"] && !nonPe];
    filters := filters["HW" := "EVENT_TYPE" in event && event["EVENT_TYPE"] == Str("High Wind")];
    filters := filters["HWD" := filters["HW"] && filters["DO"]];
    filters := filters["TW" := "EVENT_TYPE" in event && event["EVENT_TYPE"] == Str("Thunderstorm Wind")];
    filters := filters["TWD" := filters["TW"] && filters["DO"]];
    filters := filters["HTWD" := filters["HWD"] && filters["TWD"]];
  }

  /** `if (!filters[filter]) return;` */
  method Keep(filter: string, event: Record) returns (keep: bool)
    requires HasNarratives(event)
    ensures keep == Passes(filter, event)
  {
    var filters := SearchFilters(event);
    keep := filter in filters && filters[filter];
  }

  // ---------------------------------------------------------------------------
  // Row normalisation: UTC times and numeric losses (index.js:231-258)
  // ---------------------------------------------------------------------------

  /** `String(event[k])` for a property that is a string or missing. */
  function TextOf(r: Record, k: string): (t: string)
    requires k in r ==> r[k].Str?
    ensures k in r ==> t == r[k].s
  {
    if k in r then r[k].s else "undefined"
  }

  /** Each of `keys` is a property holding a string. */
  predicate StringsAt(r: Record, keys: seq<string>)
  {
    forall i :: 0 <= i < |keys| ==> keys[i] in r && r[keys[i]].Str?
  }

  /** Each of `keys` is a property holding a number. */
  predicate NumbersAt(r: Record, keys: seq<string>)
  {
    forall i :: 0 <= i < |keys| ==> keys[i] in r && r[keys[i]].Num?
  }

  /** None of `keys` is a property. */
  predicate AbsentAt(r: Record, keys: seq<string>)
  {
    forall i :: 0 <= i < |keys| ==> keys[i] !in r
  }

  /** Each of `keys`, with `prefix` in front, is a property holding a number. */
  predicate PrefixedNumbersAt(r: Record, prefix: string, keys: seq<string>)
  {
    forall i :: 0 <= i < |keys| ==> prefix + keys[i] in r && r[prefix + keys[i]].Num?
  }

  /** No key of `keys`, with `prefix` in front, is a property. */
  predicate PrefixedAbsentAt(r: Record, prefix: string, keys: seq<string>)
  {
    forall i :: 0 <= i < |keys| ==> prefix + keys[i] !in r
  }

  /** What the row handler needs of a row to compute its columns: string properties, raw losses present. */
  predicate ParsableRow(row: Record)
  {
    AllStrings(row) && StringsAt(row, LossHeadersRaw)
  }

  /**
   * A row as csv-parser delivers it from a storm-events file: every property is a
   * string, the narratives, ids and raw loss columns are present, and none of the
   * columns the pipeline derives is there yet.
   */
  predicate StormRow(row: Record)
  {
    && ParsableRow(row)
    && HasNarratives(row)
    && "EVENT_ID" in row && "EPISODE_ID" in row
    && "EVENT_IDS" !in row && "BEGIN_DATE_TIME_UTC" !in row && "END_DATE_TIME_UTC" !in row
    && PrefixedAbsentAt(row, EpisodePrefix, LossHeadersAll)
  }

  /** `TIME_ZONE_OFFSETS[event.CZ_TIMEZONE]` is truthy: the zone code is known and its offset non-zero. */
  predicate ZoneConverts(r: Record)
    requires AllStrings(r)
  {
    var z := TextOf(r, "CZ_TIMEZONE");
    z in TimeZoneOffsets && TimeZoneOffsets[z] != 0
  }

  /** The UTC instant of one endpoint: the local date-time read as UTC, moved back by the offset. */
  function EndpointUtc(r: Record, localKey: string, offset: int, parse: string -> Stamp): Stamp
    requires AllStrings(r)
  {
    ShiftHours(parse(TextOf(r, localKey) + "Z"), offset)
  }

  /**
   * `utcKey` holds the local date-time of `localKey` moved to UTC: invalid exactly
   * when the local one does not parse, and otherwise the local reading minus the offset.
   */
  ghost predicate ConvertedTime(r: Record, u: Record, localKey: string, utcKey: string, offset: int,
                                parse: string -> Stamp)
    requires AllStrings(r)
  {
    var local := parse(TextOf(r, localKey) + "Z");
    && utcKey in u && u[utcKey].Time?
    && (u[utcKey].stamp.InvalidDate? <==> local.InvalidDate?)
    && (local.Instant? ==> u[utcKey].stamp.ms + offset * 3600000 == local.ms)
  }

  /** The row with BEGIN_DATE_TIME_UTC and END_DATE_TIME_UTC added when its zone converts. */
  function WithUtcTimes(r: Record, parse: string -> Stamp): (u: Record)
    requires AllStrings(r)
    ensures !ZoneConverts(r) ==> u == r
    ensures ZoneConverts(r) ==>
      var offset := TimeZoneOffsets[TextOf(r, "CZ_TIMEZONE")];
      && u.Keys == r.Keys + {"BEGIN_DATE_TIME_UTC", "END_DATE_TIME_UTC"}
      && (forall k :: k in r && k != "BEGIN_DATE_TIME_UTC" && k != "END_DATE_TIME_UTC" ==> u[k] == r[k])
      && ConvertedTime(r, u, "BEGIN_DATE_TIME", "BEGIN_DATE_TIME_UTC", offset, parse)
      && ConvertedTime(r, u, "END_DATE_TIME", "END_DATE_TIME_UTC", offset, parse)
  {
    if ZoneConverts(r) then
      var offset := TimeZoneOffsets[TextOf(r, "CZ_TIMEZONE")];
      r["BEGIN_DATE_TIME_UTC" := Time(EndpointUtc(r, "BEGIN_DATE_TIME", offset, parse))]
       ["END_DATE_TIME_UTC" := Time(EndpointUtc(r, "END_DATE_TIME", offset, parse))]
    else r
  }

  /** The `["BEGIN", "END"].forEach` loop that stores both UTC times (index.js:233-237). */
  method ConvertEndpoints(event: Record, parse: string -> Stamp) returns (e: Record)
    requires AllStrings(event) && ZoneConverts(event)
    ensures e == WithUtcTimes(event, parse)
  {
    var offset := TimeZoneOffsets[TextOf(event, "CZ_TIMEZONE")];
    var endpoints := [("BEGIN_DATE_TIME", "BEGIN_DATE_TIME_UTC"), ("END_DATE_TIME", "END_DATE_TIME_UTC")];
    e := event;
    for i := 0 to |endpoints|
      invariant i == 0 ==> e == event
      invariant i >= 1 ==> e == event["BEGIN_DATE_TIME_UTC" := Time(EndpointUtc(event, "BEGIN_DATE_TIME", offset, parse))]
                                     [if i == 2 then "END_DATE_TIME_UTC" else "BEGIN_DATE_TIME_UTC" :=
                                        if i == 2 then Time(EndpointUtc(event, "END_DATE_TIME", offset, parse))
                                        else Time(EndpointUtc(event, "BEGIN_DATE_TIME", offset, parse))]
    {
      var (localKey, utcKey) := endpoints[i];
      var dtUtc := ShiftHours(parse(TextOf(event, localKey) + "Z"), offset);
      e := e[utcKey := Time(dtUtc)];
    }
  }

  /** `v` scaled by the unit the last character of `s` stands for: `K` thousands, `M` millions. */
  function Scaled(v: real, s: string): real
  {
    if |s| > 0 && s[|s| - 1] == 'K' then v * 1000.0
    else if |s| > 0 && s[|s| - 1] == 'M' then v * 1000000.0
    else v
  }

  /** `x || 0` for a number that may be NaN. */
  function OrZero(x: Option<real>): real
  {
    match x case Some(v) => v case None => 0.0
  }

  /** `(parseFloat(s) || 0)` scaled by the unit of its last character. */
  function ParseLoss(s: string): (v: real)
    ensures v >= 0.0
    ensures ParseFloat(s).None? ==> v == 0.0
  {
    Scaled(OrZero(ParseFloat(s)), s)
  }

  /** A numeral without digits reads as 0, as its decimal value does. */
  lemma OrZeroDecimal(whole: string, frac: string)
    requires AllDigits(whole) && AllDigits(frac)
    ensures OrZero(DecimalNumber(whole, frac)) == DecimalValue(whole, frac)
  {
  }

  /** A one-character unit suffix, or none: anything but a digit, a decimal point or white space. */
  predicate UnitSuffix(suffix: string)
  {
    |suffix| <= 1 && (suffix == [] || (!IsDigit(suffix[0]) && suffix[0] != '.' && !JsWhiteSpace(suffix[0])))
  }

  /** The unit comes from the suffix; a text ending in a digit or a point has none. */
  lemma ScaledBySuffix(v: real, numeral: string, suffix: string)
    requires UnitSuffix(suffix)
    requires numeral == [] || IsDigit(numeral[|numeral| - 1]) || numeral[|numeral| - 1] == '.'
    ensures Scaled(v, numeral + suffix) == Scaled(v, suffix)
  {
    if suffix != [] {
      assert (numeral + suffix)[|numeral + suffix| - 1] == suffix[0];
    } else {
      assert numeral + suffix == numeral;
    }
  }

  /** A loss written `whole.frac` with an optional unit letter reads as its decimal value times the unit. */
  lemma ParseLossOfDecimal(whole: string, frac: string, suffix: string)
    requires AllDigits(whole) && AllDigits(frac) && UnitSuffix(suffix)
    ensures WellFormedAmount(whole + "." + frac + suffix)
    ensures ParseLoss(whole + "." + frac + suffix) == Scaled(DecimalValue(whole, frac), suffix)
  {
    ParseFloatOfDecimal(whole, frac, suffix);
    var numeral := whole + "." + frac;
    assert numeral[|numeral| - 1] == '.' || IsDigit(numeral[|numeral| - 1]);
    OrZeroDecimal(whole, frac);
    ScaledBySuffix(DecimalValue(whole, frac), numeral, suffix);
  }

  /** A loss written as digits with an optional unit letter reads as their value times the unit. */
  lemma ParseLossOfWhole(whole: string, suffix: string)
    requires AllDigits(whole) && UnitSuffix(suffix)
    ensures WellFormedAmount(whole + suffix)
    ensures ParseLoss(whole + suffix) == Scaled(DecimalValue(whole, ""), suffix)
  {
    ParseFloatOfWhole(whole, suffix);
    OrZeroDecimal(whole, "");
    ScaledBySuffix(DecimalValue(whole, ""), whole, suffix);
  }

  /** Plain whole amounts, as the storm-events files write them. */
  lemma WholeLossExamples()
    ensures ParseLoss("") == 0.0
    ensures ParseLoss("0") == 0.0
    ensures ParseLoss("12") == 12.0
  {
    assert ParseLoss("") == 0.0 by {
      ParseLossOfWhole("", "");
    }
    assert ParseLoss("0") == 0.0 by {
      ParseLossOfWhole("0", "");
      assert DigitsValue("0") == 0;
    }
    assert ParseLoss("12") == 12.0 by {
      ParseLossOfWhole("12", "");
      assert "12"[..1] == "1";
      assert DigitsValue("12") == 12;
    }
  }

  /** A unit letter multiplies the amount before it; alone it reads as 0. */
  lemma UnitLossExamples()
    ensures ParseLoss("3K") == 3000.0
    ensures ParseLoss("K") == 0.0
  {
    assert ParseLoss("3K") == 3000.0 by {
      ParseLossOfWhole("3", "K");
      assert "3" + "K" == "3K";
      assert DigitsValue("3") == 3;
    }
    assert ParseLoss("K") == 0.0 by {
      ParseLossOfWhole("", "K");
      assert "" + "K" == "K";
    }
  }

  /** White space in front of an amount is skipped, as `parseFloat` skips it. */
  lemma ParseLossAfterSpace(ws: string, s: string)
    requires forall i :: 0 <= i < |ws| ==> JsWhiteSpace(ws[i])
    ensures ParseLoss(ws + s) == ParseLoss(s)
  {
    ParseAfterSpace(ws, s);
    if s != [] {
      assert (ws + s)[|ws + s| - 1] == s[|s| - 1];
    } else {
      assert ws + s == ws;
    }
  }

  /** A unit-suffixed amount. */
  lemma FiveThousandExample()
    ensures ParseLoss("5" + "K") == 5000.0
  {
    ParseLossOfWhole("5", "K");
    assert DigitsValue("5") == 5;
  }

  /** The same amount after a space (" 5K"). */
  lemma SpacedLossExample()
    ensures ParseLoss(" " + ("5" + "K")) == 5000.0
  {
    ParseLossAfterSpace(" ", "5" + "K");
    FiveThousandExample();
  }

  /** A decimal amount in millions. */
  lemma MillionsExample()
    ensures ParseLoss("1.5M") == 1500000.0
  {
    ParseLossOfDecimal("1", "5", "M");
    assert "1" + "." + "5" + "M" == "1.5M";
    assert DecimalValue("1", "5") == 1.5 by {
      assert DigitsValue("1") == 1;
      assert FractionValue("5") == 0.5 by {
        assert "5"[1..] == "";
      }
    }
  }

  /** A decimal amount in thousands with two fraction digits. */
  lemma ThousandsExample()
    ensures ParseLoss("0.25K") == 250.0
  {
    ParseLossOfDecimal("0", "25", "K");
    assert "0" + "." + "25" + "K" == "0.25K";
    assert DecimalValue("0", "25") == 0.25 by {
      assert DigitsValue("0") == 0;
      assert FractionValue("5") == 0.5 by {
        assert "5"[1..] == "";
      }
      assert FractionValue("25") == 0.25 by {
        assert "25"[1..] == "5";
      }
    }
  }

  /** The six raw loss columns are distinct, and so are the nine loss columns. */
  lemma LossHeadersDistinct()
    ensures forall i, j :: 0 <= i < j < |LossHeadersRaw| ==> LossHeadersRaw[i] != LossHeadersRaw[j]
    ensures forall i, j :: 0 <= i < j < |LossHeadersAll| ==> LossHeadersAll[i] != LossHeadersAll[j]
  {
  }

  /** The record after the first `n` of `keys` were replaced, in order, by the number `amount` reads from their text. */
  function LossesParsed(r: Record, keys: seq<string>, n: nat, amount: string -> real): (p: Record)
    requires StringsAt(r, keys) && n <= |keys|
    ensures p.Keys == r.Keys
  {
    if n == 0 then r
    else
      var key := keys[n - 1];
      LossesParsed(r, keys, n - 1, amount)[key := Num(amount(r[key].s))]
  }

  /** A parsed column holds its amount; every other column is unchanged. */
  lemma {:induction false} LossesParsedAt(r: Record, keys: seq<string>, n: nat, amount: string -> real, k: string)
    requires StringsAt(r, keys) && n <= |keys|
    requires k in r
    ensures LossesParsed(r, keys, n, amount)[k] == if k in keys[..n] then Num(amount(r[k].s)) else r[k]
  {
    if n > 0 {
      LossesParsedAt(r, keys, n - 1, amount, k);
      assert keys[..n] == keys[..n - 1] + [keys[n - 1]];
    }
  }

  /** The `LOSS_HEADERS_RAW.forEach` loop that parses each raw loss (index.js:244-254). */
  method ParseLosses(event: Record) returns (e: Record)
    requires StringsAt(event, LossHeadersRaw)
    ensures e == LossesParsed(event, LossHeadersRaw, |LossHeadersRaw|, ParseLoss)
  {
    e := event;
    for i := 0 to |LossHeadersRaw|
      invariant e == LossesParsed(event, LossHeadersRaw, i, ParseLoss)
    {
      var key := LossHeadersRaw[i];
      LossHeadersRawFresh(i);
      LossesParsedNext(event, LossHeadersRaw, i, ParseLoss);
      var text := e[key].s;
      var val := OrZero(ParseFloat(text));
      val := ScaleByUnit(val, text);
      e := e[key := Num(val)];
    }
  }

  /** Each raw loss column appears once, so it still holds its text when its turn comes. */
  lemma LossHeadersRawFresh(i: nat)
    requires i < |LossHeadersRaw|
    ensures LossHeadersRaw[i] !in LossHeadersRaw[..i]
  {
    LossHeadersDistinct();
  }

  /** One more step of `LossesParsed`, taken on a column not parsed yet. */
  lemma LossesParsedNext(r: Record, keys: seq<string>, i: nat, amount: string -> real)
    requires StringsAt(r, keys) && i < |keys| && keys[i] !in keys[..i]
    ensures keys[i] in LossesParsed(r, keys, i, amount)
    ensures LossesParsed(r, keys, i, amount)[keys[i]] == r[keys[i]]
    ensures LossesParsed(r, keys, i + 1, amount) ==
      LossesParsed(r, keys, i, amount)[keys[i] := Num(amount(r[keys[i]].s))]
  {
    LossesParsedAt(r, keys, i, amount, keys[i]);
  }

  /** The `switch` on the last character of a loss: `K` multiplies by 1e3, `M` by 1e6. */
  method ScaleByUnit(val: real, text: string) returns (scaled: real)
    ensures scaled == Scaled(val, text)
  {
    scaled := val;
    if |text| > 0 && text[|text| - 1] == 'K' {
      scaled := scaled * 1000.0;
    } else if |text| > 0 && text[|text| - 1] == 'M' {
      scaled := scaled * 1000000.0;
    }
  }

  function Amount(r: Record, k: string): real
    requires k in r && r[k].Num?
  {
    r[k].n
  }

  /** The three `*_OVERALL` sums (index.js:255-257); no other column changes. */
  function WithOverall(r: Record): (w: Record)
    requires NumbersAt(r, LossHeadersRaw)
    ensures w.Keys == r.Keys + {"INJURIES_OVERALL", "DEATHS_OVERALL", "DAMAGE_OVERALL"}
    ensures forall k :: k in r && k != "INJURIES_OVERALL" && k != "DEATHS_OVERALL" && k != "DAMAGE_OVERALL" ==>
      w[k] == r[k]
  {
    assert LossHeadersRaw[0] == "INJURIES_DIRECT" && LossHeadersRaw[1] == "INJURIES_INDIRECT";
    assert LossHeadersRaw[2] == "DEATHS_DIRECT" && LossHeadersRaw[3] == "DEATHS_INDIRECT";
    assert LossHeadersRaw[4] == "DAMAGE_PROPERTY" && LossHeadersRaw[5] == "DAMAGE_CROPS";
    r["INJURIES_OVERALL" := Num(Amount(r, "INJURIES_DIRECT") + Amount(r, "INJURIES_INDIRECT"))]
     ["DEATHS_OVERALL" := Num(Amount(r, "DEATHS_DIRECT") + Amount(r, "DEATHS_INDIRECT"))]
     ["DAMAGE_OVERALL" := Num(Amount(r, "DAMAGE_PROPERTY") + Amount(r, "DAMAGE_CROPS"))]
  }

  /** The `j`-th overall column, `LossHeadersAll[3 * j + 2]`, holds the sum of raw columns `2 * j` and `2 * j + 1`. */
  lemma WithOverallAt(r: Record, j: nat)
    requires NumbersAt(r, LossHeadersRaw) && j < 3
    ensures LossHeadersAll[3 * j + 2] in WithOverall(r)
    ensures WithOverall(r)[LossHeadersAll[3 * j + 2]] ==
      Num(r[LossHeadersRaw[2 * j]].n + r[LossHeadersRaw[2 * j + 1]].n)
  {
    if j == 0 {
      assert LossHeadersRaw[0] == "INJURIES_DIRECT" && LossHeadersRaw[1] == "INJURIES_INDIRECT";
    } else if j == 1 {
      assert LossHeadersRaw[2] == "DEATHS_DIRECT" && LossHeadersRaw[3] == "DEATHS_INDIRECT";
    } else {
      assert LossHeadersRaw[4] == "DAMAGE_PROPERTY" && LossHeadersRaw[5] == "DAMAGE_CROPS";
    }
  }

  /** After parsing, every parsed column holds a number. */
  lemma ParsedAreNumbers(r: Record, keys: seq<string>, amount: string -> real)
    requires StringsAt(r, keys)
    ensures NumbersAt(LossesParsed(r, keys, |keys|, amount), keys)
  {
    forall i | 0 <= i < |keys|
      ensures keys[i] in LossesParsed(r, keys, |keys|, amount)
      ensures LossesParsed(r, keys, |keys|, amount)[keys[i]].Num?
    {
      LossesParsedIndex(r, keys, amount, i);
    }
  }

  /** The `i`-th parsed column holds the amount read from its text. */
  lemma LossesParsedIndex(r: Record, keys: seq<string>, amount: string -> real, i: nat)
    requires StringsAt(r, keys) && i < |keys|
    ensures keys[i] in LossesParsed(r, keys, |keys|, amount)
    ensures LossesParsed(r, keys, |keys|, amount)[keys[i]] == Num(amount(r[keys[i]].s))
  {
    LossesParsedAt(r, keys, |keys|, amount, keys[i]);
    assert keys[..|keys|] == keys;
  }

  /** Adding the UTC times leaves the raw losses alone. */
  lemma UtcKeepsLosses(row: Record, parse: string -> Stamp)
    requires ParsableRow(row)
    ensures StringsAt(WithUtcTimes(row, parse), LossHeadersRaw)
    ensures forall i :: 0 <= i < |LossHeadersRaw| ==>
      WithUtcTimes(row, parse)[LossHeadersRaw[i]] == row[LossHeadersRaw[i]]
  {
  }

  /**
   * The row handler's steps on a kept row (index.js:231-257), with the reading of
   * an amount as a parameter: the UTC times, the parsed raw losses, the sums.
   */
  function NormalizeWith(row: Record, parse: string -> Stamp, amount: string -> real): Record
    requires ParsableRow(row)
  {
    WithOverall(ParsedRow(row, parse, amount))
  }

  /** The row with its UTC times and its raw losses read as numbers. */
  function ParsedRow(row: Record, parse: string -> Stamp, amount: string -> real): (p: Record)
    requires ParsableRow(row)
    ensures NumbersAt(p, LossHeadersRaw)
  {
    var u := WithUtcTimes(row, parse);
    UtcKeepsLosses(row, parse);
    ParsedAreNumbers(u, LossHeadersRaw, amount);
    LossesParsed(u, LossHeadersRaw, |LossHeadersRaw|, amount)
  }

  /** The `i`-th raw loss of the parsed row is the amount read from the row's text. */
  lemma ParsedRowRaw(row: Record, parse: string -> Stamp, amount: string -> real, i: nat)
    requires ParsableRow(row) && i < |LossHeadersRaw|
    ensures LossHeadersRaw[i] in ParsedRow(row, parse, amount)
    ensures ParsedRow(row, parse, amount)[LossHeadersRaw[i]] == Num(amount(row[LossHeadersRaw[i]].s))
  {
    var u := WithUtcTimes(row, parse);
    UtcKeepsLosses(row, parse);
    LossesParsedIndex(u, LossHeadersRaw, amount, i);
  }

  /** A column other than the raw losses is as the UTC step left it. */
  lemma ParsedRowKeeps(row: Record, parse: string -> Stamp, amount: string -> real, k: string)
    requires ParsableRow(row) && k !in LossHeadersRaw
    ensures k in ParsedRow(row, parse, amount) <==> k in WithUtcTimes(row, parse)
    ensures k in WithUtcTimes(row, parse) ==> ParsedRow(row, parse, amount)[k] == WithUtcTimes(row, parse)[k]
  {
    var u := WithUtcTimes(row, parse);
    UtcKeepsLosses(row, parse);
    if k in u {
      LossesParsedAt(u, LossHeadersRaw, |LossHeadersRaw|, amount, k);
      assert LossHeadersRaw[..|LossHeadersRaw|] == LossHeadersRaw;
    }
  }

  /** What the row handler makes of a kept row before it is stored. */
  function Normalize(row: Record, parse: string -> Stamp): Record
    requires ParsableRow(row)
  {
    NormalizeWith(row, parse, ParseLoss)
  }

  /** No property holds `null`: the loose `== undefined` tests of the merge then mean "missing". */
  predicate NoNulls(r: Record)
  {
    forall k :: k in r ==> r[k] != Null
  }

  /** An event as it is stored in `yrEvents`. */
  predicate NormalEvent(e: Record)
  {
    && NoNulls(e)
    && "EVENT_ID" in e && e["EVENT_ID"].Str?
    && "EPISODE_ID" in e && e["EPISODE_ID"].Str?
    && NumbersAt(e, LossHeadersAll)
    && "EVENT_IDS" !in e
    && PrefixedAbsentAt(e, EpisodePrefix, LossHeadersAll)
  }

  /** A column the row handler computes: a loss column or a UTC time. */
  predicate Computed(k: string)
  {
    k in LossHeadersAll || k == "BEGIN_DATE_TIME_UTC" || k == "END_DATE_TIME_UTC"
  }

  /** The `i`-th raw loss holds the amount read from the row's text. */
  lemma NormalizeWithRaw(row: Record, parse: string -> Stamp, amount: string -> real, i: nat)
    requires ParsableRow(row) && i < |LossHeadersRaw|
    ensures var e := NormalizeWith(row, parse, amount);
      LossHeadersRaw[i] in e && e[LossHeadersRaw[i]] == Num(amount(row[LossHeadersRaw[i]].s))
  {
    ParsedRowRaw(row, parse, amount, i);
    var k := LossHeadersRaw[i];
    assert k != "INJURIES_OVERALL" && k != "DEATHS_OVERALL" && k != "DAMAGE_OVERALL";
  }

  /**
   * Each `*_OVERALL` column is the sum of the amounts read from its two parts: the
   * `j`-th overall column, `LossHeadersAll[3 * j + 2]`, adds raw columns `2 * j` and `2 * j + 1`.
   */
  lemma NormalizeWithOverall(row: Record, parse: string -> Stamp, amount: string -> real, j: nat)
    requires ParsableRow(row) && j < 3
    ensures var e := NormalizeWith(row, parse, amount);
      && LossHeadersAll[3 * j + 2] in e
      && e[LossHeadersAll[3 * j + 2]] ==
           Num(amount(row[LossHeadersRaw[2 * j]].s) + amount(row[LossHeadersRaw[2 * j + 1]].s))
  {
    ParsedRowRaw(row, parse, amount, 2 * j);
    ParsedRowRaw(row, parse, amount, 2 * j + 1);
    WithOverallAt(ParsedRow(row, parse, amount), j);
  }

  /** Every column the handler does not compute keeps the row's value, and no other column appears. */
  lemma NormalizeWithKeeps(row: Record, parse: string -> Stamp, amount: string -> real, k: string)
    requires ParsableRow(row) && !Computed(k)
    ensures k in NormalizeWith(row, parse, amount) <==> k in row
    ensures k in row ==> NormalizeWith(row, parse, amount)[k] == row[k]
  {
    assert k !in LossHeadersRaw;
    ParsedRowKeeps(row, parse, amount, k);
  }

  /** The UTC columns are there exactly when the zone converts, and then hold the converted times. */
  lemma NormalizeWithTimes(row: Record, parse: string -> Stamp, amount: string -> real)
    requires ParsableRow(row) && "BEGIN_DATE_TIME_UTC" !in row && "END_DATE_TIME_UTC" !in row
    ensures var e := NormalizeWith(row, parse, amount);
      && ("BEGIN_DATE_TIME_UTC" in e <==> ZoneConverts(row))
      && ("END_DATE_TIME_UTC" in e <==> ZoneConverts(row))
      && (ZoneConverts(row) ==>
            var offset := TimeZoneOffsets[TextOf(row, "CZ_TIMEZONE")];
            && ConvertedTime(row, e, "BEGIN_DATE_TIME", "BEGIN_DATE_TIME_UTC", offset, parse)
            && ConvertedTime(row, e, "END_DATE_TIME", "END_DATE_TIME_UTC", offset, parse))
  {
    ParsedRowKeeps(row, parse, amount, "BEGIN_DATE_TIME_UTC");
    ParsedRowKeeps(row, parse, amount, "END_DATE_TIME_UTC");
  }

  /** Where the raw columns sit among the nine loss columns: two raw columns, then their sum, three times. */
  lemma LossHeadersLayout()
    ensures forall j :: 0 <= j < 3 ==> LossHeadersAll[3 * j] == LossHeadersRaw[2 * j]
    ensures forall j :: 0 <= j < 3 ==> LossHeadersAll[3 * j + 1] == LossHeadersRaw[2 * j + 1]
  {
  }

  /** Every loss column of a parsed row holds a number. */
  lemma NormalizeWithNumbers(row: Record, parse: string -> Stamp, amount: string -> real)
    requires ParsableRow(row)
    ensures NumbersAt(NormalizeWith(row, parse, amount), LossHeadersAll)
  {
    forall i | 0 <= i < |LossHeadersAll|
      ensures LossHeadersAll[i] in NormalizeWith(row, parse, amount)
      ensures NormalizeWith(row, parse, amount)[LossHeadersAll[i]].Num?
    {
      NormalizeWithNumberAt(row, parse, amount, i);
    }
  }

  lemma NormalizeWithNumberAt(row: Record, parse: string -> Stamp, amount: string -> real, i: nat)
    requires ParsableRow(row) && i < |LossHeadersAll|
    ensures LossHeadersAll[i] in NormalizeWith(row, parse, amount)
    ensures NormalizeWith(row, parse, amount)[LossHeadersAll[i]].Num?
  {
    var j := i / 3;
    if i % 3 == 2 {
      assert i == 3 * j + 2;
      NormalizeWithOverall(row, parse, amount, j);
    } else if i % 3 == 1 {
      assert LossHeadersAll[i] == LossHeadersRaw[2 * j + 1] by {
        assert i == 3 * j + 1;
        LossHeadersLayout();
      }
      NormalizeWithRaw(row, parse, amount, 2 * j + 1);
    } else {
      assert LossHeadersAll[i] == LossHeadersRaw[2 * j] by {
        assert i == 3 * j;
        LossHeadersLayout();
      }
      NormalizeWithRaw(row, parse, amount, 2 * j);
    }
  }

  /** No property of a parsed row is `null`: strings, numbers and times only. */
  lemma NormalizeWithNoNulls(row: Record, parse: string -> Stamp, amount: string -> real)
    requires ParsableRow(row) && "BEGIN_DATE_TIME_UTC" !in row && "END_DATE_TIME_UTC" !in row
    ensures NoNulls(NormalizeWith(row, parse, amount))
  {
    var e := NormalizeWith(row, parse, amount);
    NormalizeWithNumbers(row, parse, amount);
    NormalizeWithTimes(row, parse, amount);
    forall k | k in e ensures e[k] != Null {
      if !Computed(k) {
        NormalizeWithKeeps(row, parse, amount, k);
      } else if k in LossHeadersAll {
        var i :| 0 <= i < |LossHeadersAll| && LossHeadersAll[i] == k;
      }
    }
  }

  /** The row's ids survive, and the list of merged ids is not there yet. */
  lemma NormalizeWithIds(row: Record, parse: string -> Stamp, amount: string -> real)
    requires ParsableRow(row)
    requires "EVENT_ID" in row && "EPISODE_ID" in row && "EVENT_IDS" !in row
    ensures var e := NormalizeWith(row, parse, amount);
      && "EVENT_ID" in e && e["EVENT_ID"] == row["EVENT_ID"]
      && "EPISODE_ID" in e && e["EPISODE_ID"] == row["EPISODE_ID"]
      && "EVENT_IDS" !in e
  {
    NotComputedByLetter("EVENT_ID");
    NotComputedByLetter("EPISODE_ID");
    NotComputedByLetter("EVENT_IDS");
    NormalizeWithKeeps(row, parse, amount, "EVENT_ID");
    NormalizeWithKeeps(row, parse, amount, "EPISODE_ID");
    NormalizeWithKeeps(row, parse, amount, "EVENT_IDS");
  }

  /** None of the episode total columns is there yet. */
  lemma NormalizeWithNoTotals(row: Record, parse: string -> Stamp, amount: string -> real)
    requires ParsableRow(row) && PrefixedAbsentAt(row, EpisodePrefix, LossHeadersAll)
    ensures PrefixedAbsentAt(NormalizeWith(row, parse, amount), EpisodePrefix, LossHeadersAll)
  {
    forall i | 0 <= i < |LossHeadersAll| ensures EpisodePrefix + LossHeadersAll[i] !in NormalizeWith(row, parse, amount) {
      var k := EpisodePrefix + LossHeadersAll[i];
      assert k[1] == 'P';
      NotComputedByLetter(k);
      NormalizeWithKeeps(row, parse, amount, k);
    }
  }

  /** No computed column has `P` or `V` for its second letter: `EPISODE_*` and `EVENT_*` columns are not computed. */
  lemma NotComputedByLetter(k: string)
    requires |k| >= 2 && (k[1] == 'P' || k[1] == 'V')
    ensures !Computed(k)
  {
  }

  /** A row from a storm-events file becomes an event of the shape `yrEvents` holds. */
  lemma NormalizedIsEvent(row: Record, parse: string -> Stamp)
    requires StormRow(row)
    ensures NormalEvent(Normalize(row, parse))
  {
    NormalizeWithNumbers(row, parse, ParseLoss);
    NormalizeWithNoNulls(row, parse, ParseLoss);
    NormalizeWithIds(row, parse, ParseLoss);
    NormalizeWithNoTotals(row, parse, ParseLoss);
  }

  /** A raw loss of a stored event is the amount `ParseLoss` reads from the row's text. */
  lemma NormalizedRawLoss(row: Record, parse: string -> Stamp, i: nat)
    requires ParsableRow(row) && i < |LossHeadersRaw|
    ensures LossHeadersRaw[i] in Normalize(row, parse)
    ensures Normalize(row, parse)[LossHeadersRaw[i]] == Num(ParseLoss(row[LossHeadersRaw[i]].s))
  {
    NormalizeWithRaw(row, parse, ParseLoss, i);
  }

  /** An overall loss of a stored event is the sum of what `ParseLoss` reads from its two parts. */
  lemma NormalizedOverall(row: Record, parse: string -> Stamp, j: nat)
    requires ParsableRow(row) && j < 3
    ensures LossHeadersAll[3 * j + 2] in Normalize(row, parse)
    ensures Normalize(row, parse)[LossHeadersAll[3 * j + 2]] ==
      Num(ParseLoss(row[LossHeadersRaw[2 * j]].s) + ParseLoss(row[LossHeadersRaw[2 * j + 1]].s))
  {
    NormalizeWithOverall(row, parse, ParseLoss, j);
  }

  // ---------------------------------------------------------------------------
  // Episodes (index.js:261-276)
  // ---------------------------------------------------------------------------

  predicate Distinct(keys: seq<string>)
  {
    forall i, j :: 0 <= i < j < |keys| ==> keys[i] != keys[j]
  }

  /** Putting the same prefix in front of two different keys gives two different keys. */
  lemma PrefixInjective(prefix: string, a: string, b: string)
    requires prefix + a == prefix + b
    ensures a == b
  {
    assert a == (prefix + a)[|prefix|..];
    assert b == (prefix + b)[|prefix|..];
  }

  /** `r[k]` where the property holds a number, 0 otherwise (the episode columns always hold one). */
  function NumAt(r: Record, k: string): real
  {
    if k in r && r[k].Num? then r[k].n else 0.0
  }

  /** `r[k]` where the property holds a string, "" otherwise (ids always hold one). */
  function StrAt(r: Record, k: string): string
  {
    if k in r && r[k].Str? then r[k].s else ""
  }

  /** `keys.forEach(key => target[prefix + key] = 0)` for the first `n` keys. */
  function Zeroed(target: Record, prefix: string, keys: seq<string>, n: nat): Record
    requires n <= |keys|
  {
    if n == 0 then target else Zeroed(target, prefix, keys, n - 1)[prefix + keys[n - 1] := Num(0.0)]
  }

  /** Every zeroed column holds 0. */
  lemma {:induction false} ZeroedAt(target: Record, prefix: string, keys: seq<string>, n: nat, i: nat)
    requires i < n <= |keys|
    ensures prefix + keys[i] in Zeroed(target, prefix, keys, n)
    ensures Zeroed(target, prefix, keys, n)[prefix + keys[i]] == Num(0.0)
  {
    if i < n - 1 {
      ZeroedAt(target, prefix, keys, n - 1, i);
    }
  }

  /** A property that is not a zeroed column is left as it was. */
  lemma {:induction false} ZeroedOther(target: Record, prefix: string, keys: seq<string>, n: nat, k: string)
    requires n <= |keys|
    requires forall i :: 0 <= i < n ==> k != prefix + keys[i]
    ensures k in Zeroed(target, prefix, keys, n) <==> k in target
    ensures k in target ==> Zeroed(target, prefix, keys, n)[k] == target[k]
  {
    if n > 0 {
      ZeroedOther(target, prefix, keys, n - 1, k);
    }
  }

  /**
   * `keys.forEach(key => target[prefix + key] += src[key])` for the first `n` keys:
   * each prefixed column gains the source's amount of its key.
   */
  function Accumulated(target: Record, prefix: string, src: Record, keys: seq<string>, n: nat): Record
    requires n <= |keys|
  {
    if n == 0 then target
    else
      var r := Accumulated(target, prefix, src, keys, n - 1);
      var k := prefix + keys[n - 1];
      r[k := Num(NumAt(r, k) + NumAt(src, keys[n - 1]))]
  }

  /** With distinct keys, each prefixed column gains the source's amount once. */
  lemma {:induction false} AccumulatedAt(target: Record, prefix: string, src: Record, keys: seq<string>, n: nat, i: nat)
    requires i < n <= |keys| && Distinct(keys)
    ensures prefix + keys[i] in Accumulated(target, prefix, src, keys, n)
    ensures Accumulated(target, prefix, src, keys, n)[prefix + keys[i]] ==
      Num(NumAt(target, prefix + keys[i]) + NumAt(src, keys[i]))
  {
    if i < n - 1 {
      AccumulatedAt(target, prefix, src, keys, n - 1, i);
      if prefix + keys[n - 1] == prefix + keys[i] {
        PrefixInjective(prefix, keys[n - 1], keys[i]);
      }
    } else {
      forall j | 0 <= j < n - 1 ensures prefix + keys[i] != prefix + keys[j] {
        if prefix + keys[i] == prefix + keys[j] {
          PrefixInjective(prefix, keys[i], keys[j]);
        }
      }
      AccumulatedOther(target, prefix, src, keys, n - 1, prefix + keys[i]);
    }
  }

  /** A property that is not an accumulated column is left as it was. */
  lemma {:induction false} AccumulatedOther(target: Record, prefix: string, src: Record, keys: seq<string>, n: nat, k: string)
    requires n <= |keys|
    requires forall i :: 0 <= i < n ==> k != prefix + keys[i]
    ensures k in Accumulated(target, prefix, src, keys, n) <==> k in target
    ensures k in target ==> Accumulated(target, prefix, src, keys, n)[k] == target[k]
  {
    if n > 0 {
      AccumulatedOther(target, prefix, src, keys, n - 1, k);
    }
  }

  /** Zeroing and accumulating only ever store numbers. */
  lemma {:induction false} AccumulatedNoNulls(target: Record, prefix: string, src: Record, keys: seq<string>, n: nat)
    requires n <= |keys| && NoNulls(target)
    ensures NoNulls(Accumulated(target, prefix, src, keys, n))
    ensures NoNulls(Zeroed(target, prefix, keys, n))
  {
    if n > 0 {
      AccumulatedNoNulls(target, prefix, src, keys, n - 1);
    }
  }

  /** An episode as `yrEpisodes` holds it: an event with its id list and its nine running totals. */
  predicate EpisodeShaped(ep: Record)
  {
    && NoNulls(ep)
    && "EVENT_IDS" in ep && ep["EVENT_IDS"].Str?
    && "EPISODE_ID" in ep && ep["EPISODE_ID"].Str?
    && PrefixedNumbersAt(ep, EpisodePrefix, LossHeadersAll)
  }

  /**
   * One property of a later event folded into its episode: a property the episode
   * lacks is copied, one that differs becomes "(Multiple values)", an equal one stays.
   * The loose `== undefined` also matches `null`, which stored events never hold.
   */
  function MergedValue(ep: Record, ev: Record, k: string): Value
    requires k in ev
  {
    if k !in ep || ep[k] == Null then ev[k]
    else if ev[k] != Null && ev[k] != ep[k] then Str(MultipleValues)
    else ep[k]
  }

  /** The `Object.keys(event).forEach` merge (index.js:270-274): every property of the event is merged. */
  function MergeFields(ep: Record, ev: Record): (m: Record)
    ensures m.Keys == ep.Keys + ev.Keys
    ensures forall k :: k in ev ==> m[k] == MergedValue(ep, ev, k)
    ensures forall k :: k in ep && k !in ev ==> m[k] == ep[k]
  {
    map k | k in ep.Keys + ev.Keys :: if k in ev then MergedValue(ep, ev, k) else ep[k]
  }

  /** Neither id column is an episode total column. */
  lemma NotEpisodeColumn(k: string)
    requires k == "EVENT_IDS" || k == "EPISODE_ID"
    ensures forall i :: 0 <= i < |LossHeadersAll| ==> k != EpisodePrefix + LossHeadersAll[i]
  {
    forall i | 0 <= i < |LossHeadersAll| ensures k != EpisodePrefix + LossHeadersAll[i] {
      assert |LossHeadersAll[i]| >= 3;
    }
  }

  /** The id list an episode starts with (index.js:266). */
  function WithIds(ev: Record): Record
    requires "EVENT_ID" in ev
  {
    ev["EVENT_IDS" := ev["EVENT_ID"]]
  }

  /** The id list after one more event joined (index.js:269). */
  function AppendId(ep: Record, ev: Record): Record
  {
    ep["EVENT_IDS" := Str(StrAt(ep, "EVENT_IDS") + "," + StrAt(ev, "EVENT_ID"))]
  }

  /**
   * The first event of an episode becomes the episode (index.js:264-267, 276): it
   * gains EVENT_IDS, its own id, and totals that start at zero and then add its own losses.
   */
  function Seed(ev: Record): Record
    requires "EVENT_ID" in ev
  {
    var zeroed := Zeroed(WithIds(ev), EpisodePrefix, LossHeadersAll, |LossHeadersAll|);
    Accumulated(zeroed, EpisodePrefix, ev, LossHeadersAll, |LossHeadersAll|)
  }

  /**
   * A later event of the same episode folded into it (index.js:268-276): its id is
   * appended to EVENT_IDS, its properties are merged, its losses added to the totals.
   */
  function Step(ep: Record, ev: Record): Record
  {
    Accumulated(MergeFields(AppendId(ep, ev), ev), EpisodePrefix, ev, LossHeadersAll, |LossHeadersAll|)
  }

  /** Every record of the sequence is a stored event. */
  predicate AllNormal(rs: seq<Record>)
  {
    forall i :: 0 <= i < |rs| ==> NormalEvent(rs[i])
  }

  /** The events before the last are stored events too, and so is the last. */
  lemma AllNormalInit(rs: seq<Record>)
    requires AllNormal(rs) && rs != []
    ensures AllNormal(rs[..|rs| - 1]) && NormalEvent(rs[|rs| - 1])
  {
  }

  /** The episode `ep` after the events `rest`, in order, were folded into it. */
  function FoldInto(ep: Record, rest: seq<Record>): Record
  {
    if rest == [] then ep else Step(FoldInto(ep, rest[..|rest| - 1]), rest[|rest| - 1])
  }

  /** An episode after all of its events, in order, were folded into the first. */
  function Fold(es: seq<Record>): Record
    requires |es| >= 1 && "EVENT_ID" in es[0]
  {
    FoldInto(Seed(es[0]), es[1..])
  }

  /** The EVENT_ID of each event, in order. */
  function EventIds(es: seq<Record>): (ids: seq<string>)
    ensures |ids| == |es|
    ensures forall j :: 0 <= j < |es| ==> ids[j] == StrAt(es[j], "EVENT_ID")
  {
    if es == [] then [] else EventIds(es[..|es| - 1]) + [StrAt(es[|es| - 1], "EVENT_ID")]
  }

  /** The sum over the events of their `i`-th loss column. */
  function ColumnSum(es: seq<Record>, i: nat): real
    requires i < |LossHeadersAll|
  {
    if es == [] then 0.0 else ColumnSum(es[..|es| - 1], i) + NumAt(es[|es| - 1], LossHeadersAll[i])
  }

  /** A property that is neither EVENT_IDS nor an episode total. */
  predicate OrdinaryKey(k: string)
  {
    k != "EVENT_IDS" && forall i :: 0 <= i < |LossHeadersAll| ==> k != EpisodePrefix + LossHeadersAll[i]
  }

  /** The first event lists its own id. */
  lemma SeedIds(ev: Record)
    requires "EVENT_ID" in ev
    ensures "EVENT_IDS" in Seed(ev) && Seed(ev)["EVENT_IDS"] == ev["EVENT_ID"]
  {
    var zeroed := Zeroed(WithIds(ev), EpisodePrefix, LossHeadersAll, |LossHeadersAll|);
    NotEpisodeColumn("EVENT_IDS");
    ZeroedOther(WithIds(ev), EpisodePrefix, LossHeadersAll, |LossHeadersAll|, "EVENT_IDS");
    AccumulatedOther(zeroed, EpisodePrefix, ev, LossHeadersAll, |LossHeadersAll|, "EVENT_IDS");
  }

  /** The first event's totals are its own losses. */
  lemma SeedTotal(ev: Record, i: nat)
    requires "EVENT_ID" in ev && i < |LossHeadersAll|
    ensures EpisodePrefix + LossHeadersAll[i] in Seed(ev)
    ensures Seed(ev)[EpisodePrefix + LossHeadersAll[i]] == Num(NumAt(ev, LossHeadersAll[i]))
  {
    var zeroed := Zeroed(WithIds(ev), EpisodePrefix, LossHeadersAll, |LossHeadersAll|);
    LossHeadersDistinct();
    ZeroedAt(WithIds(ev), EpisodePrefix, LossHeadersAll, |LossHeadersAll|, i);
    AccumulatedAt(zeroed, EpisodePrefix, ev, LossHeadersAll, |LossHeadersAll|, i);
  }

  /** The first event keeps its ordinary properties. */
  lemma SeedField(ev: Record, k: string)
    requires "EVENT_ID" in ev && OrdinaryKey(k)
    ensures k in Seed(ev) <==> k in ev
    ensures k in ev ==> Seed(ev)[k] == ev[k]
  {
    var zeroed := Zeroed(WithIds(ev), EpisodePrefix, LossHeadersAll, |LossHeadersAll|);
    ZeroedOther(WithIds(ev), EpisodePrefix, LossHeadersAll, |LossHeadersAll|, k);
    AccumulatedOther(zeroed, EpisodePrefix, ev, LossHeadersAll, |LossHeadersAll|, k);
  }

  /** A later event's id is appended to EVENT_IDS. */
  lemma StepIds(ep: Record, ev: Record)
    requires "EVENT_IDS" !in ev
    ensures "EVENT_IDS" in Step(ep, ev)
    ensures Step(ep, ev)["EVENT_IDS"] == Str(StrAt(ep, "EVENT_IDS") + "," + StrAt(ev, "EVENT_ID"))
  {
    NotEpisodeColumn("EVENT_IDS");
    AccumulatedOther(MergeFields(AppendId(ep, ev), ev), EpisodePrefix, ev, LossHeadersAll, |LossHeadersAll|, "EVENT_IDS");
  }

  /** A later event's losses are added to the totals. */
  lemma StepTotal(ep: Record, ev: Record, i: nat)
    requires PrefixedAbsentAt(ev, EpisodePrefix, LossHeadersAll) && i < |LossHeadersAll|
    ensures EpisodePrefix + LossHeadersAll[i] in Step(ep, ev)
    ensures Step(ep, ev)[EpisodePrefix + LossHeadersAll[i]] ==
      Num(NumAt(ep, EpisodePrefix + LossHeadersAll[i]) + NumAt(ev, LossHeadersAll[i]))
  {
    NotEpisodeColumn("EVENT_IDS");
    LossHeadersDistinct();
    AccumulatedAt(MergeFields(AppendId(ep, ev), ev), EpisodePrefix, ev, LossHeadersAll, |LossHeadersAll|, i);
  }

  /** A later event on an ordinary property: copied when new, "(Multiple values)" when it differs. */
  lemma StepField(ep: Record, ev: Record, k: string)
    requires NoNulls(ep) && NoNulls(ev) && OrdinaryKey(k)
    ensures k in Step(ep, ev) <==> k in ep || k in ev
    ensures k in ep && k !in ev ==> Step(ep, ev)[k] == ep[k]
    ensures k !in ep && k in ev ==> Step(ep, ev)[k] == ev[k]
    ensures k in ep && k in ev && ev[k] != ep[k] ==> Step(ep, ev)[k] == Str(MultipleValues)
    ensures k in ep && k in ev && ev[k] == ep[k] ==> Step(ep, ev)[k] == ep[k]
  {
    AccumulatedOther(MergeFields(AppendId(ep, ev), ev), EpisodePrefix, ev, LossHeadersAll, |LossHeadersAll|, k);
  }

  /** Folding only ever stores values that are not null. */
  lemma SeedNoNulls(ev: Record)
    requires "EVENT_ID" in ev && NoNulls(ev)
    ensures NoNulls(Seed(ev))
  {
    AccumulatedNoNulls(WithIds(ev), EpisodePrefix, ev, LossHeadersAll, |LossHeadersAll|);
    var zeroed := Zeroed(WithIds(ev), EpisodePrefix, LossHeadersAll, |LossHeadersAll|);
    AccumulatedNoNulls(zeroed, EpisodePrefix, ev, LossHeadersAll, |LossHeadersAll|);
  }

  lemma StepNoNulls(ep: Record, ev: Record)
    requires NoNulls(ep) && NoNulls(ev)
    ensures NoNulls(Step(ep, ev))
  {
    AccumulatedNoNulls(MergeFields(AppendId(ep, ev), ev), EpisodePrefix, ev, LossHeadersAll, |LossHeadersAll|);
  }

  lemma {:induction false} FoldIntoNoNulls(ep: Record, rest: seq<Record>)
    requires NoNulls(ep) && AllNormal(rest)
    ensures NoNulls(FoldInto(ep, rest))
    decreases |rest|
  {
    if rest != [] {
      AllNormalInit(rest);
      FoldIntoNoNulls(ep, rest[..|rest| - 1]);
      StepNoNulls(FoldInto(ep, rest[..|rest| - 1]), rest[|rest| - 1]);
    }
  }

  /** Some record of the sequence has property `k`. */
  predicate Present(xs: seq<Record>, k: string)
  {
    exists j :: 0 <= j < |xs| && k in xs[j]
  }

  /** Every record that has property `k` has the value `v` there. */
  predicate Agree(xs: seq<Record>, k: string, v: Value)
  {
    forall j :: 0 <= j < |xs| && k in xs[j] ==> xs[j][k] == v
  }

  /** Two records have property `k` with different values. */
  predicate Disagree(xs: seq<Record>, k: string)
  {
    exists i, j :: 0 <= i < |xs| && 0 <= j < |xs| && k in xs[i] && k in xs[j] && xs[i][k] != xs[j][k]
  }

  /** The merge rule keeps "the agreed value, or (Multiple values)" true when one more record comes. */
  lemma AgreementSnoc(xs: seq<Record>, k: string, before: Value, after: Value)
    requires |xs| >= 1 && Present(xs, k)
    requires var init := xs[..|xs| - 1];
      Present(init, k) ==> if Disagree(init, k) then before == Str(MultipleValues) else Agree(init, k, before)
    requires var init := xs[..|xs| - 1]; var last := xs[|xs| - 1];
      after == if k !in last then before
               else if !Present(init, k) then last[k]
               else if last[k] != before then Str(MultipleValues)
               else before
    ensures if Disagree(xs, k) then after == Str(MultipleValues) else Agree(xs, k, after)
  {
    var n := |xs|;
    var init := xs[..n - 1];
    var last := xs[n - 1];
    assert forall j :: 0 <= j < n - 1 ==> xs[j] == init[j];
    if k !in last {
      var j :| 0 <= j < n && k in xs[j];
      assert k in init[j];
      if Disagree(xs, k) {
        var a, b :| 0 <= a < n && 0 <= b < n && k in xs[a] && k in xs[b] && xs[a][k] != xs[b][k];
        assert Disagree(init, k);
      }
    } else if !Present(init, k) {
      assert Agree(xs, k, last[k]);
    } else if Disagree(init, k) {
      var a, b :| 0 <= a < n - 1 && 0 <= b < n - 1 && k in init[a] && k in init[b] && init[a][k] != init[b][k];
      assert Disagree(xs, k);
    } else if last[k] != before {
      var j :| 0 <= j < n - 1 && k in init[j];
      assert xs[j][k] == before;
      assert Disagree(xs, k);
    } else {
      assert Agree(xs, k, before);
    }
  }

  /** The last record has the property, or an earlier one does. */
  lemma PresentSnoc(xs: seq<Record>, k: string)
    requires |xs| >= 1
    ensures Present(xs, k) <==> Present(xs[..|xs| - 1], k) || k in xs[|xs| - 1]
  {
    var init := xs[..|xs| - 1];
    if Present(init, k) {
      var j :| 0 <= j < |init| && k in init[j];
      assert xs[j] == init[j];
    }
    if Present(xs, k) && k !in xs[|xs| - 1] {
      var j :| 0 <= j < |xs| && k in xs[j];
      assert init[j] == xs[j];
    }
  }

  /** Dropping the last element of `[a] + rest` drops the last element of `rest`. */
  lemma ConsInit<T>(a: T, rest: seq<T>)
    requires rest != []
    ensures ([a] + rest)[..|rest|] == [a] + rest[..|rest| - 1]
    ensures ([a] + rest)[|rest|] == rest[|rest| - 1]
  {
  }

  /** An ordinary property after folding `rest` into `ep`, counting `ep` as the first record. */
  lemma {:induction false} FoldIntoField(ep: Record, rest: seq<Record>, k: string)
    requires NoNulls(ep) && AllNormal(rest) && OrdinaryKey(k)
    ensures k in FoldInto(ep, rest) <==> Present([ep] + rest, k)
    ensures k in FoldInto(ep, rest) ==>
      if Disagree([ep] + rest, k) then FoldInto(ep, rest)[k] == Str(MultipleValues)
      else Agree([ep] + rest, k, FoldInto(ep, rest)[k])
    decreases |rest|
  {
    var xs := [ep] + rest;
    if rest == [] {
      if k in ep {
        assert xs[0] == ep;
        assert Agree(xs, k, ep[k]);
      } else {
        assert !Present(xs, k);
      }
    } else {
      var init := rest[..|rest| - 1];
      var ev := rest[|rest| - 1];
      AllNormalInit(rest);
      FoldIntoField(ep, init, k);
      FoldIntoNoNulls(ep, init);
      var f := FoldInto(ep, init);
      StepField(f, ev, k);
      ConsInit(ep, rest);
      PresentSnoc(xs, k);
      if k in FoldInto(ep, rest) {
        AgreementSnoc(xs, k, if k in f then f[k] else Null, FoldInto(ep, rest)[k]);
      }
    }
  }

  /** The episode's EVENT_IDS lists `ep`'s ids and then those of `rest`, comma-separated. */
  lemma {:induction false} FoldIntoIds(ep: Record, rest: seq<Record>)
    requires AllNormal(rest)
    ensures StrAt(FoldInto(ep, rest), "EVENT_IDS") == Join([StrAt(ep, "EVENT_IDS")] + EventIds(rest), ',')
    decreases |rest|
  {
    if rest != [] {
      var init := rest[..|rest| - 1];
      var id := StrAt(rest[|rest| - 1], "EVENT_ID");
      var ids := [StrAt(ep, "EVENT_IDS")] + EventIds(init);
      AllNormalInit(rest);
      FoldIntoIds(ep, init);
      StepIds(FoldInto(ep, init), rest[|rest| - 1]);
      assert [StrAt(ep, "EVENT_IDS")] + EventIds(rest) == ids + [id];
      JoinSnoc(ids, id, ',');
    }
  }

  /** Each total after folding `rest` into `ep` is `ep`'s total plus the sum over `rest`. */
  lemma {:induction false} FoldIntoTotals(ep: Record, rest: seq<Record>, i: nat)
    requires AllNormal(rest) && i < |LossHeadersAll|
    ensures NumAt(FoldInto(ep, rest), EpisodePrefix + LossHeadersAll[i]) ==
      NumAt(ep, EpisodePrefix + LossHeadersAll[i]) + ColumnSum(rest, i)
    decreases |rest|
  {
    if rest != [] {
      AllNormalInit(rest);
      FoldIntoTotals(ep, rest[..|rest| - 1], i);
      StepTotal(FoldInto(ep, rest[..|rest| - 1]), rest[|rest| - 1], i);
    }
  }
}
