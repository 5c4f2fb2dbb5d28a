/**
 * The legacy dust pipeline's event tests (backend/dust_processing/index.js:221-322):
 * the regular-expression dust test, the search filters with their `switch`
 * fall-through, and the data-type check.
 */
module DustFilters {
  import opened JsValues

  // ---------------------------------------------------------------------------
  // The dust test `/ dust($|[^i])/`
  // ---------------------------------------------------------------------------

  const DustWord: string := " dust"

  /** The pattern matches at position `i`: " dust" followed by the end of the text or by any character but 'i'. */
  predicate DustAt(s: string, i: nat)
  {
    i + |DustWord| <= |s| && s[i..i + |DustWord|] == DustWord &&
    (i + |DustWord| == |s| || s[i + |DustWord|] != 'i')
  }

  /** `/ dust($|[^i])/.test(s)`, trying the positions from the left. */
  function MatchesDust(s: string): bool
  {
    if |s| < |DustWord| then false
    else DustAt(s, 0) || MatchesDust(s[1..])
  }

  /** A match at position `i + 1` of `s` is a match at position `i` of `s[1..]`, and back. */
  lemma DustAtShift(s: string, i: nat)
    requires |s| > 0
    ensures DustAt(s, i + 1) <==> DustAt(s[1..], i)
  {
    if i + 1 + |DustWord| <= |s| {
      assert s[i + 1..i + 1 + |DustWord|] == s[1..][i..i + |DustWord|];
    }
  }

  /** The scan succeeds exactly when the pattern matches somewhere. */
  lemma {:induction false} MatchesDustIff(s: string)
    ensures MatchesDust(s) <==> exists i: nat :: DustAt(s, i)
  {
    if |s| < |DustWord| {
      forall i: nat ensures !DustAt(s, i) {
      }
    } else {
      MatchesDustIff(s[1..]);
      if MatchesDust(s[1..]) {
        var i: nat :| DustAt(s[1..], i);
        DustAtShift(s, i);
      }
      forall i: nat | DustAt(s, i) ensures DustAt(s, 0) || MatchesDust(s[1..]) {
        if i > 0 {
          DustAtShift(s, i - 1);
        }
      }
    }
  }

  /** " dust" matches at the end of a text and before any character but 'i'. */
  lemma DustMatches(c: char)
    requires c != 'i'
    ensures MatchesDust(" dust") && MatchesDust(" dust" + [c])
  {
    assert DustAt(" dust" + [c], 0) by {
      assert (" dust" + [c])[..5] == DustWord;
    }
  }

  /** The test is case-sensitive, needs the space, and refuses "dusting". */
  lemma DustRefusals()
    ensures !MatchesDust(" dusting")
    ensures !MatchesDust(" Dust")
    ensures !MatchesDust("dust")
  {
    var t := " dusting";
    MatchesDustIff(t);
    forall i: nat | i + |DustWord| <= |t| && t[i..i + |DustWord|] == DustWord ensures !DustAt(t, i) {
      assert t[i] == DustWord[0] == ' ';
      assert i == 0;
      assert t[5] == 'i';
    }
    assert " Dust"[..5] != DustWord by {
      assert " Dust"[1] != DustWord[1];
    }
  }

  // ---------------------------------------------------------------------------
  // Search filters (backend/dust_processing/index.js:224-306)
  // ---------------------------------------------------------------------------

  const NarrativeFields: seq<string> := ["EPISODE_NARRATIVE", "EVENT_NARRATIVE"]

  /**
   * `if (event[field]) if (/ dust($|[^i])/g.test(event[field])) …`; only text values are
   * modelled, and any other value counts as no match.
   */
  predicate FieldHasDust(e: Record, field: string)
  {
    FieldTruthy(e, field) && e[field].Str? && MatchesDust(e[field].s)
  }

  /** One of the two narratives passes the dust test. */
  predicate HasWordDust(e: Record)
  {
    FieldHasDust(e, "EPISODE_NARRATIVE") || FieldHasDust(e, "EVENT_NARRATIVE")
  }

  /** `event["EVENT_TYPE"] == t` for a text `t`: only the same text is loosely equal to it. */
  predicate TypeIs(e: Record, t: string)
  {
    "EVENT_TYPE" in e && e["EVENT_TYPE"] == Str(t)
  }

  /** `types.includes(event["EVENT_TYPE"])`. */
  predicate TypeIn(e: Record, types: seq<string>)
  {
    "EVENT_TYPE" in e && e["EVENT_TYPE"].Str? && e["EVENT_TYPE"].s in types
  }

  const DustTypes: seq<string> := ["Dust Storm", "Dust Devil"]

  const ExcludedTypes: seq<string> :=
    ["Winter Weather", "Heavy Snow", "Flash Flood", "Winter Storm", "Tornado", "Drought"]

  /** What each search filter accepts, filter by filter, with no fall-through. */
  predicate SearchFilter(e: Record, searchType: string)
  {
    match searchType
    case "All" => true
    case "Event Only" => TypeIn(e, DustTypes)
    case "Exhaustive" => HasWordDust(e) || TypeIn(e, DustTypes)
    case "Partial Exhaustive" => !TypeIn(e, ExcludedTypes) && (HasWordDust(e) || TypeIn(e, DustTypes))
    case "High Wind" => TypeIs(e, "High Wind")
    case "High Wind and Dust" => HasWordDust(e) && TypeIs(e, "High Wind")
    case "Thunderstorm Wind" => TypeIs(e, "Thunderstorm Wind")
    case "Thunderstorm Wind and Dust" => HasWordDust(e) && TypeIs(e, "Thunderstorm Wind")
    case "High, Thunderstorm Wind and Dust" =>
      HasWordDust(e) && (TypeIs(e, "High Wind") || TypeIs(e, "Thunderstorm Wind"))
    case _ => false
  }

  /** The `forEach` over both narratives that sets a flag when one passes the dust test. */
  method ScanNarratives(e: Record) returns (found: bool)
    ensures found == HasWordDust(e)
  {
    found := false;
    for j := 0 to |NarrativeFields|
      invariant found <==> exists k :: 0 <= k < j && FieldHasDust(e, NarrativeFields[k])
    {
      var field := NarrativeFields[j];
      if FieldTruthy(e, field) && e[field].Str? {
        if MatchesDust(e[field].s) {
          found := true;
        }
      }
    }
    assert FieldHasDust(e, NarrativeFields[0]) ==> found;
    assert FieldHasDust(e, NarrativeFields[1]) ==> found;
  }

  /**
   * The `switch (search_type)` of the backward loop, with its fall-through: a custom
   * "… and Dust" filter falls into its wind filter when a narrative passes the dust
   * test, "Partial Exhaustive" falls into "Exhaustive" unless the type is excluded, and
   * "Exhaustive" falls into "Event Only".
   */
  method MatchesSearchType(e: Record, searchType: string) returns (m: bool)
    ensures m == SearchFilter(e, searchType)
  {
    m := false;
    if searchType == "All" {
      m := true;
    } else if searchType == "High Wind and Dust" || searchType == "High Wind" {
      var fallsThrough := true;
      if searchType == "High Wind and Dust" {
        var dust := ScanNarratives(e);
        if !dust {
          m := false;
          fallsThrough := false;
        }
      }
      if fallsThrough {
        m := TypeIs(e, "High Wind");
      }
    } else if searchType == "Thunderstorm Wind and Dust" || searchType == "Thunderstorm Wind" {
      var fallsThrough := true;
      if searchType == "Thunderstorm Wind and Dust" {
        var dust := ScanNarratives(e);
        if !dust {
          m := false;
          fallsThrough := false;
        }
      }
      if fallsThrough {
        m := TypeIs(e, "Thunderstorm Wind");
      }
    } else if searchType == "High, Thunderstorm Wind and Dust" {
      var dust := ScanNarratives(e);
      if !dust {
        m := false;
      } else {
        m := TypeIs(e, "High Wind") || TypeIs(e, "Thunderstorm Wind");
      }
    } else if searchType == "Partial Exhaustive" || searchType == "Exhaustive" || searchType == "Event Only" {
      var fallsThrough := true;
      if searchType == "Partial Exhaustive" && TypeIn(e, ExcludedTypes) {
        m := false;
        fallsThrough := false;
      }
      if fallsThrough && searchType != "Event Only" {
        var dust := ScanNarratives(e);
        if dust {
          m := true;
        }
      }
      if fallsThrough {
        m := m || TypeIn(e, DustTypes);
      }
    } else {
      m := false;
    }
  }

  /** The fall-through makes the filters nest: Partial Exhaustive within Exhaustive, Event Only within Exhaustive. */
  lemma FiltersNest(e: Record)
    ensures SearchFilter(e, "Partial Exhaustive") ==> SearchFilter(e, "Exhaustive")
    ensures SearchFilter(e, "Event Only") ==> SearchFilter(e, "Exhaustive")
    ensures SearchFilter(e, "Exhaustive") ==> SearchFilter(e, "Event Only") || HasWordDust(e)
  {
  }

  /** Unlike the newer pipeline, the combined wind filter here accepts either wind type: it is the union of the two. */
  lemma CombinedWindIsUnion(e: Record)
    ensures SearchFilter(e, "High, Thunderstorm Wind and Dust") <==>
      SearchFilter(e, "High Wind and Dust") || SearchFilter(e, "Thunderstorm Wind and Dust")
  {
  }

  // ---------------------------------------------------------------------------
  // Data types (backend/dust_processing/index.js:308-317)
  // ---------------------------------------------------------------------------

  /** Region and Any take every event; Markers needs a truthy BEGIN_LAT; any other data type takes none. */
  predicate DataTypeMatches(e: Record, dataType: string)
  {
    match dataType
    case "Region" => true
    case "Any" => true
    case "Markers" => FieldTruthy(e, "BEGIN_LAT")
    case _ => false
  }

  /** An event stays in the year's list when it passes both tests (backend/dust_processing/index.js:319). */
  predicate Retained(e: Record, searchType: string, dataType: string)
  {
    SearchFilter(e, searchType) && DataTypeMatches(e, dataType)
  }

  /** The two `switch` statements of one loop step, as run. */
  method MatchesBoth(e: Record, searchType: string, dataType: string) returns (keep: bool)
    ensures keep == Retained(e, searchType, dataType)
  {
    var matchesSearch := MatchesSearchType(e, searchType);
    var matchesData := false;
    if dataType == "Region" || dataType == "Any" {
      matchesData := true;
    } else if dataType == "Markers" {
      matchesData := FieldTruthy(e, "BEGIN_LAT");
    }
    keep := matchesSearch && matchesData;
  }
}
