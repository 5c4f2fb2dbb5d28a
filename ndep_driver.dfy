/**
 * The driver `main` of index.js (index.js:300-344): the year list is expanded,
 * each year's file name is made from the name template, every year is processed
 * in turn and its results are folded into `allRes`. Writing the output package
 * (index.js:344-359) is not part of this model.
 */
module NdepDriver {
  import opened JsValues
  import opened JsText
  import opened JsNumbers
  import opened Ndep
  import opened NdepYear
  import opened Lists

  // ---------------------------------------------------------------------------
  // The year list (index.js:308-316)
  // ---------------------------------------------------------------------------

  /** One entry of `yrsInput`: a year given as a number, or a string meant as a range "a-b". */
  datatype YearInput = Number(year: int) | Text(text: string)

  /** The years `lo`, `lo + 1`, ..., `hi`; none when `lo > hi`. */
  function YearRange(lo: int, hi: int): (r: seq<int>)
    ensures |r| == if lo <= hi then hi - lo + 1 else 0
    ensures forall k :: 0 <= k < |r| ==> r[k] == lo + k
    decreases hi - lo
  {
    if lo > hi then [] else [lo] + YearRange(lo + 1, hi)
  }

  /**
   * `val.split("-").map(endpt => parseInt(endpt))`, of which the loop reads the first
   * two entries; `None` stands for NaN and, for the second, for a missing entry.
   */
  function Endpoints(text: string): (Option<nat>, Option<nat>)
  {
    var parts := SplitOn(text, '-');
    (ParseInt(parts[0]), if |parts| >= 2 then ParseInt(parts[1]) else None)
  }

  /**
   * The years one entry contributes: a number as it is; a string the years from its
   * first to its second endpoint, and none when either is NaN or missing (a
   * comparison with NaN or `undefined` is false, so the `for` loop does not run).
   */
  function YearsOf(v: YearInput): seq<int>
  {
    match v
    case Number(y) => [y]
    case Text(t) =>
      match Endpoints(t)
      case (Some(a), Some(b)) => YearRange(a, b)
      case _ => []
  }

  /** The years of each entry, entry by entry. */
  function PartsOf(input: seq<YearInput>): (p: seq<seq<int>>)
    ensures |p| == |input|
    ensures forall i :: 0 <= i < |input| ==> p[i] == YearsOf(input[i])
  {
    seq(|input|, i requires 0 <= i < |input| => YearsOf(input[i]))
  }

  /** `yrs` once every entry of the input was expanded, in input order. */
  function ExpandedYears(input: seq<YearInput>): seq<int>
  {
    Flatten(PartsOf(input))
  }

  /** The `yrsInput.forEach` loop that fills `yrs`. */
  method ExpandYears(input: seq<YearInput>) returns (yrs: seq<int>)
    ensures yrs == ExpandedYears(input)
  {
    yrs := [];
    for i := 0 to |input|
      invariant yrs == Flatten(PartsOf(input)[..i])
    {
      assert PartsOf(input)[..i + 1][..i] == PartsOf(input)[..i];
      yrs := PushYears(yrs, input[i]);
    }
    assert PartsOf(input)[..|input|] == PartsOf(input);
  }

  /** The body of the `forEach` for one entry: its years pushed onto `yrs`. */
  method PushYears(yrs: seq<int>, v: YearInput) returns (r: seq<int>)
    ensures r == yrs + YearsOf(v)
  {
    match v
    case Number(y) =>
      r := yrs + [y];
    case Text(t) =>
      var (first, second) := Endpoints(t);
      r := yrs;
      if first.Some? && second.Some? {
        r := PushRange(yrs, first.value, second.value);
      }
  }

  /** `for (let yr = val[0]; yr <= val[1]; yr++) yrs.push(yr)`. */
  method PushRange(yrs: seq<int>, lo: int, hi: int) returns (r: seq<int>)
    ensures r == yrs + YearRange(lo, hi)
  {
    r := yrs;
    var yr := lo;
    while yr <= hi
      invariant lo <= yr && (lo <= hi ==> yr <= hi + 1) && (lo > hi ==> yr == lo)
      invariant r == yrs + YearRange(lo, yr - 1)
      decreases hi - yr
    {
      assert YearRange(lo, yr) == YearRange(lo, yr - 1) + [yr];
      r := r + [yr];
      yr := yr + 1;
    }
  }

  /** "a-b" with numerals for `a` and `b` stands for the years from `a` to `b`. */
  lemma RangeText(a: nat, b: nat)
    ensures YearsOf(Text(NatToString(a) + "-" + NatToString(b))) == YearRange(a, b)
  {
    var x, y := NatToString(a), NatToString(b);
    assert '-' !in x && '-' !in y by {
      assert forall c :: c in x ==> IsDigit(c);
      assert forall c :: c in y ==> IsDigit(c);
    }
    SplitAround(x, y, '-');
    SplitWhole(x, '-');
    SplitWhole(y, '-');
    assert x + "-" + y == x + ['-'] + y;
    ParseIntOfNatToString(a);
    ParseIntOfNatToString(b);
  }

  /** "a - b", with a space on either side of the hyphen, stands for the same years. */
  lemma SpacedRangeText(a: nat, b: nat)
    ensures YearsOf(Text(NatToString(a) + " - " + NatToString(b))) == YearRange(a, b)
  {
    var x, y := NatToString(a), NatToString(b);
    SpacedSplit(x, y);
    assert ParseInt(x + " ") == Some(a) by {
      ParseIntStops(x, " ");
      ParseIntOfNatToString(a);
    }
    assert ParseInt(" " + y) == Some(b) by {
      ParseAfterSpace(" ", y);
      ParseIntOfNatToString(b);
    }
  }

  /** Two numerals around " - " split into the first with its space and the second with its own. */
  lemma SpacedSplit(x: string, y: string)
    requires AllDigits(x) && AllDigits(y)
    ensures SplitOn(x + " - " + y, '-') == [x + " ", " " + y]
  {
    var left, right := x + " ", " " + y;
    assert '-' !in left && '-' !in right by {
      assert forall i :: 0 <= i < |left| ==> left[i] == ' ' || IsDigit(left[i]);
      assert forall i :: 0 <= i < |right| ==> right[i] == ' ' || IsDigit(right[i]);
    }
    SplitAround(left, right, '-');
    SplitWhole(left, '-');
    SplitWhole(right, '-');
    assert x + " - " + y == left + ['-'] + right;
  }

  /** A year written as a string without a hyphen has no second endpoint, so it adds no year at all. */
  lemma PlainTextYear(a: nat)
    ensures YearsOf(Text(NatToString(a))) == []
  {
    var x := NatToString(a);
    assert '-' !in x by {
      assert forall c :: c in x ==> IsDigit(c);
    }
    SplitWhole(x, '-');
  }

  /**
   * The expanded list is made of the entries' years in input order: a year is in
   * it exactly when some entry contributes it, and expanding two inputs one after
   * the other gives their years one after the other.
   */
  lemma ExpandedYearsOrder(input: seq<YearInput>, more: seq<YearInput>, y: int)
    ensures y in ExpandedYears(input) <==> exists i :: 0 <= i < |input| && y in YearsOf(input[i])
    ensures ExpandedYears(input + more) == ExpandedYears(input) + ExpandedYears(more)
  {
    FlattenMembers(PartsOf(input), y);
    assert PartsOf(input + more) == PartsOf(input) + PartsOf(more);
    FlattenAppend(PartsOf(input), PartsOf(more));
  }

  // ---------------------------------------------------------------------------
  // The file name of a year (index.js:324)
  // ---------------------------------------------------------------------------

  /** SEDNameFormat: the name template of a year's file. */
  const SedNameFormat: string := "SED-YYYY.csv"

  /** A character `/YYYY/i` accepts in any position. */
  predicate IsY(c: char)
  {
    c == 'y' || c == 'Y'
  }

  /** `/YYYY/i` matches at the start of `s`. */
  predicate StartsYyyy(s: string)
  {
    |s| >= 4 && IsY(s[0]) && IsY(s[1]) && IsY(s[2]) && IsY(s[3])
  }

  /**
   * `s.replace(/YYYY/gi, rep)`: scanning from the left, every match is replaced and
   * the scan goes on after it, so matches never overlap.
   */
  function ReplaceYyyy(s: string, rep: string): string
    decreases |s|
  {
    if |s| < 4 then s
    else if StartsYyyy(s) then rep + ReplaceYyyy(s[4..], rep)
    else [s[0]] + ReplaceYyyy(s[1..], rep)
  }

  /** No match of `/YYYY/i` starts anywhere in `s`. */
  predicate NoYyyy(s: string)
  {
    forall i :: 0 <= i < |s| ==> !StartsYyyy(s[i..])
  }

  /** The number of `y`/`Y` characters `s` starts with. */
  function YRun(s: string): (n: nat)
    ensures n <= |s|
    ensures forall i :: 0 <= i < n ==> IsY(s[i])
    ensures n < |s| ==> !IsY(s[n])
  {
    if s != [] && IsY(s[0]) then 1 + YRun(s[1..]) else 0
  }

  /** After replacing, the text starts with no longer a run of `y`s than before, and with at most three. */
  lemma {:induction false} ReplaceYRun(s: string, rep: string)
    requires |rep| >= 1 && !IsY(rep[0])
    ensures YRun(ReplaceYyyy(s, rep)) <= YRun(s)
    ensures YRun(ReplaceYyyy(s, rep)) <= 3
    decreases |s|
  {
    var r := ReplaceYyyy(s, rep);
    if |s| < 4 {
    } else if StartsYyyy(s) {
      assert r[0] == rep[0];
    } else {
      ReplaceYRun(s[1..], rep);
      if IsY(s[0]) {
        assert r == [s[0]] + ReplaceYyyy(s[1..], rep);
        assert r[1..] == ReplaceYyyy(s[1..], rep);
        assert YRun(s) == 1 + YRun(s[1..]);
        assert YRun(s) <= 3 by {
          assert !IsY(s[0]) || !IsY(s[1]) || !IsY(s[2]) || !IsY(s[3]);
        }
      } else {
        assert r[0] == s[0];
      }
    }
  }

  /** Text that starts with a run of at most three `y`s and has no match after its first character has none at all. */
  lemma ConsNoYyyy(c: char, t: string)
    requires NoYyyy(t)
    requires IsY(c) ==> YRun(t) <= 2
    ensures NoYyyy([c] + t)
  {
    var s := [c] + t;
    forall i | 0 <= i < |s|
      ensures !StartsYyyy(s[i..])
    {
      if i > 0 {
        assert s[i..] == t[i - 1..];
      } else if IsY(c) && |t| >= 3 {
        assert !IsY(t[YRun(t)]);
      }
    }
  }

  /** Text without `y`s in front of text without a match has no match. */
  lemma {:induction false} AppendNoYyyy(a: string, t: string)
    requires forall i :: 0 <= i < |a| ==> !IsY(a[i])
    requires NoYyyy(t)
    ensures NoYyyy(a + t)
    decreases |a|
  {
    if a != [] {
      AppendNoYyyy(a[1..], t);
      assert a + t == [a[0]] + (a[1..] + t);
      ConsNoYyyy(a[0], a[1..] + t);
    } else {
      assert a + t == t;
    }
  }

  /** Replacing by a year leaves no `YYYY` of any case in the name. */
  lemma {:induction false} ReplaceLeavesNoYyyy(s: string, rep: string)
    requires |rep| >= 1 && forall i :: 0 <= i < |rep| ==> !IsY(rep[i])
    ensures NoYyyy(ReplaceYyyy(s, rep))
    decreases |s|
  {
    if |s| < 4 {
      forall i | 0 <= i < |s| ensures !StartsYyyy(s[i..]) { }
    } else if StartsYyyy(s) {
      ReplaceLeavesNoYyyy(s[4..], rep);
      AppendNoYyyy(rep, ReplaceYyyy(s[4..], rep));
    } else {
      ReplaceLeavesNoYyyy(s[1..], rep);
      if IsY(s[0]) {
        ReplaceYRun(s[1..], rep);
        assert YRun(s[1..]) <= 2 by {
          assert !IsY(s[1..][0]) || !IsY(s[1..][1]) || !IsY(s[1..][2]);
        }
      }
      ConsNoYyyy(s[0], ReplaceYyyy(s[1..], rep));
    }
  }

  /** A name without a match is left as it is. */
  lemma {:induction false} ReplaceWithoutMatch(s: string, rep: string)
    requires NoYyyy(s)
    ensures ReplaceYyyy(s, rep) == s
    decreases |s|
  {
    if |s| >= 4 {
      assert !StartsYyyy(s[0..]) && s[0..] == s;
      assert NoYyyy(s[1..]) by {
        forall i | 0 <= i < |s[1..]| ensures !StartsYyyy(s[1..][i..]) {
          assert s[1..][i..] == s[i + 1..];
        }
      }
      ReplaceWithoutMatch(s[1..], rep);
    }
  }

  /** The file name of a year. */
  function FileName(year: int): (f: string)
    ensures NoYyyy(f)
  {
    var rep := IntToString(year);
    assert forall i :: 0 <= i < |rep| ==> !IsY(rep[i]) by {
      forall i | 0 <= i < |rep| ensures !IsY(rep[i]) {
        assert rep[i] in rep;
      }
    }
    ReplaceLeavesNoYyyy(SedNameFormat, rep);
    ReplaceYyyy(SedNameFormat, rep)
  }

  /** Text without `y`s in front of the rest is copied as it is; only the rest is searched. */
  lemma {:induction false} ReplaceAfterPlain(a: string, t: string, rep: string)
    requires forall i :: 0 <= i < |a| ==> !IsY(a[i])
    ensures ReplaceYyyy(a + t, rep) == a + ReplaceYyyy(t, rep)
    decreases |a|
  {
    if a == [] {
      assert a + t == t;
    } else {
      var s := a + t;
      assert s[0] == a[0] && !StartsYyyy(s);
      assert s[1..] == a[1..] + t;
      assert a == [a[0]] + a[1..];
      if |s| < 4 {
        assert ReplaceYyyy(t, rep) == t;
      } else {
        ReplaceAfterPlain(a[1..], t, rep);
        assert ReplaceYyyy(s, rep) == [a[0]] + (a[1..] + ReplaceYyyy(t, rep));
      }
    }
  }

  /** With the template as shipped, the year's file is "SED-<year>.csv". */
  lemma FileNameShipped(year: int)
    ensures FileName(year) == "SED-" + IntToString(year) + ".csv"
  {
    var rep := IntToString(year);
    assert SedNameFormat == "SED-" + "YYYY.csv";
    ReplaceAfterPlain("SED-", "YYYY.csv", rep);
    ReplaceAfterPlain(".csv", "", rep);
    assert ".csv" + "" == ".csv" && "YYYY.csv"[4..] == ".csv" && StartsYyyy("YYYY.csv");
  }

  // ---------------------------------------------------------------------------
  // The fold over the years (index.js:305-344)
  // ---------------------------------------------------------------------------

  /** `allRes`: the events and episodes of every year, the count of all rows and the summed losses. */
  datatype AllResults = AllResults(events: seq<Record>, cntAllEvents: nat, episodes: seq<Record>, losses: seq<real>)

  /** `allRes` before the first year; its losses are a copy of the zero template. */
  const NoResults: AllResults := AllResults([], 0, [], ZeroTotals())

  /** One year folded into `allRes` (index.js:327-330). */
  function Accumulate(acc: AllResults, r: YearResult): (a: AllResults)
    requires |acc.losses| == |LossHeadersAll| && |r.losses| == |LossHeadersAll|
    ensures |a.losses| == |LossHeadersAll|
  {
    AllResults(acc.events + r.events, acc.cntAllEvents + r.cntAllEvents, acc.episodes + r.episodes,
               AddTotals(acc.losses, r.losses))
  }

  /** Where the years have got to: the shared totals and `allRes`, or the rejection that ended the loop. */
  datatype Progress = Going(totals: seq<real>, acc: AllResults) | Stopped(message: string)

  /** Every file of the input directory holds rows as the CSV parser yields them. */
  predicate FilesParsed(files: map<string, seq<Record>>)
  {
    forall f :: f in files ==> AllStormRows(files[f])
  }

  /** One pass of the loop of `main`: the file `f` processed after the state `p`. */
  ghost function Advance(p: Progress, f: string, files: map<string, seq<Record>>, filter: string,
                         parse: string -> Stamp): (q: Progress)
    requires FilesParsed(files)
    requires p.Going? ==> |p.totals| == |LossHeadersAll| && |p.acc.losses| == |LossHeadersAll|
    ensures q.Going? ==> |q.totals| == |LossHeadersAll| && |q.acc.losses| == |LossHeadersAll|
    ensures p.Stopped? ==> q == p
    ensures p.Going? && f !in files ==> q == Stopped("The SED file " + f + " was not found.")
    ensures p.Going? && f in files ==> q.Going?
  {
    if p.Stopped? then p
    else if f !in files then Stopped("The SED file " + f + " was not found.")
    else Going(AddAllLosses(p.totals, Kept(files[f], filter, parse)),
               Accumulate(p.acc, YearOf(files[f], filter, parse, p.totals)))
  }

  /** The `for` loop of `main` over the files `names`, in order. */
  ghost function RunYears(names: seq<string>, files: map<string, seq<Record>>, filter: string,
                          parse: string -> Stamp): (p: Progress)
    requires FilesParsed(files)
    ensures p.Going? ==> |p.totals| == |LossHeadersAll| && |p.acc.losses| == |LossHeadersAll|
  {
    if names == [] then Going(ZeroTotals(), NoResults)
    else Advance(RunYears(names[..|names| - 1], files, filter, parse), names[|names| - 1], files, filter, parse)
  }

  /** The file of each year. */
  function FileNames(yrs: seq<int>): (names: seq<string>)
    ensures |names| == |yrs|
    ensures forall i :: 0 <= i < |yrs| ==> names[i] == FileName(yrs[i])
  {
    seq(|yrs|, i requires 0 <= i < |yrs| => FileName(yrs[i]))
  }

  /** `String(val)` for an entry of `yrsInput`. */
  function InputText(v: YearInput): string
  {
    match v
    case Number(y) => IntToString(y)
    case Text(t) => t
  }

  /** `pkgOutPath`: outDir, then "NDEP_", the entries joined by "_", "_" and the filter name. */
  function OutputPath(yrsInput: seq<YearInput>, filter: string): string
  {
    "./data/out/" + "NDEP_" + Join(seq(|yrsInput|, i requires 0 <= i < |yrsInput| => InputText(yrsInput[i])), '_')
      + "_" + filter + "/"
  }

  /** How `main` ends. */
  datatype Outcome =
    | OutputExists(path: string)
    | NoValidYears
    | YearFailed(message: string)
    | Completed(path: string, results: AllResults)

  /** `main` as a whole, with the paths that already exist given as `existing`. */
  ghost function Pipeline(yrsInput: seq<YearInput>, filter: string, files: map<string, seq<Record>>,
                          existing: set<string>, parse: string -> Stamp): Outcome
    requires FilesParsed(files)
  {
    var path := OutputPath(yrsInput, filter);
    if path in existing then OutputExists(path)
    else
      var yrs := ExpandedYears(yrsInput);
      if yrs == [] then NoValidYears
      else
        match RunYears(FileNames(yrs), files, filter, parse)
        case Stopped(m) => YearFailed(m)
        case Going(_, acc) => Completed(path, acc)
  }

  /** `LOSS_HEADERS_ALL.forEach(key => allRes.losses[key] += yrRes.losses[key])`. */
  method AddYearLosses(acc: seq<real>, add: seq<real>) returns (r: seq<real>)
    requires |acc| == |LossHeadersAll| && |add| == |LossHeadersAll|
    ensures r == AddTotals(acc, add)
  {
    r := acc;
    for i := 0 to |LossHeadersAll|
      invariant |r| == |LossHeadersAll|
      invariant forall j :: 0 <= j < i ==> r[j] == acc[j] + add[j]
      invariant forall j :: i <= j < |LossHeadersAll| ==> r[j] == acc[j]
    {
      r := r[i := r[i] + add[i]];
    }
  }

  /** One more file: the loop's state after it, given the state before it. */
  lemma RunYearsStep(names: seq<string>, i: nat, files: map<string, seq<Record>>, filter: string,
                     parse: string -> Stamp)
    requires FilesParsed(files) && i < |names|
    ensures RunYears(names[..i + 1], files, filter, parse) ==
            Advance(RunYears(names[..i], files, filter, parse), names[i], files, filter, parse)
  {
    assert names[..i + 1][..i] == names[..i];
  }

  /** Once a year was rejected, the later years change nothing. */
  lemma {:induction false} RunYearsStays(names: seq<string>, k: nat, files: map<string, seq<Record>>,
                                         filter: string, parse: string -> Stamp)
    requires FilesParsed(files) && k <= |names| && RunYears(names[..k], files, filter, parse).Stopped?
    ensures RunYears(names, files, filter, parse) == RunYears(names[..k], files, filter, parse)
    decreases |names| - k
  {
    if k < |names| {
      RunYearsStep(names, k, files, filter, parse);
      RunYearsStays(names, k + 1, files, filter, parse);
    } else {
      assert names[..k] == names;
    }
  }

  /** Every file named is in the input directory. */
  predicate AllFound(names: seq<string>, files: map<string, seq<Record>>)
  {
    forall k :: 0 <= k < |names| ==> names[k] in files
  }

  /** Found files, one name longer. */
  lemma AllFoundSnoc(names: seq<string>, files: map<string, seq<Record>>)
    requires names != []
    ensures AllFound(names, files) <==> AllFound(names[..|names| - 1], files) && names[|names| - 1] in files
  {
    assert forall k :: 0 <= k < |names| - 1 ==> names[..|names| - 1][k] == names[k];
  }

  /** `processSEDCsv` of each file on its own, from zero totals. */
  ghost function YearResults(names: seq<string>, files: map<string, seq<Record>>, filter: string,
                             parse: string -> Stamp): (ys: seq<YearResult>)
    requires FilesParsed(files) && AllFound(names, files)
    ensures |ys| == |names|
  {
    if names == [] then []
    else
      AllFoundSnoc(names, files);
      YearResults(names[..|names| - 1], files, filter, parse)
        + [YearOf(files[names[|names| - 1]], filter, parse, ZeroTotals())]
  }

  /** The loss column `h` summed over the kept events of each file, file by file. */
  ghost function YearLosses(names: seq<string>, files: map<string, seq<Record>>, filter: string,
                            parse: string -> Stamp, h: nat): (ls: seq<real>)
    requires FilesParsed(files) && AllFound(names, files) && h < |LossHeadersAll|
    ensures |ls| == |names|
  {
    if names == [] then []
    else
      AllFoundSnoc(names, files);
      YearLosses(names[..|names| - 1], files, filter, parse, h)
        + [ColumnSum(Kept(files[names[|names| - 1]], filter, parse), h)]
  }

  /** The number of rows of each file. */
  function RowCounts(names: seq<string>, files: map<string, seq<Record>>): (ns: seq<nat>)
    requires AllFound(names, files)
    ensures |ns| == |names|
  {
    if names == [] then []
    else
      AllFoundSnoc(names, files);
      RowCounts(names[..|names| - 1], files) + [|files[names[|names| - 1]]|]
  }

  /** The `j`-th year result is that of the `j`-th file. */
  lemma {:induction false} YearResultsAt(names: seq<string>, files: map<string, seq<Record>>, filter: string,
                                         parse: string -> Stamp, j: nat)
    requires FilesParsed(files) && AllFound(names, files) && j < |names|
    ensures YearResults(names, files, filter, parse)[j] == YearOf(files[names[j]], filter, parse, ZeroTotals())
  {
    AllFoundSnoc(names, files);
    var init := names[..|names| - 1];
    var last := YearOf(files[names[|names| - 1]], filter, parse, ZeroTotals());
    assert YearResults(names, files, filter, parse) == YearResults(init, files, filter, parse) + [last];
    if j < |init| {
      YearResultsAt(init, files, filter, parse, j);
      assert init[j] == names[j];
      assert YearResults(names, files, filter, parse)[j] == YearResults(init, files, filter, parse)[j];
      assert files[init[j]] == files[names[j]];
      assert YearResults(names, files, filter, parse)[j] == YearOf(files[names[j]], filter, parse, ZeroTotals());
    } else {
      assert YearResults(names, files, filter, parse)[j] == last;
      assert YearResults(names, files, filter, parse)[j] == YearOf(files[names[j]], filter, parse, ZeroTotals());
    }
  }

  /** The `j`-th loss sum is that of the `j`-th file. */
  lemma {:induction false} YearLossesAt(names: seq<string>, files: map<string, seq<Record>>, filter: string,
                                        parse: string -> Stamp, h: nat, j: nat)
    requires FilesParsed(files) && AllFound(names, files) && h < |LossHeadersAll| && j < |names|
    ensures YearLosses(names, files, filter, parse, h)[j] == ColumnSum(Kept(files[names[j]], filter, parse), h)
  {
    AllFoundSnoc(names, files);
    var init := names[..|names| - 1];
    if j < |init| {
      YearLossesAt(init, files, filter, parse, h, j);
      assert init[j] == names[j];
    }
  }

  /** The `j`-th row count is that of the `j`-th file. */
  lemma {:induction false} RowCountsAt(names: seq<string>, files: map<string, seq<Record>>, j: nat)
    requires AllFound(names, files) && j < |names|
    ensures RowCounts(names, files)[j] == |files[names[j]]|
  {
    AllFoundSnoc(names, files);
    var init := names[..|names| - 1];
    if j < |init| {
      RowCountsAt(init, files, j);
      assert init[j] == names[j];
    }
  }

  function NatSum(ns: seq<nat>): nat
  {
    if ns == [] then 0 else ns[0] + NatSum(ns[1..])
  }

  function Sum(ls: seq<real>): real
  {
    if ls == [] then 0.0 else ls[0] + Sum(ls[1..])
  }

  /** `ls[0]` counted `|ls|` times, `ls[1]` counted `|ls| - 1` times, ..., the last one once. */
  function Weighted(ls: seq<real>): real
  {
    if ls == [] then 0.0 else (|ls| as real) * ls[0] + Weighted(ls[1..])
  }

  lemma {:induction false} NatSumSnoc(ns: seq<nat>, x: nat)
    ensures NatSum(ns + [x]) == NatSum(ns) + x
  {
    if ns != [] {
      assert (ns + [x])[1..] == ns[1..] + [x];
      NatSumSnoc(ns[1..], x);
    }
  }

  lemma {:induction false} SumSnoc(ls: seq<real>, x: real)
    ensures Sum(ls + [x]) == Sum(ls) + x
  {
    if ls != [] {
      assert (ls + [x])[1..] == ls[1..] + [x];
      SumSnoc(ls[1..], x);
    }
  }

  /** One more year adds every year's amount once more. */
  lemma {:induction false} WeightedSnoc(ls: seq<real>, x: real)
    ensures Weighted(ls + [x]) == Weighted(ls) + Sum(ls) + x
  {
    if ls != [] {
      assert (ls + [x])[1..] == ls[1..] + [x];
      WeightedSnoc(ls[1..], x);
      assert ((|ls| + 1) as real) * ls[0] == (|ls| as real) * ls[0] + ls[0];
    }
  }

  /** The events of each year, year by year. */
  function EventsOf(ys: seq<YearResult>): (es: seq<seq<Record>>)
    ensures |es| == |ys|
  {
    seq(|ys|, j requires 0 <= j < |ys| => ys[j].events)
  }

  /** The episodes of each year, year by year. */
  function EpisodesOf(ys: seq<YearResult>): (es: seq<seq<Record>>)
    ensures |es| == |ys|
  {
    seq(|ys|, j requires 0 <= j < |ys| => ys[j].episodes)
  }

  lemma PerYearSnoc(ys: seq<YearResult>, y: YearResult)
    ensures EventsOf(ys + [y]) == EventsOf(ys) + [y.events]
    ensures EpisodesOf(ys + [y]) == EpisodesOf(ys) + [y.episodes]
  {
  }

  /** With every file found, one more file is one more year folded in. */
  lemma RunYearsFoundStep(names: seq<string>, files: map<string, seq<Record>>, filter: string,
                          parse: string -> Stamp)
    requires FilesParsed(files) && AllFound(names, files) && names != []
    ensures AllFound(names[..|names| - 1], files)
    ensures var p0 := RunYears(names[..|names| - 1], files, filter, parse);
            var rows := files[names[|names| - 1]];
            p0.Going? &&
            RunYears(names, files, filter, parse) ==
              Going(AddAllLosses(p0.totals, Kept(rows, filter, parse)),
                    Accumulate(p0.acc, YearOf(rows, filter, parse, p0.totals)))
  {
    AllFoundSnoc(names, files);
    RunYearsFound(names[..|names| - 1], files, filter, parse);
  }

  /** The events, episodes and row count of a year do not depend on the totals it starts from. */
  lemma YearOfTotalsFree(rows: seq<Record>, filter: string, parse: string -> Stamp, t: seq<real>, u: seq<real>)
    requires AllStormRows(rows) && |t| == |LossHeadersAll| && |u| == |LossHeadersAll|
    ensures YearOf(rows, filter, parse, t).events == YearOf(rows, filter, parse, u).events
    ensures YearOf(rows, filter, parse, t).episodes == YearOf(rows, filter, parse, u).episodes
    ensures YearOf(rows, filter, parse, t).cntAllEvents == YearOf(rows, filter, parse, u).cntAllEvents
  {
  }

  /** The loop gets through all the years exactly when every file is found. */
  lemma {:induction false} RunYearsFound(names: seq<string>, files: map<string, seq<Record>>, filter: string,
                                         parse: string -> Stamp)
    requires FilesParsed(files)
    ensures RunYears(names, files, filter, parse).Going? <==> AllFound(names, files)
  {
    if names != [] {
      var n := |names| - 1;
      var init := names[..n];
      RunYearsFound(init, files, filter, parse);
      var p0 := RunYears(init, files, filter, parse);
      assert RunYears(names, files, filter, parse) == Advance(p0, names[n], files, filter, parse);
      AllFoundSnoc(names, files);
    }
  }

  /** The first file that is missing ends the run with its message; nothing of the years before it is kept. */
  lemma RunYearsFirstMissing(names: seq<string>, k: nat, files: map<string, seq<Record>>, filter: string,
                             parse: string -> Stamp)
    requires FilesParsed(files) && k < |names| && names[k] !in files && AllFound(names[..k], files)
    ensures RunYears(names, files, filter, parse) == Stopped("The SED file " + names[k] + " was not found.")
  {
    RunYearsFound(names[..k], files, filter, parse);
    RunYearsStep(names, k, files, filter, parse);
    RunYearsStays(names, k + 1, files, filter, parse);
  }

  /** When all files are found, `allRes` holds every year's events and episodes in turn and counts all rows. */
  lemma {:induction false} RunYearsContents(names: seq<string>, files: map<string, seq<Record>>, filter: string,
                                            parse: string -> Stamp)
    requires FilesParsed(files) && AllFound(names, files)
    ensures var p := RunYears(names, files, filter, parse);
            var ys := YearResults(names, files, filter, parse);
            p.Going? &&
            p.acc.events == Flatten(EventsOf(ys)) &&
            p.acc.episodes == Flatten(EpisodesOf(ys)) &&
            p.acc.cntAllEvents == NatSum(RowCounts(names, files))
  {
    RunYearsFound(names, files, filter, parse);
    if names != [] {
      var init := names[..|names| - 1];
      var rows := files[names[|names| - 1]];
      RunYearsFoundStep(names, files, filter, parse);
      AllFoundSnoc(names, files);
      RunYearsContents(init, files, filter, parse);
      var p0 := RunYears(init, files, filter, parse);
      var y := YearOf(rows, filter, parse, ZeroTotals());
      YearOfTotalsFree(rows, filter, parse, p0.totals, ZeroTotals());
      YearOfEvents(rows, filter, parse, ZeroTotals(), 0);
      PerYearSnoc(YearResults(init, files, filter, parse), y);
      NatSumSnoc(RowCounts(init, files), |rows|);
    }
  }

  /**
   * The totals object is shared by all the years and never reset (index.js:197, 258, 330), so after
   * the `n` years it holds each year's losses once, and `allRes.losses` holds the losses of the
   * first year `n` times, of the second `n - 1` times, ..., of the last once.
   */
  lemma {:induction false} RunYearsLosses(names: seq<string>, files: map<string, seq<Record>>, filter: string,
                                          parse: string -> Stamp, h: nat)
    requires FilesParsed(files) && AllFound(names, files) && h < |LossHeadersAll|
    ensures var p := RunYears(names, files, filter, parse);
            p.Going? &&
            p.totals[h] == Sum(YearLosses(names, files, filter, parse, h)) &&
            p.acc.losses[h] == Weighted(YearLosses(names, files, filter, parse, h))
  {
    if names != [] {
      var init := names[..|names| - 1];
      var rows := files[names[|names| - 1]];
      RunYearsFoundStep(names, files, filter, parse);
      RunYearsLosses(init, files, filter, parse, h);
      var p0 := RunYears(init, files, filter, parse);
      var c := ColumnSum(Kept(rows, filter, parse), h);
      AdvanceLosses(p0.totals, p0.acc, rows, filter, parse, h);
      SumSnoc(YearLosses(init, files, filter, parse, h), c);
      WeightedSnoc(YearLosses(init, files, filter, parse, h), c);
    }
  }

  /** One year adds its kept losses to the shared totals, and the grown totals to `allRes`. */
  lemma AdvanceLosses(t: seq<real>, acc: AllResults, rows: seq<Record>, filter: string, parse: string -> Stamp,
                      h: nat)
    requires AllStormRows(rows) && |t| == |LossHeadersAll| && |acc.losses| == |LossHeadersAll|
    requires h < |LossHeadersAll|
    ensures var c := ColumnSum(Kept(rows, filter, parse), h);
            && AddAllLosses(t, Kept(rows, filter, parse))[h] == t[h] + c
            && Accumulate(acc, YearOf(rows, filter, parse, t)).losses[h] == acc.losses[h] + t[h] + c
  {
    AddAllLossesSum(t, Kept(rows, filter, parse), h);
    YearOfLosses(rows, filter, parse, t, h);
  }

  /** One pass of the loop of `main` (index.js:324-333) on the shared totals. */
  method NextYear(file: string, files: map<string, seq<Record>>, filter: string, parse: string -> Stamp,
                  shared: LossTotals, all: AllResults) returns (q: Progress)
    requires FilesParsed(files) && |shared.totals| == |LossHeadersAll| && |all.losses| == |LossHeadersAll|
    modifies shared
    ensures q == Advance(Going(old(shared.totals), all), file, files, filter, parse)
    ensures q.Going? ==> shared.totals == q.totals
  {
    var res := ProcessSedCsv(file, files, filter, parse, shared);
    match res
    case Rejected(m) =>
      q := Stopped(m);
    case Resolved(r) =>
      var losses := AddYearLosses(all.losses, r.losses);
      q := Going(shared.totals, AllResults(all.events + r.events, all.cntAllEvents + r.cntAllEvents,
                                           all.episodes + r.episodes, losses));
  }

  /** The loop of `main` over the years (index.js:323-335): it stops at the first rejected year. */
  method RunYearsLoop(yrs: seq<int>, files: map<string, seq<Record>>, filter: string,
                      parse: string -> Stamp) returns (p: Progress)
    requires FilesParsed(files)
    ensures p == RunYears(FileNames(yrs), files, filter, parse)
  {
    ghost var names := FileNames(yrs);
    var shared := new LossTotals();
    var all := NoResults;
    for i := 0 to |yrs|
      invariant RunYears(names[..i], files, filter, parse) == Going(shared.totals, all)
    {
      assert RunYears(names[..i + 1], files, filter, parse) ==
             Advance(Going(shared.totals, all), FileName(yrs[i]), files, filter, parse) by {
        RunYearsStep(names, i, files, filter, parse);
      }
      var q := NextYear(FileName(yrs[i]), files, filter, parse, shared, all);
      if q.Stopped? {
        assert RunYears(names, files, filter, parse) == q by {
          RunYearsStays(names, i + 1, files, filter, parse);
          assert names[..|names|] == names;
        }
        return q;
      }
      all := q.acc;
    }
    assert names[..|yrs|] == names;
    return Going(shared.totals, all);
  }

  /** `main` (index.js:305-344), up to writing the output package. */
  method RunPipeline(yrsInput: seq<YearInput>, filter: string, files: map<string, seq<Record>>,
                     existing: set<string>, parse: string -> Stamp) returns (out: Outcome)
    requires FilesParsed(files)
    ensures out == Pipeline(yrsInput, filter, files, existing, parse)
  {
    var path := OutputPath(yrsInput, filter);
    if path in existing {
      return OutputExists(path);
    }
    var yrs := ExpandYears(yrsInput);
    if |yrs| == 0 {
      return NoValidYears;
    }
    var p := RunYearsLoop(yrs, files, filter, parse);
    match p
    case Stopped(m) => out := YearFailed(m);
    case Going(_, all) => out := Completed(path, all);
  }
}
