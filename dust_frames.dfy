/**
 * The legacy pipeline's driver (backend/dust_processing/index.js:571-678): `nextFrame`
 * runs `convertDustDB` on one year after the other and, each time a year's results
 * come back, appends them to the module-level `data` and `episodeData`, adds up the
 * counts and the losses, and records in `splits` where each year's events and
 * episodes start.
 */
module DustFrames {
  import opened JsValues
  import opened DustConvert
  import opened Lists

  // ---------------------------------------------------------------------------
  // Sums and concatenations
  // ---------------------------------------------------------------------------

  /** The first `m` running totals of `ns`: entry `k` adds up the `k` numbers before it. */
  function PrefixTotals(ns: seq<nat>, m: nat): (r: seq<nat>)
    requires m <= |ns| + 1
    ensures |r| == m
  {
    seq(m, k requires 0 <= k < m => Total(ns[..k]))
  }

  /**
   * `splits.events` or `splits.episodes` after the run: one entry per year, the
   * number of elements of the earlier years; `[0]` when there is no year.
   */
  function Splits(ns: seq<nat>): (r: seq<nat>)
    ensures |r| == if |ns| == 0 then 1 else |ns|
  {
    PrefixTotals(ns, if |ns| == 0 then 1 else |ns|)
  }

  /**
   * Part `k` sits in the concatenation at the offset its split records: the
   * elements from `Splits(...)[k]` on are exactly that part.
   */
  lemma SplitsLocate<T>(ss: seq<seq<T>>, k: nat)
    requires k < |ss|
    ensures var s := Splits(Lengths(ss))[k];
      s + |ss[k]| <= |Flatten(ss)| && Flatten(ss)[s..s + |ss[k]|] == ss[k]
  {
    var before := ss[..k];
    assert ss == before + [ss[k]] + ss[k + 1..];
    FlattenAppend(before + [ss[k]], ss[k + 1..]);
    assert (before + [ss[k]])[..k] == before;
    FlattenLength(before);
    assert Lengths(ss)[..k] == Lengths(before);
  }

  /** Appending a number leaves the earlier running totals as they were. */
  lemma PrefixTotalsSnoc(ns: seq<nat>, x: nat)
    ensures PrefixTotals(ns + [x], |ns| + 1) == PrefixTotals(ns, |ns| + 1)
  {
    forall k | 0 <= k <= |ns| ensures (ns + [x])[..k] == ns[..k] {
    }
  }

  /** How many splits there are after `n` years: one more while a year is still to come. */
  function Ends(n: nat, more: bool): nat
  {
    if more then n + 1 else if n == 0 then 1 else n
  }

  /** `splits` holds the running totals of the sizes `ns`, as many as `Ends` says. */
  predicate SplitsAre(splits: seq<nat>, ns: seq<nat>, more: bool)
  {
    splits == PrefixTotals(ns, Ends(|ns|, more))
  }

  /**
   * One `nextFrame` step on a split list: with years still to come it pushes the
   * previous split plus the year's size, which is the next running total; after the
   * last year it pushes nothing, and the list is the final `Splits`.
   */
  lemma SplitsStep(ns: seq<nat>, x: nat, splits: seq<nat>, more: bool)
    requires SplitsAre(splits, ns, true)
    ensures |splits| > 0
    ensures SplitsAre(splits + (if more then [splits[|splits| - 1] + x] else []), ns + [x], more)
  {
    PrefixTotalsSnoc(ns, x);
    assert splits[|ns|] == Total(ns) by {
      assert ns[..|ns|] == ns;
    }
    if more {
      var longer := PrefixTotals(ns + [x], |ns| + 2);
      assert longer[|ns| + 1] == Total(ns) + x by {
        assert (ns + [x])[..|ns| + 1] == ns + [x];
        assert (ns + [x])[..|ns|] == ns;
      }
      assert longer[..|ns| + 1] == PrefixTotals(ns + [x], |ns| + 1);
      assert longer == longer[..|ns| + 1] + [longer[|ns| + 1]];
    }
  }

  /** Once no year is to come, the split list is the final `Splits`. */
  lemma SplitsDone(splits: seq<nat>, ns: seq<nat>)
    requires SplitsAre(splits, ns, false)
    ensures splits == Splits(ns)
  {
  }

  // ---------------------------------------------------------------------------
  // One year's results and the whole run
  // ---------------------------------------------------------------------------

  /** What `convertDustDB` hands to its callback: `(events, numEvents, episodes, totalLosses)`. */
  datatype YearResult = YearResult(events: seq<Record>, numEvents: nat, episodes: seq<Record>, losses: seq<real>)

  /** The year's results, as `ConvertDustDB` computes them. */
  function ConvertYear(rows: seq<Record>, searchType: string, dataType: string, parse: string -> Stamp): (r: YearResult)
    requires AllDustRows(rows)
    ensures |r.events| <= r.numEvents && |r.losses| == |LossFields|
  {
    YearResult(Converted(rows, searchType, dataType, parse), |rows|,
               EpisodeList(Grouped(rows, searchType, dataType, parse), Order(rows, searchType, dataType, parse)),
               Totals(rows, searchType, dataType))
  }

  function EventsOf(rs: seq<YearResult>): (ss: seq<seq<Record>>)
    ensures |ss| == |rs| && forall i :: 0 <= i < |rs| ==> ss[i] == rs[i].events
  {
    seq(|rs|, i requires 0 <= i < |rs| => rs[i].events)
  }

  function EpisodesOf(rs: seq<YearResult>): (ss: seq<seq<Record>>)
    ensures |ss| == |rs| && forall i :: 0 <= i < |rs| ==> ss[i] == rs[i].episodes
  {
    seq(|rs|, i requires 0 <= i < |rs| => rs[i].episodes)
  }

  function Counts(rs: seq<YearResult>): (ns: seq<nat>)
    ensures |ns| == |rs| && forall i :: 0 <= i < |rs| ==> ns[i] == rs[i].numEvents
  {
    seq(|rs|, i requires 0 <= i < |rs| => rs[i].numEvents)
  }

  predicate LossesSized(rs: seq<YearResult>)
  {
    forall i :: 0 <= i < |rs| ==> |rs[i].losses| == |LossFields|
  }

  /** `totalLossesAllYears` after the years `rs`. */
  function LossesSum(rs: seq<YearResult>): (t: seq<real>)
    requires LossesSized(rs)
    ensures |t| == |LossFields|
  {
    if rs == [] then ZeroLosses else AddTotals(LossesSum(rs[..|rs| - 1]), rs[|rs| - 1].losses)
  }

  /** The output package (`splits`, `counts`, `events`, `episodes`); its `date` is left out. */
  datatype Package = Package(splitsEvents: seq<nat>, splitsEpisodes: seq<nat>, filtered: nat, total: nat,
                             events: seq<Record>, episodes: seq<Record>)

  function PackageOf(rs: seq<YearResult>): Package
  {
    var events := Flatten(EventsOf(rs));
    Package(Splits(Lengths(EventsOf(rs))), Splits(Lengths(EpisodesOf(rs))), |events|, Total(Counts(rs)),
            events, Flatten(EpisodesOf(rs)))
  }

  /** Every year's events are at their split in the package, and so are its episodes. */
  lemma PackageSplits(rs: seq<YearResult>, k: nat)
    requires k < |rs|
    ensures var p := PackageOf(rs);
      && p.splitsEvents[k] + |rs[k].events| <= |p.events|
      && p.events[p.splitsEvents[k]..p.splitsEvents[k] + |rs[k].events|] == rs[k].events
      && p.splitsEpisodes[k] + |rs[k].episodes| <= |p.episodes|
      && p.episodes[p.splitsEpisodes[k]..p.splitsEpisodes[k] + |rs[k].episodes|] == rs[k].episodes
  {
    SplitsLocate(EventsOf(rs), k);
    SplitsLocate(EpisodesOf(rs), k);
  }

  /** No year keeps more events than it read, so `counts.filtered` never exceeds `counts.total`. */
  lemma {:induction false} FilteredAtMostTotal(rs: seq<YearResult>)
    requires forall i :: 0 <= i < |rs| ==> |rs[i].events| <= rs[i].numEvents
    ensures PackageOf(rs).filtered <= PackageOf(rs).total
  {
    if rs != [] {
      var init := rs[..|rs| - 1];
      FilteredAtMostTotal(init);
      assert EventsOf(rs)[..|rs| - 1] == EventsOf(init);
      assert Counts(rs)[..|rs| - 1] == Counts(init);
    }
  }

  /** The years `first..last`, none when `first > last`. */
  function Years(first: int, last: int): (ys: seq<int>)
    ensures |ys| == if first <= last then last - first + 1 else 0
    ensures forall i :: 0 <= i < |ys| ==> ys[i] == first + i
  {
    seq(if first <= last then last - first + 1 else 0, i requires i >= 0 => first + i)
  }

  predicate FilesReady(files: map<int, seq<Record>>)
  {
    forall y :: y in files ==> AllDustRows(files[y])
  }

  lemma FileRows(files: map<int, seq<Record>>, y: int)
    requires FilesReady(files) && y in files
    ensures AllDustRows(files[y])
  {
  }

  /** The first year whose file is missing: reading it throws and ends the run. */
  function FirstMissing(ys: seq<int>, files: map<int, seq<Record>>): (m: Option<int>)
    ensures m.None? <==> forall i :: 0 <= i < |ys| ==> ys[i] in files
    ensures m.Some? ==> exists i :: 0 <= i < |ys| && ys[i] == m.value && m.value !in files &&
                                    forall j :: 0 <= j < i ==> ys[j] in files
  {
    if ys == [] then None
    else if ys[0] !in files then Some(ys[0])
    else
      var m := FirstMissing(ys[1..], files);
      if m.Some? then
        ghost var i :| 0 <= i < |ys[1..]| && ys[1..][i] == m.value && m.value !in files &&
                       forall j :: 0 <= j < i ==> ys[1..][j] in files;
        assert ys[i + 1] == m.value;
        m
      else m
  }

  function Results(ys: seq<int>, files: map<int, seq<Record>>, searchType: string, dataType: string,
                   parse: string -> Stamp): (rs: seq<YearResult>)
    requires FilesReady(files) && forall i :: 0 <= i < |ys| ==> ys[i] in files
    ensures |rs| == |ys| && LossesSized(rs)
  {
    if ys == [] then []
    else
      var y := ys[|ys| - 1];
      FileRows(files, y);
      Results(ys[..|ys| - 1], files, searchType, dataType, parse) + [ConvertYear(files[y], searchType, dataType, parse)]
  }

  datatype RunOutcome = Packed(package: Package, totalLosses: seq<real>) | ReadFailed(year: int)

  /** The whole run over `first..last`: the package and the logged totals, or the year whose file is missing. */
  function Run(first: int, last: int, files: map<int, seq<Record>>, searchType: string, dataType: string,
               parse: string -> Stamp): RunOutcome
    requires FilesReady(files)
  {
    var ys := Years(first, last);
    match FirstMissing(ys, files)
    case Some(y) => ReadFailed(y)
    case None =>
      var rs := Results(ys, files, searchType, dataType, parse);
      Packed(PackageOf(rs), LossesSum(rs))
  }

  // ---------------------------------------------------------------------------
  // The module globals and `nextFrame`
  // ---------------------------------------------------------------------------

  /** What `nextFrame` does after its bookkeeping: convert the next year, or pack the data. */
  datatype Action = Convert(year: int) | Pack

  /** The module-level state `nextFrame` updates (backend/dust_processing/index.js:571, 575-582). */
  class Frames {
    const first: int
    const last: int
    var current: int
    var splitsEvents: seq<nat>
    var splitsEpisodes: seq<nat>
    var data: seq<Record>
    var eventsCounted: nat
    var episodeData: seq<Record>
    var totalLossesAllYears: seq<real>

    predicate Valid()
      reads this
    {
      |splitsEvents| > 0 && |splitsEpisodes| > 0 && |totalLossesAllYears| == |LossFields|
    }

    constructor (first: int, last: int)
      ensures this.first == first && this.last == last && current == first
      ensures splitsEvents == [0] && splitsEpisodes == [0]
      ensures data == [] && eventsCounted == 0 && episodeData == [] && totalLossesAllYears == ZeroLosses
      ensures Valid()
    {
      this.first := first;
      this.last := last;
      current := first;
      splitsEvents, splitsEpisodes := [0], [0];
      data, eventsCounted, episodeData := [], 0, [];
      totalLossesAllYears := ZeroLosses;
    }

    /**
     * `nextFrame(events, totalEvents, episodes, totalLosses)`. The first call, with
     * `current` still the first year, only prepares the output directory. Every later
     * call appends the year's results and adds up its counts and losses; it pushes the
     * next split only while years remain, so the last year's end is never recorded.
     * Then the next year is converted, or the data is packed.
     */
    method NextFrame(r: YearResult) returns (action: Action)
      requires Valid() && |r.losses| == |LossFields|
      modifies this
      ensures Valid()
      ensures old(current) == first ==>
        && splitsEvents == old(splitsEvents) && splitsEpisodes == old(splitsEpisodes)
        && data == old(data) && eventsCounted == old(eventsCounted) && episodeData == old(episodeData)
        && totalLossesAllYears == old(totalLossesAllYears)
      ensures old(current) != first ==>
        && splitsEvents == old(splitsEvents) +
             (if old(current) <= last then [old(splitsEvents)[|old(splitsEvents)| - 1] + |r.events|] else [])
        && splitsEpisodes == old(splitsEpisodes) +
             (if old(current) <= last then [old(splitsEpisodes)[|old(splitsEpisodes)| - 1] + |r.episodes|] else [])
        && data == old(data) + r.events
        && eventsCounted == old(eventsCounted) + r.numEvents
        && episodeData == old(episodeData) + r.episodes
        && totalLossesAllYears == AddTotals(old(totalLossesAllYears), r.losses)
      ensures action == if old(current) <= last then Convert(old(current)) else Pack
      ensures current == if old(current) <= last then old(current) + 1 else old(current)
    {
      if current != first {
        if current <= last {
          splitsEvents := splitsEvents + [splitsEvents[|splitsEvents| - 1] + |r.events|];
          splitsEpisodes := splitsEpisodes + [splitsEpisodes[|splitsEpisodes| - 1] + |r.episodes|];
        }
        data := data + r.events;
        eventsCounted := eventsCounted + r.numEvents;
        episodeData := episodeData + r.episodes;
        var totals := totalLossesAllYears;
        for j := 0 to |LossFields|
          invariant |totals| == |LossFields|
          invariant forall q :: 0 <= q < |LossFields| ==>
            totals[q] == if q < j then totalLossesAllYears[q] + r.losses[q] else totalLossesAllYears[q]
        {
          totals := totals[j := totals[j] + r.losses[j]];
        }
        totalLossesAllYears := totals;
      }
      if current <= last {
        action := Convert(current);
        current := current + 1;
      } else {
        action := Pack;
      }
    }
  }

  // ---------------------------------------------------------------------------
  // The run, with the asynchronous callbacks unrolled into a loop
  // ---------------------------------------------------------------------------

  /** The globals once the years `rs` came back; `more` says whether a year is still to come. */
  predicate Holds(splitsEvents: seq<nat>, splitsEpisodes: seq<nat>, data: seq<Record>, counted: nat,
                  episodeData: seq<Record>, totals: seq<real>, rs: seq<YearResult>, more: bool)
    requires LossesSized(rs)
  {
    && SplitsAre(splitsEvents, Lengths(EventsOf(rs)), more)
    && SplitsAre(splitsEpisodes, Lengths(EpisodesOf(rs)), more)
    && data == Flatten(EventsOf(rs))
    && counted == Total(Counts(rs))
    && episodeData == Flatten(EpisodesOf(rs))
    && totals == LossesSum(rs)
  }

  predicate FramesHold(f: Frames, rs: seq<YearResult>, more: bool)
    reads f
    requires LossesSized(rs)
  {
    Holds(f.splitsEvents, f.splitsEpisodes, f.data, f.eventsCounted, f.episodeData, f.totalLossesAllYears, rs, more)
  }

  /** One more year's results extend the per-year sizes by that year's. */
  lemma LengthsStep(rs: seq<YearResult>, r: YearResult)
    ensures Lengths(EventsOf(rs + [r])) == Lengths(EventsOf(rs)) + [|r.events|]
    ensures Lengths(EpisodesOf(rs + [r])) == Lengths(EpisodesOf(rs)) + [|r.episodes|]
  {
  }

  /** One more year's results, as `NextFrame` appends them. */
  lemma ContentsStep(rs: seq<YearResult>, r: YearResult)
    requires LossesSized(rs) && |r.losses| == |LossFields|
    ensures LossesSized(rs + [r])
    ensures var rs' := rs + [r];
      && Flatten(EventsOf(rs')) == Flatten(EventsOf(rs)) + r.events
      && Flatten(EpisodesOf(rs')) == Flatten(EpisodesOf(rs)) + r.episodes
      && Total(Counts(rs')) == Total(Counts(rs)) + r.numEvents
      && LossesSum(rs') == AddTotals(LossesSum(rs), r.losses)
  {
    var rs' := rs + [r];
    assert rs'[..|rs'| - 1] == rs;
    assert EventsOf(rs')[..|rs|] == EventsOf(rs);
    assert EpisodesOf(rs')[..|rs|] == EpisodesOf(rs);
    assert Counts(rs')[..|rs|] == Counts(rs);
  }

  /** A `nextFrame` call that follows a year keeps the globals in step with the results. */
  lemma HoldsStep(splitsEvents: seq<nat>, splitsEpisodes: seq<nat>, data: seq<Record>, counted: nat,
                   episodeData: seq<Record>, totals: seq<real>,
                   splitsEvents': seq<nat>, splitsEpisodes': seq<nat>, data': seq<Record>, counted': nat,
                   episodeData': seq<Record>, totals': seq<real>, rs: seq<YearResult>, r: YearResult, more: bool)
    requires LossesSized(rs) && |r.losses| == |LossFields|
    requires Holds(splitsEvents, splitsEpisodes, data, counted, episodeData, totals, rs, true)
    requires |splitsEvents| > 0 && |splitsEpisodes| > 0 && |totals| == |r.losses|
    requires splitsEvents' == splitsEvents + (if more then [splitsEvents[|splitsEvents| - 1] + |r.events|] else [])
    requires splitsEpisodes' == splitsEpisodes + (if more then [splitsEpisodes[|splitsEpisodes| - 1] + |r.episodes|] else [])
    requires data' == data + r.events && counted' == counted + r.numEvents && episodeData' == episodeData + r.episodes
    requires totals' == AddTotals(totals, r.losses)
    ensures LossesSized(rs + [r])
    ensures Holds(splitsEvents', splitsEpisodes', data', counted', episodeData', totals', rs + [r], more)
  {
    var rs' := rs + [r];
    assert SplitsAre(splitsEvents', Lengths(EventsOf(rs')), more) by {
      LengthsStep(rs, r);
      SplitsStep(Lengths(EventsOf(rs)), |r.events|, splitsEvents, more);
    }
    assert SplitsAre(splitsEpisodes', Lengths(EpisodesOf(rs')), more) by {
      LengthsStep(rs, r);
      SplitsStep(Lengths(EpisodesOf(rs)), |r.episodes|, splitsEpisodes, more);
    }
    ContentsStep(rs, r);
  }

  /** A `nextFrame` call after a year: the globals take in the year's results. */
  method Advance(frames: Frames, ghost rs: seq<YearResult>, r: YearResult) returns (action: Action)
    requires LossesSized(rs) && |r.losses| == |LossFields|
    requires FramesHold(frames, rs, true) && frames.current != frames.first
    modifies frames
    ensures LossesSized(rs + [r])
    ensures FramesHold(frames, rs + [r], action.Convert?)
    ensures action == if old(frames.current) <= frames.last then Convert(old(frames.current)) else Pack
    ensures frames.current == if old(frames.current) <= frames.last then old(frames.current) + 1 else old(frames.current)
  {
    ghost var more := frames.current <= frames.last;
    ghost var splitsEvents, splitsEpisodes := frames.splitsEvents, frames.splitsEpisodes;
    ghost var data, counted, episodeData := frames.data, frames.eventsCounted, frames.episodeData;
    ghost var totals := frames.totalLossesAllYears;
    action := frames.NextFrame(r);
    HoldsStep(splitsEvents, splitsEpisodes, data, counted, episodeData, totals,
              frames.splitsEvents, frames.splitsEpisodes, frames.data, frames.eventsCounted,
              frames.episodeData, frames.totalLossesAllYears, rs, r, more);
  }

  lemma ResultsSnoc(ys: seq<int>, files: map<int, seq<Record>>, searchType: string, dataType: string,
                    parse: string -> Stamp, k: nat, y: int)
    requires FilesReady(files) && k < |ys| && y == ys[k] && forall i :: 0 <= i <= k ==> ys[i] in files
    ensures AllDustRows(files[y])
    ensures Results(ys[..k + 1], files, searchType, dataType, parse) ==
            Results(ys[..k], files, searchType, dataType, parse) +
            [ConvertYear(files[y], searchType, dataType, parse)]
  {
    FileRows(files, y);
    assert ys[..k + 1][..k] == ys[..k];
  }

  /** Year `t`'s entry in the results is the conversion of that year's file. */
  lemma {:induction false} ResultsAt(ys: seq<int>, files: map<int, seq<Record>>, searchType: string,
                                     dataType: string, parse: string -> Stamp, t: nat)
    requires FilesReady(files) && (forall i :: 0 <= i < |ys| ==> ys[i] in files) && t < |ys|
    ensures AllDustRows(files[ys[t]])
    ensures Results(ys, files, searchType, dataType, parse)[t] == ConvertYear(files[ys[t]], searchType, dataType, parse)
  {
    FileRows(files, ys[t]);
    if t < |ys| - 1 {
      var init := ys[..|ys| - 1];
      ResultsAt(init, files, searchType, dataType, parse, t);
      assert init[t] == ys[t];
    }
  }

  /** `convertDustDB` on one year's rows, its callback's arguments gathered. */
  method ConvertFile(rows: seq<Record>, searchType: string, dataType: string, parse: string -> Stamp)
    returns (r: YearResult)
    requires AllDustRows(rows)
    ensures r == ConvertYear(rows, searchType, dataType, parse)
  {
    var events, numEvents, episodes, losses := ConvertDustDB(rows, searchType, dataType, parse);
    r := YearResult(events, numEvents, episodes, losses);
  }

  /** Once every year came back, the globals are the package and the totals of the run. */
  lemma PackedHolds(splitsEvents: seq<nat>, splitsEpisodes: seq<nat>, data: seq<Record>, counted: nat,
                    episodeData: seq<Record>, totals: seq<real>, rs: seq<YearResult>)
    requires LossesSized(rs)
    requires Holds(splitsEvents, splitsEpisodes, data, counted, episodeData, totals, rs, false)
    ensures Package(splitsEvents, splitsEpisodes, |data|, counted, data, episodeData) == PackageOf(rs)
    ensures totals == LossesSum(rs)
  {
    SplitsDone(splitsEvents, Lengths(EventsOf(rs)));
    SplitsDone(splitsEpisodes, Lengths(EpisodesOf(rs)));
  }

  /** How far the run has come: the years `rs` came back, and `action` says what comes next. */
  predicate Progress(current: int, action: Action, rs: seq<YearResult>, ys: seq<int>,
                     files: map<int, seq<Record>>, searchType: string, dataType: string, parse: string -> Stamp)
    requires FilesReady(files)
  {
    && |rs| <= |ys| && (forall i :: 0 <= i < |rs| ==> ys[i] in files)
    && rs == Results(ys[..|rs|], files, searchType, dataType, parse)
    && (action.Convert? ==> |rs| < |ys| && action.year == ys[|rs|] && current == action.year + 1)
    && (action.Pack? ==> |rs| == |ys|)
  }

  /** Between two `nextFrame` calls: the run's progress, and the frames holding what it gathered. */
  predicate Between(frames: Frames, action: Action, rs: seq<YearResult>, ys: seq<int>,
                    files: map<int, seq<Record>>, searchType: string, dataType: string, parse: string -> Stamp)
    reads frames
    requires FilesReady(files)
  {
    && Progress(frames.current, action, rs, ys, files, searchType, dataType, parse)
    && FramesHold(frames, rs, action.Convert?)
  }

  /** Converting the year `action` names and stepping the counter moves the run one year on. */
  lemma ProgressStep(first: int, last: int, current: int, action: Action, rs: seq<YearResult>, ys: seq<int>,
                     files: map<int, seq<Record>>, searchType: string, dataType: string, parse: string -> Stamp)
    requires FilesReady(files) && ys == Years(first, last)
    requires Progress(current, action, rs, ys, files, searchType, dataType, parse)
    requires action.Convert? && action.year in files
    ensures AllDustRows(files[action.year])
    ensures var r := ConvertYear(files[action.year], searchType, dataType, parse);
            var next := if current <= last then Convert(current) else Pack;
            Progress(if current <= last then current + 1 else current, next, rs + [r], ys,
                     files, searchType, dataType, parse)
  {
    ResultsSnoc(ys, files, searchType, dataType, parse, |rs|, action.year);
  }

  /** A year whose file is there: convert it and hand the results to `nextFrame`. */
  method ConvertPresent(frames: Frames, action: Action, ghost rs: seq<YearResult>, ghost ys: seq<int>,
                        files: map<int, seq<Record>>, searchType: string, dataType: string, parse: string -> Stamp)
    returns (next: Action, ghost rs': seq<YearResult>)
    requires FilesReady(files) && action.Convert? && action.year in files
    requires ys == Years(frames.first, frames.last)
    requires Between(frames, action, rs, ys, files, searchType, dataType, parse)
    modifies frames
    ensures |rs'| == |rs| + 1 && Between(frames, next, rs', ys, files, searchType, dataType, parse)
  {
    var y := action.year;
    ProgressStep(frames.first, frames.last, frames.current, action, rs, ys, files, searchType, dataType, parse);
    var r := ConvertFile(files[y], searchType, dataType, parse);
    rs' := rs + [r];
    next := Advance(frames, rs, r);
  }

  /**
   * One year of the run: read the year's file (a missing one ends the run), convert
   * it, and hand the results to `nextFrame`.
   */
  method RunYear(frames: Frames, action: Action, ghost rs: seq<YearResult>, ghost ys: seq<int>,
                 files: map<int, seq<Record>>, searchType: string, dataType: string, parse: string -> Stamp)
    returns (missing: bool, next: Action, ghost rs': seq<YearResult>)
    requires FilesReady(files) && action.Convert?
    requires ys == Years(frames.first, frames.last)
    requires Between(frames, action, rs, ys, files, searchType, dataType, parse)
    modifies frames
    ensures missing ==> FirstMissing(ys, files) == Some(action.year)
    ensures !missing ==> |rs'| == |rs| + 1 && Between(frames, next, rs', ys, files, searchType, dataType, parse)
  {
    var y := action.year;
    if y !in files {
      FirstMissingAt(ys, files, |rs|);
      return true, action, rs;
    }
    missing := false;
    next, rs' := ConvertPresent(frames, action, rs, ys, files, searchType, dataType, parse);
  }

  /**
   * The run of the legacy pipeline over the years `first..last`: `nextFrame()`, then
   * for each year `convertDustDB` and the `nextFrame` it calls back, until the data is
   * packed. A missing year file ends the run.
   */
  method RunFrames(first: int, last: int, files: map<int, seq<Record>>, searchType: string, dataType: string,
                   parse: string -> Stamp) returns (out: RunOutcome)
    requires FilesReady(files)
    ensures out == Run(first, last, files, searchType, dataType, parse)
  {
    var frames := new Frames(first, last);
    var action := frames.NextFrame(YearResult([], 0, [], ZeroLosses));
    ghost var ys := Years(first, last);
    ghost var rs: seq<YearResult> := [];
    while action.Convert?
      invariant frames.first == first && frames.last == last
      invariant Between(frames, action, rs, ys, files, searchType, dataType, parse)
      decreases |ys| - |rs|, if action.Convert? then 1 else 0
    {
      var y := action.year;
      var missing;
      missing, action, rs := RunYear(frames, action, rs, ys, files, searchType, dataType, parse);
      if missing {
        return ReadFailed(y);
      }
    }
    out := Finish(frames, rs, files, searchType, dataType, parse);
  }

  /** The end of a run in which every year's file was there: the package and the totals. */
  method Finish(frames: Frames, ghost rs: seq<YearResult>, files: map<int, seq<Record>>, searchType: string,
                dataType: string, parse: string -> Stamp) returns (out: RunOutcome)
    requires FilesReady(files)
    requires Between(frames, Pack, rs, Years(frames.first, frames.last), files, searchType, dataType, parse)
    ensures out == Run(frames.first, frames.last, files, searchType, dataType, parse)
  {
    ghost var ys := Years(frames.first, frames.last);
    assert ys[..|rs|] == ys;
    PackedHolds(frames.splitsEvents, frames.splitsEpisodes, frames.data, frames.eventsCounted,
                frames.episodeData, frames.totalLossesAllYears, rs);
    out := Packed(Package(frames.splitsEvents, frames.splitsEpisodes, |frames.data|, frames.eventsCounted,
                          frames.data, frames.episodeData), frames.totalLossesAllYears);
  }

  /** When every year before position `k` has its file and year `k` does not, `k` is the first missing one. */
  lemma {:induction false} FirstMissingAt(ys: seq<int>, files: map<int, seq<Record>>, k: nat)
    requires k < |ys| && ys[k] !in files && forall i :: 0 <= i < k ==> ys[i] in files
    ensures FirstMissing(ys, files) == Some(ys[k])
  {
    if k > 0 {
      FirstMissingAt(ys[1..], files, k - 1);
    }
  }
}
