/**
 * One year of `processSEDCsv` (index.js:190-292): the rows of a storm-events file
 * are counted, filtered, normalised, stored in `yrEvents` and grouped into episodes.
 * The episode object is the first event of the episode itself, so `yrEvents`
 * shows every later merge at that event's position; `yrEpisodes` is modelled as
 * the index of that event.
 */
module NdepYear {
  import opened JsValues
  import opened JsText
  import opened JsKeys
  import opened Ndep

  /** The episode an event belongs to: `event.EPISODE_ID`. */
  function EpisodeOf(e: Record): string
  {
    StrAt(e, "EPISODE_ID")
  }

  // ---------------------------------------------------------------------------
  // Episodes of a sequence of stored events
  // ---------------------------------------------------------------------------

  /** The events of `es` that belong to episode `id`, in order. */
  function Members(es: seq<Record>, id: string): (m: seq<Record>)
    ensures |m| <= |es|
  {
    if es == [] then []
    else Members(es[..|es| - 1], id) + (if EpisodeOf(es[|es| - 1]) == id then [es[|es| - 1]] else [])
  }

  /** No earlier event belongs to the same episode as `es[i]`. */
  predicate IsFirst(es: seq<Record>, i: nat)
    requires i < |es|
  {
    forall j :: 0 <= j < i ==> EpisodeOf(es[j]) != EpisodeOf(es[i])
  }

  /** The episode whose first event is `es[i]`, once every later event of it was folded in. */
  function EpisodeFrom(es: seq<Record>, i: nat): Record
    requires i < |es| && "EVENT_ID" in es[i]
  {
    FoldInto(Seed(es[i]), Members(es[i + 1..], EpisodeOf(es[i])))
  }

  /** What `yrEvents[i]` holds once the events `es` were stored: the episode at a first event. */
  function StoredAt(es: seq<Record>, i: nat): Record
    requires i < |es| && "EVENT_ID" in es[i]
  {
    if IsFirst(es, i) then EpisodeFrom(es, i) else es[i]
  }

  /** Members of a concatenation are the members of each part. */
  lemma {:induction false} MembersAppend(a: seq<Record>, b: seq<Record>, id: string)
    ensures Members(a + b, id) == Members(a, id) + Members(b, id)
    decreases |b|
  {
    if b == [] {
      assert a + b == a;
    } else {
      var bi := b[..|b| - 1];
      assert (a + b)[..|a + b| - 1] == a + bi;
      assert (a + b)[|a + b| - 1] == b[|b| - 1];
      MembersAppend(a, bi, id);
    }
  }

  /** The events before a first event hold no member of its episode. */
  lemma {:induction false} MembersNone(es: seq<Record>, id: string)
    requires forall j :: 0 <= j < |es| ==> EpisodeOf(es[j]) != id
    ensures Members(es, id) == []
  {
    if es != [] {
      MembersNone(es[..|es| - 1], id);
    }
  }

  /** The members of an episode, starting from its first event. */
  lemma {:induction false} MembersFromFirst(es: seq<Record>, i: nat)
    requires i < |es| && IsFirst(es, i)
    ensures Members(es, EpisodeOf(es[i])) == [es[i]] + Members(es[i + 1..], EpisodeOf(es[i]))
    decreases |es|
  {
    var id := EpisodeOf(es[i]);
    var init := es[..|es| - 1];
    var last := es[|es| - 1];
    if i == |es| - 1 {
      assert forall j :: 0 <= j < |init| ==> init[j] == es[j];
      MembersNone(init, id);
      assert es[i + 1..] == [];
    } else {
      assert init[i] == es[i];
      assert IsFirst(init, i) by {
        assert forall j :: 0 <= j < i ==> init[j] == es[j];
      }
      MembersFromFirst(init, i);
      var tail := init[i + 1..];
      var rest := es[i + 1..];
      var more := if EpisodeOf(last) == id then [last] else [];
      assert rest[..|rest| - 1] == tail && rest[|rest| - 1] == last;
      assert Members(rest, id) == Members(tail, id) + more;
      assert Members(es, id) == ([es[i]] + Members(tail, id)) + more;
    }
  }

  /** The episode stored at a first event is the fold of all of the episode's events. */
  lemma EpisodeFromIsFold(es: seq<Record>, i: nat)
    requires i < |es| && IsFirst(es, i) && "EVENT_ID" in es[i]
    ensures var m := Members(es, EpisodeOf(es[i]));
      |m| >= 1 && m[0] == es[i] && EpisodeFrom(es, i) == Fold(m)
  {
    MembersFromFirst(es, i);
    var m := Members(es, EpisodeOf(es[i]));
    assert m[1..] == Members(es[i + 1..], EpisodeOf(es[i]));
  }

  /** Folding one more event into an episode is one more `Step`. */
  lemma FoldIntoSnoc(ep: Record, rest: seq<Record>, e: Record)
    ensures FoldInto(ep, rest + [e]) == Step(FoldInto(ep, rest), e)
  {
    assert (rest + [e])[..|rest|] == rest;
  }

  /** An event stored later updates the episode it belongs to and leaves every other entry alone. */
  lemma StoredSnoc(es: seq<Record>, e: Record, i: nat)
    requires i < |es| && "EVENT_ID" in es[i]
    ensures StoredAt(es + [e], i) ==
      if IsFirst(es, i) && EpisodeOf(es[i]) == EpisodeOf(e) then Step(StoredAt(es, i), e)
      else StoredAt(es, i)
  {
    var xs := es + [e];
    assert xs[i] == es[i];
    assert IsFirst(xs, i) == IsFirst(es, i) by {
      assert forall j :: 0 <= j < i ==> xs[j] == es[j];
    }
    if IsFirst(es, i) {
      var id := EpisodeOf(es[i]);
      var tail := es[i + 1..];
      assert xs[i + 1..] == tail + [e];
      assert Members(tail + [e], id) ==
        Members(tail, id) + (if EpisodeOf(e) == id then [e] else []) by {
        assert (tail + [e])[..|tail|] == tail;
      }
      var m := Members(tail, id);
      if EpisodeOf(e) == id {
        FoldIntoSnoc(Seed(es[i]), m, e);
        assert StoredAt(xs, i) == FoldInto(Seed(es[i]), m + [e]);
      } else {
        assert Members(xs[i + 1..], id) == m;
        assert StoredAt(xs, i) == FoldInto(Seed(es[i]), m);
      }
    }
  }

  /** The event stored last is its episode's seed when it is the first of it, and itself otherwise. */
  lemma StoredLast(es: seq<Record>, e: Record)
    requires "EVENT_ID" in e
    ensures StoredAt(es + [e], |es|) == if IsFirst(es + [e], |es|) then Seed(e) else e
  {
    var xs := es + [e];
    assert xs[|es| + 1..] == [];
  }

  // ---------------------------------------------------------------------------
  // The state of one year (index.js:194-197) and the grouping step (index.js:264-276)
  // ---------------------------------------------------------------------------

  /**
   * What `processSEDCsv` keeps while it reads a file: `yrEvents`, `yrCntAllEvents`,
   * `yrEpisodes` as the position in `yrEvents` of each episode's object, the order in
   * which episode ids were first added to `yrEpisodes`, and the number of
   * unrecognised-time-zone warnings written to the log.
   */
  datatype YearState = YearState(
    events: seq<Record>,
    cntAll: nat,
    heads: map<string, nat>,
    order: seq<string>,
    zoneWarnings: nat)

  /** The state before the first row. */
  const FreshYear := YearState([], 0, map[], [], 0)

  /** Every episode object is an event of `yrEvents`. */
  predicate HeadsInRange(y: YearState)
  {
    forall id :: id in y.heads ==> y.heads[id] < |y.events|
  }

  /**
   * A stored event joins its episode (index.js:261-276): it is pushed onto `yrEvents`;
   * a new episode id makes that very event the episode, seeded; a known one folds the
   * event into the episode object, which is the earlier event it started with.
   */
  function AddEvent(y: YearState, e: Record): (r: YearState)
    requires HeadsInRange(y) && "EVENT_ID" in e
    ensures HeadsInRange(r)
  {
    var id := EpisodeOf(e);
    if id !in y.heads then
      y.(events := y.events + [Seed(e)], heads := y.heads[id := |y.events|], order := y.order + [id])
    else
      var h := y.heads[id];
      y.(events := y.events[h := Step(y.events[h], e)] + [e])
  }

  /** Each episode object sits at the first stored event of its episode. */
  predicate HeadsFirst(y: YearState, kept: seq<Record>)
  {
    forall id :: id in y.heads ==>
      y.heads[id] < |kept| && EpisodeOf(kept[y.heads[id]]) == id && IsFirst(kept, y.heads[id])
  }

  /** Every stored event's episode is in `yrEpisodes`. */
  predicate HeadsCover(y: YearState, kept: seq<Record>)
  {
    forall j :: 0 <= j < |kept| ==> EpisodeOf(kept[j]) in y.heads
  }

  /** `yrEvents` holds the stored events, with each episode's first event replaced by the episode. */
  predicate StoredAll(y: YearState, kept: seq<Record>)
    requires AllNormal(kept)
  {
    |y.events| == |kept| && forall i :: 0 <= i < |kept| ==> y.events[i] == StoredAt(kept, i)
  }

  /** The insertion order lists each episode id once. */
  predicate OrderOfHeads(y: YearState)
  {
    Distinct(y.order) && (forall id :: id in y.order ==> id in y.heads) && forall id :: id in y.heads ==> id in y.order
  }

  /** The episode ids of `es`, each once, in the order their first events come. */
  function FirstSeen(es: seq<Record>): seq<string>
  {
    if es == [] then []
    else FirstSeen(es[..|es| - 1]) + (if IsFirst(es, |es| - 1) then [EpisodeOf(es[|es| - 1])] else [])
  }

  /** The state of a year after the events `kept` passed the filter. */
  predicate YearInv(y: YearState, kept: seq<Record>)
  {
    && AllNormal(kept)
    && HeadsFirst(y, kept) && HeadsCover(y, kept)
    && StoredAll(y, kept)
    && OrderOfHeads(y) && y.order == FirstSeen(kept)
  }

  lemma FreshYearInv()
    ensures YearInv(FreshYear, [])
  {
  }

  /** Two first events of the same episode are the same event. */
  lemma FirstUnique(kept: seq<Record>, i: nat, h: nat)
    requires i < |kept| && h < |kept| && IsFirst(kept, i) && IsFirst(kept, h)
    requires EpisodeOf(kept[i]) == EpisodeOf(kept[h])
    ensures i == h
  {
  }

  /** The new event is the first of its episode exactly when its id is not yet in `yrEpisodes`. */
  lemma AddEventFirst(y: YearState, kept: seq<Record>, e: Record)
    requires HeadsFirst(y, kept) && HeadsCover(y, kept)
    ensures IsFirst(kept + [e], |kept|) <==> EpisodeOf(e) !in y.heads
  {
    var xs := kept + [e];
    assert forall j :: 0 <= j < |kept| ==> xs[j] == kept[j];
    if EpisodeOf(e) in y.heads {
      var h := y.heads[EpisodeOf(e)];
      assert EpisodeOf(xs[h]) == EpisodeOf(xs[|kept|]);
    }
  }

  /** The grouping step keeps `yrEvents` equal to the stored events with their episodes folded in. */
  lemma AddEventStoredAt(y: YearState, kept: seq<Record>, e: Record, i: nat)
    requires YearInv(y, kept) && NormalEvent(e) && i < |kept|
    ensures AddEvent(y, e).events[i] == StoredAt(kept + [e], i)
  {
    var id := EpisodeOf(e);
    StoredSnoc(kept, e, i);
    if id in y.heads {
      var h := y.heads[id];
      if i != h && IsFirst(kept, i) && EpisodeOf(kept[i]) == id {
        FirstUnique(kept, i, h);
      }
    }
  }

  lemma AddEventStoredLast(y: YearState, kept: seq<Record>, e: Record)
    requires YearInv(y, kept) && NormalEvent(e)
    ensures AddEvent(y, e).events[|kept|] == StoredAt(kept + [e], |kept|)
  {
    StoredLast(kept, e);
    AddEventFirst(y, kept, e);
  }

  lemma AddEventStored(y: YearState, kept: seq<Record>, e: Record)
    requires YearInv(y, kept) && NormalEvent(e)
    ensures AllNormal(kept + [e])
    ensures StoredAll(AddEvent(y, e), kept + [e])
  {
    var xs := kept + [e];
    assert forall j :: 0 <= j < |kept| ==> xs[j] == kept[j];
    forall i | 0 <= i < |xs| ensures AddEvent(y, e).events[i] == StoredAt(xs, i) {
      if i < |kept| {
        AddEventStoredAt(y, kept, e, i);
      } else {
        AddEventStoredLast(y, kept, e);
      }
    }
  }

  lemma AddEventHeads(y: YearState, kept: seq<Record>, e: Record)
    requires HeadsFirst(y, kept) && HeadsCover(y, kept) && HeadsInRange(y) && "EVENT_ID" in e
    requires |y.events| == |kept|
    ensures HeadsFirst(AddEvent(y, e), kept + [e])
  {
    var xs := kept + [e];
    var r := AddEvent(y, e);
    AddEventFirst(y, kept, e);
    assert forall j :: 0 <= j < |kept| ==> xs[j] == kept[j];
    forall id | id in r.heads
      ensures r.heads[id] < |xs| && EpisodeOf(xs[r.heads[id]]) == id && IsFirst(xs, r.heads[id])
    {
      if id in y.heads {
        var h := y.heads[id];
        assert IsFirst(kept, h);
      }
    }
  }

  lemma AddEventCover(y: YearState, kept: seq<Record>, e: Record)
    requires HeadsCover(y, kept) && HeadsInRange(y) && "EVENT_ID" in e
    ensures HeadsCover(AddEvent(y, e), kept + [e])
  {
    var xs := kept + [e];
    assert forall j :: 0 <= j < |kept| ==> xs[j] == kept[j];
  }

  lemma AddEventOrder(y: YearState, kept: seq<Record>, e: Record)
    requires YearInv(y, kept) && NormalEvent(e)
    ensures OrderOfHeads(AddEvent(y, e)) && AddEvent(y, e).order == FirstSeen(kept + [e])
  {
    var xs := kept + [e];
    AddEventFirst(y, kept, e);
    if EpisodeOf(e) !in y.heads {
      assert EpisodeOf(e) !in y.order;
    }
    assert xs[..|xs| - 1] == kept;
  }

  /** The grouping step keeps the invariant of the year. */
  lemma AddEventInv(y: YearState, kept: seq<Record>, e: Record)
    requires YearInv(y, kept) && NormalEvent(e)
    ensures YearInv(AddEvent(y, e), kept + [e])
  {
    AddEventStored(y, kept, e);
    AddEventHeads(y, kept, e);
    AddEventCover(y, kept, e);
    AddEventOrder(y, kept, e);
  }

  // ---------------------------------------------------------------------------
  // The rows of one file (index.js:202-277)
  // ---------------------------------------------------------------------------

  /** Every row is a row of a storm-events file. */
  predicate AllStormRows(rows: seq<Record>)
  {
    forall i :: 0 <= i < |rows| ==> StormRow(rows[i])
  }

  /**
   * The row handler on the year's state: every row is counted; a row the filter
   * keeps is normalised (with a log line when its zone is not converted) and joins
   * its episode.
   */
  ghost function AddRow(y: YearState, row: Record, filter: string, parse: string -> Stamp): (r: YearState)
    requires HeadsInRange(y) && StormRow(row)
    ensures HeadsInRange(r)
  {
    if Passes(filter, row) then AddKept(Counted(y), row, parse) else Counted(y)
  }

  /** `yrCntAllEvents++`: every row is counted. */
  function Counted(y: YearState): (r: YearState)
    ensures r.cntAll == y.cntAll + 1
    ensures r.events == y.events && r.heads == y.heads && r.order == y.order && r.zoneWarnings == y.zoneWarnings
  {
    y.(cntAll := y.cntAll + 1)
  }

  /** The handler's two outcomes make up AddRow: a kept row is counted and stored, any other only counted. */
  lemma AddRowCases(y: YearState, z: YearState, row: Record, filter: string, parse: string -> Stamp)
    requires HeadsInRange(y) && StormRow(row)
    requires Passes(filter, row) ==> z == AddKept(Counted(y), row, parse)
    requires !Passes(filter, row) ==> z == Counted(y)
    ensures z == AddRow(y, row, filter, parse)
  {
  }

  /** A kept row: the warning if its zone does not convert, then the normalised event stored and grouped. */
  ghost function AddKept(y: YearState, row: Record, parse: string -> Stamp): (r: YearState)
    requires HeadsInRange(y) && StormRow(row)
    ensures HeadsInRange(r)
  {
    NormalizedIsEvent(row, parse);
    AddEvent(Warned(y, ZoneConverts(row)), Normalize(row, parse))
  }

  /** The state after the warning for a kept row whose time zone did not convert (index.js:238-241). */
  function Warned(y: YearState, converted: bool): YearState
  {
    if converted then y else y.(zoneWarnings := y.zoneWarnings + 1)
  }

  /** The rows the filter keeps, normalised, in file order. */
  ghost function Kept(rows: seq<Record>, filter: string, parse: string -> Stamp): (k: seq<Record>)
    requires AllStormRows(rows)
    ensures AllNormal(k) && |k| <= |rows|
  {
    if rows == [] then []
    else
      var last := rows[|rows| - 1];
      StormRowsInit(rows);
      NormalizedIsEvent(last, parse);
      AllNormalMaybe(Kept(rows[..|rows| - 1], filter, parse), Normalize(last, parse), Passes(filter, last));
      Kept(rows[..|rows| - 1], filter, parse) + (if Passes(filter, last) then [Normalize(last, parse)] else [])
  }

  /** The rows before the last are rows of the file too, and so is the last. */
  lemma StormRowsInit(rows: seq<Record>)
    requires AllStormRows(rows) && rows != []
    ensures AllStormRows(rows[..|rows| - 1]) && StormRow(rows[|rows| - 1])
  {
  }

  /** Stored events, and maybe one more stored event after them, are stored events. */
  lemma AllNormalMaybe(a: seq<Record>, e: Record, b: bool)
    requires AllNormal(a) && NormalEvent(e)
    ensures AllNormal(a + if b then [e] else [])
  {
    if b {
      assert forall i :: 0 <= i < |a| ==> (a + [e])[i] == a[i];
      assert (a + [e])[|a|] == e;
    } else {
      assert a + [] == a;
    }
  }


  /** The number of kept rows whose time zone is not converted. */
  ghost function Unconverted(rows: seq<Record>, filter: string): nat
    requires AllStormRows(rows)
  {
    if rows == [] then 0
    else
      var last := rows[|rows| - 1];
      Unconverted(rows[..|rows| - 1], filter) + (if Passes(filter, last) && !ZoneConverts(last) then 1 else 0)
  }

  /** The year's state after the row handler ran on `rows`, in order. */
  ghost function ProcessRows(rows: seq<Record>, filter: string, parse: string -> Stamp): (y: YearState)
    requires AllStormRows(rows)
    ensures HeadsInRange(y)
  {
    if rows == [] then FreshYear
    else AddRow(ProcessRows(rows[..|rows| - 1], filter, parse), rows[|rows| - 1], filter, parse)
  }

  /** The invariant of the year does not look at the counters. */
  lemma YearInvCounters(y: YearState, z: YearState, kept: seq<Record>)
    requires YearInv(y, kept) && z.events == y.events && z.heads == y.heads && z.order == y.order
    ensures YearInv(z, kept)
  {
  }

  /** A kept row keeps the invariant and joins the kept events. */
  lemma AddKeptInv(y: YearState, kept: seq<Record>, row: Record, parse: string -> Stamp)
    requires YearInv(y, kept) && HeadsInRange(y) && StormRow(row)
    ensures YearInv(AddKept(y, row, parse), kept + [Normalize(row, parse)])
  {
    var warned := Warned(y, ZoneConverts(row));
    YearInvCounters(y, warned, kept);
    NormalizedIsEvent(row, parse);
    AddEventInv(warned, kept, Normalize(row, parse));
  }

  /** One row keeps the invariant, with the row joining the kept events when the filter passes it. */
  lemma AddRowInv(y: YearState, kept: seq<Record>, row: Record, filter: string, parse: string -> Stamp)
    requires YearInv(y, kept) && HeadsInRange(y) && StormRow(row)
    ensures YearInv(AddRow(y, row, filter, parse),
                    kept + if Passes(filter, row) then [Normalize(row, parse)] else [])
  {
    YearInvCounters(y, Counted(y), kept);
    if Passes(filter, row) {
      AddKeptInv(Counted(y), kept, row, parse);
    } else {
      assert kept + [] == kept;
    }
  }

  /** After any rows the state is the kept events grouped into episodes. */
  lemma {:induction false} ProcessRowsInv(rows: seq<Record>, filter: string, parse: string -> Stamp)
    requires AllStormRows(rows)
    ensures YearInv(ProcessRows(rows, filter, parse), Kept(rows, filter, parse))
  {
    if rows != [] {
      var init := rows[..|rows| - 1];
      ProcessRowsInv(init, filter, parse);
      AddRowInv(ProcessRows(init, filter, parse), Kept(init, filter, parse), rows[|rows| - 1], filter, parse);
    }
  }

  /** Every row is counted, whether the filter keeps it or not. */
  lemma {:induction false} ProcessRowsCount(rows: seq<Record>, filter: string, parse: string -> Stamp)
    requires AllStormRows(rows)
    ensures ProcessRows(rows, filter, parse).cntAll == |rows|
  {
    if rows != [] {
      ProcessRowsCount(rows[..|rows| - 1], filter, parse);
    }
  }

  /** Every kept row whose time zone is not converted is logged once. */
  lemma {:induction false} ProcessRowsWarnings(rows: seq<Record>, filter: string, parse: string -> Stamp)
    requires AllStormRows(rows)
    ensures ProcessRows(rows, filter, parse).zoneWarnings == Unconverted(rows, filter)
  {
    if rows != [] {
      ProcessRowsWarnings(rows[..|rows| - 1], filter, parse);
    }
  }

  /** FirstSeen lists exactly the episode ids of the events. */
  lemma {:induction false} FirstSeenMembers(es: seq<Record>, id: string)
    ensures id in FirstSeen(es) <==> exists j :: 0 <= j < |es| && EpisodeOf(es[j]) == id
  {
    if es != [] {
      var init := es[..|es| - 1];
      FirstSeenMembers(init, id);
      assert forall j :: 0 <= j < |init| ==> init[j] == es[j];
      if exists j :: 0 <= j < |es| && EpisodeOf(es[j]) == id {
        var j :| 0 <= j < |es| && EpisodeOf(es[j]) == id;
        if j < |init| {
          assert EpisodeOf(init[j]) == id;
        } else if !IsFirst(es, j) {
          var k :| 0 <= k < j && EpisodeOf(es[k]) == EpisodeOf(es[j]);
          assert EpisodeOf(init[k]) == id;
        }
      }
    }
  }

  /** FirstSeen lists each episode id once. */
  lemma {:induction false} FirstSeenDistinct(es: seq<Record>)
    ensures Distinct(FirstSeen(es))
  {
    if es != [] {
      var init := es[..|es| - 1];
      FirstSeenDistinct(init);
      var id := EpisodeOf(es[|es| - 1]);
      if IsFirst(es, |es| - 1) {
        FirstSeenMembers(init, id);
        assert forall j :: 0 <= j < |init| ==> init[j] == es[j];
        assert id !in FirstSeen(init);
      }
    }
  }

  // ---------------------------------------------------------------------------
  // The end of the file (index.js:278-291) and the shared loss totals (index.js:258)
  // ---------------------------------------------------------------------------

  /** What the year's promise resolves to. */
  datatype YearResult = YearResult(events: seq<Record>, cntAllEvents: nat, episodes: seq<Record>, losses: seq<real>)

  /** `LOSS_HEADERS_ALL.forEach(key => yrLosses[key] += event[key])`, totals indexed like LOSS_HEADERS_ALL. */
  function AddLosses(totals: seq<real>, e: Record): seq<real>
    requires |totals| == |LossHeadersAll|
  {
    seq(|totals|, i requires 0 <= i < |totals| => totals[i] + NumAt(e, LossHeadersAll[i]))
  }

  /** The totals after the losses of every event of `es` were added, in order. */
  function AddAllLosses(totals: seq<real>, es: seq<Record>): (r: seq<real>)
    requires |totals| == |LossHeadersAll|
    ensures |r| == |LossHeadersAll|
  {
    if es == [] then totals else AddLosses(AddAllLosses(totals, es[..|es| - 1]), es[|es| - 1])
  }

  /** Each total grows by the column's sum over the events. */
  lemma {:induction false} AddAllLossesSum(totals: seq<real>, es: seq<Record>, i: nat)
    requires |totals| == |LossHeadersAll| && i < |LossHeadersAll|
    ensures AddAllLosses(totals, es)[i] == totals[i] + ColumnSum(es, i)
  {
    if es != [] {
      AddAllLossesSum(totals, es[..|es| - 1], i);
    }
  }

  /**
   * `Object.keys(yrEpisodes).map(id => yrEpisodes[id])` (index.js:279): the episode
   * objects, listed in the order `Object.keys` gives their ids.
   */
  function Finish(y: YearState, totals: seq<real>): YearResult
    requires HeadsInRange(y) && OrderOfHeads(y)
  {
    var ids := OwnKeys(y.order);
    OwnKeysDistinct(y.order);
    YearResult(y.events, y.cntAll, seq(|ids|, j requires 0 <= j < |ids| => y.events[y.heads[ids[j]]]), totals)
  }

  /** The episode stored for a known id is the fold of its events. */
  lemma HeadIsFold(y: YearState, kept: seq<Record>, id: string)
    requires YearInv(y, kept) && id in y.heads
    ensures var m := Members(kept, id); |m| >= 1 && "EVENT_ID" in m[0]
    ensures y.events[y.heads[id]] == Fold(Members(kept, id))
  {
    var h := y.heads[id];
    EpisodeFromIsFold(kept, h);
  }

  /**
   * At the end of the file the episode list holds one entry per episode id of the
   * kept events, in `Object.keys` order of those ids, and each entry is the fold of
   * all of that episode's events.
   */
  lemma FinishEpisodes(y: YearState, kept: seq<Record>, totals: seq<real>, j: nat)
    requires YearInv(y, kept) && HeadsInRange(y)
    ensures var ids := OwnKeys(FirstSeen(kept));
      |Finish(y, totals).episodes| == |ids|
    ensures var ids := OwnKeys(FirstSeen(kept));
      j < |ids| ==> (|Members(kept, ids[j])| >= 1 && "EVENT_ID" in Members(kept, ids[j])[0] &&
        Finish(y, totals).episodes[j] == Fold(Members(kept, ids[j])))
  {
    var ids := OwnKeys(y.order);
    OwnKeysDistinct(y.order);
    if j < |ids| {
      HeadIsFold(y, kept, ids[j]);
    }
  }

  // ---------------------------------------------------------------------------
  // Loss preservation: the episodes' totals add up to the year's losses
  // ---------------------------------------------------------------------------

  /** The `i`-th episode total of an episode: `episode["EPISODE_" + LOSS_HEADERS_ALL[i]]`. */
  function EpisodeColumn(ep: Record, i: nat): real
    requires i < |LossHeadersAll|
  {
    NumAt(ep, EpisodePrefix + LossHeadersAll[i])
  }

  /** The sum of the `i`-th episode total over a list of episodes. */
  function EpisodeSum(eps: seq<Record>, i: nat): real
    requires i < |LossHeadersAll|
  {
    if eps == [] then 0.0 else EpisodeSum(eps[..|eps| - 1], i) + EpisodeColumn(eps[|eps| - 1], i)
  }

  /** The sum, over the episode ids `ids`, of the `i`-th loss of each episode's events. */
  function MembersSum(kept: seq<Record>, ids: seq<string>, i: nat): real
    requires i < |LossHeadersAll|
  {
    if ids == [] then 0.0 else MembersSum(kept, ids[..|ids| - 1], i) + ColumnSum(Members(kept, ids[|ids| - 1]), i)
  }

  lemma {:induction false} MembersNormal(es: seq<Record>, id: string)
    requires AllNormal(es)
    ensures AllNormal(Members(es, id))
  {
    if es != [] {
      AllNormalInit(es);
      MembersNormal(es[..|es| - 1], id);
    }
  }

  /** A column sum splits into the first event and the rest. */
  lemma {:induction false} ColumnSumCons(es: seq<Record>, i: nat)
    requires |es| >= 1 && i < |LossHeadersAll|
    ensures ColumnSum(es, i) == NumAt(es[0], LossHeadersAll[i]) + ColumnSum(es[1..], i)
  {
    if |es| > 1 {
      ColumnSumCons(es[..|es| - 1], i);
      assert es[..|es| - 1][1..] == es[1..][..|es[1..]| - 1];
    }
  }

  /** An episode's total is the sum of the losses of all of its events. */
  lemma FoldTotal(m: seq<Record>, i: nat)
    requires |m| >= 1 && AllNormal(m) && i < |LossHeadersAll|
    ensures EpisodeColumn(Fold(m), i) == ColumnSum(m, i)
  {
    assert forall j :: 0 <= j < |m| - 1 ==> m[1..][j] == m[j + 1];
    FoldIntoTotals(Seed(m[0]), m[1..], i);
    SeedTotal(m[0], i);
    ColumnSumCons(m, i);
  }

  /** The members' sums before and after one more event: only its own episode gains. */
  lemma {:induction false} MembersSumSnoc(kept: seq<Record>, e: Record, ids: seq<string>, i: nat)
    requires Distinct(ids) && i < |LossHeadersAll|
    ensures MembersSum(kept + [e], ids, i) ==
      MembersSum(kept, ids, i) + if EpisodeOf(e) in ids then NumAt(e, LossHeadersAll[i]) else 0.0
  {
    if ids != [] {
      var init := ids[..|ids| - 1];
      var id := ids[|ids| - 1];
      MembersSumSnoc(kept, e, init, i);
      assert (kept + [e])[..|kept|] == kept;
      var m := Members(kept, id);
      if EpisodeOf(e) == id {
        assert Members(kept + [e], id) == m + [e];
        assert (m + [e])[..|m|] == m;
      } else {
        assert Members(kept + [e], id) == m;
      }
      assert EpisodeOf(e) in ids <==> EpisodeOf(e) in init || EpisodeOf(e) == id;
      assert id !in init;
    }
  }

  lemma {:induction false} MembersSumEmpty(ids: seq<string>, i: nat)
    requires i < |LossHeadersAll|
    ensures MembersSum([], ids, i) == 0.0
  {
    if ids != [] {
      MembersSumEmpty(ids[..|ids| - 1], i);
    }
  }

  /** Grouping by episode neither loses nor doubles a loss: the episodes partition the events. */
  lemma {:induction false} MembersPartition(kept: seq<Record>, ids: seq<string>, i: nat)
    requires Distinct(ids) && i < |LossHeadersAll|
    requires forall j :: 0 <= j < |kept| ==> EpisodeOf(kept[j]) in ids
    ensures MembersSum(kept, ids, i) == ColumnSum(kept, i)
  {
    if kept == [] {
      MembersSumEmpty(ids, i);
    } else {
      var init := kept[..|kept| - 1];
      var e := kept[|kept| - 1];
      assert forall j :: 0 <= j < |init| ==> init[j] == kept[j];
      MembersPartition(init, ids, i);
      MembersSumSnoc(init, e, ids, i);
      assert init + [e] == kept;
      assert EpisodeOf(e) in ids;
      assert ColumnSum(kept, i) == ColumnSum(init, i) + NumAt(e, LossHeadersAll[i]);
    }
  }

  /** Two lists whose entries agree one by one have equal sums. */
  lemma {:induction false} EpisodeSumMatches(eps: seq<Record>, kept: seq<Record>, ids: seq<string>, i: nat)
    requires i < |LossHeadersAll| && |eps| == |ids|
    requires forall j :: 0 <= j < |ids| ==> EpisodeColumn(eps[j], i) == ColumnSum(Members(kept, ids[j]), i)
    ensures EpisodeSum(eps, i) == MembersSum(kept, ids, i)
  {
    if eps != [] {
      EpisodeSumMatches(eps[..|eps| - 1], kept, ids[..|ids| - 1], i);
    }
  }

  /**
   * Loss preservation: at the end of the file, the sum over the episode list of each
   * episode total equals the sum of that loss over the kept events.
   */
  lemma FinishPreservesLosses(y: YearState, kept: seq<Record>, totals: seq<real>, i: nat)
    requires YearInv(y, kept) && HeadsInRange(y) && i < |LossHeadersAll|
    ensures EpisodeSum(Finish(y, totals).episodes, i) == ColumnSum(kept, i)
  {
    var ids := OwnKeys(FirstSeen(kept));
    var eps := Finish(y, totals).episodes;
    FirstSeenDistinct(kept);
    OwnKeysDistinct(FirstSeen(kept));
    forall j | 0 <= j < |ids| ensures EpisodeColumn(eps[j], i) == ColumnSum(Members(kept, ids[j]), i) {
      FinishEpisodes(y, kept, totals, j);
      MembersNormal(kept, ids[j]);
      FoldTotal(Members(kept, ids[j]), i);
    }
    forall j | 0 <= j < |kept| ensures EpisodeOf(kept[j]) in ids {
      FirstSeenMembers(kept, EpisodeOf(kept[j]));
    }
    FinishEpisodes(y, kept, totals, 0);
    EpisodeSumMatches(eps, kept, ids, i);
    MembersPartition(kept, ids, i);
  }

  // ---------------------------------------------------------------------------
  // The row handler as it runs (index.js:190-292)
  // ---------------------------------------------------------------------------

  /** Nine zeros: LOSS_HEADERS_ALL_DICT as index.js:105-106 builds it. */
  function ZeroTotals(): (z: seq<real>)
    ensures |z| == |LossHeadersAll|
  {
    seq(|LossHeadersAll|, _ => 0.0)
  }

  /**
   * LOSS_HEADERS_ALL_DICT, the one totals object that `yrLosses` names in every
   * year (index.js:197): the row handler adds to it and nothing ever resets it.
   * Its entries are indexed like LOSS_HEADERS_ALL.
   */
  class LossTotals {
    var totals: seq<real>

    constructor ()
      ensures totals == ZeroTotals()
    {
      totals := ZeroTotals();
    }

    /** `LOSS_HEADERS_ALL.forEach(key => yrLosses[key] += event[key])` (index.js:258). */
    method AddEvent(e: Record)
      requires |totals| == |LossHeadersAll|
      modifies this
      ensures totals == AddLosses(old(totals), e)
    {
      for i := 0 to |LossHeadersAll|
        invariant |totals| == |LossHeadersAll|
        invariant forall j :: 0 <= j < i ==> totals[j] == old(totals)[j] + NumAt(e, LossHeadersAll[j])
        invariant forall j :: i <= j < |totals| ==> totals[j] == old(totals)[j]
      {
        totals := totals[i := totals[i] + NumAt(e, LossHeadersAll[i])];
      }
    }
  }

  /** `EPISODE_LOSS_HEADERS_ALL.forEach(key => episode[key] = 0)` (index.js:267). */
  method ZeroColumns(ep: Record) returns (r: Record)
    ensures r == Zeroed(ep, EpisodePrefix, LossHeadersAll, |LossHeadersAll|)
  {
    r := ep;
    for i := 0 to |LossHeadersAll|
      invariant r == Zeroed(ep, EpisodePrefix, LossHeadersAll, i)
    {
      r := r[EpisodePrefix + LossHeadersAll[i] := Num(0.0)];
    }
  }

  /** `LOSS_HEADERS_ALL.forEach(key => episode["EPISODE_" + key] += event[key])` (index.js:276). */
  method AddColumns(ep: Record, e: Record) returns (r: Record)
    ensures r == Accumulated(ep, EpisodePrefix, e, LossHeadersAll, |LossHeadersAll|)
  {
    r := ep;
    for i := 0 to |LossHeadersAll|
      invariant r == Accumulated(ep, EpisodePrefix, e, LossHeadersAll, i)
    {
      var k := EpisodePrefix + LossHeadersAll[i];
      r := r[k := Num(NumAt(r, k) + NumAt(e, LossHeadersAll[i]))];
    }
  }

  /**
   * `Object.keys(event).forEach(...)` (index.js:270-274). Each key is read and written
   * once, so the order in which the keys are taken does not change the result.
   */
  method MergeEvent(ep: Record, e: Record) returns (m: Record)
    ensures m == MergeFields(ep, e)
  {
    m := ep;
    var todo := e.Keys;
    assert e.Keys - todo == {};
    while todo != {}
      invariant todo <= e.Keys
      invariant m == MergedOn(ep, e, e.Keys - todo)
      decreases |todo|
    {
      var k :| k in todo;
      MergedOnNext(ep, e, todo, k);
      m := MergeKey(m, e, k);
      todo := todo - {k};
    }
    MergedOnAll(ep, e, e.Keys - todo);
  }

  /** One key of the event merged into the episode `m` (index.js:271-273). */
  method MergeKey(m: Record, e: Record, k: string) returns (r: Record)
    requires k in e
    ensures r == m[k := MergedValue(m, e, k)]
  {
    r := m;
    if k !in r || r[k] == Null {
      r := r[k := e[k]];
    } else if e[k] != Null && e[k] != r[k] {
      r := r[k := Str(MultipleValues)];
    }
  }

  /** The episode with the keys `done` of the event merged into it. */
  function MergedOn(ep: Record, e: Record, done: set<string>): (m: Record)
    requires done <= e.Keys
  {
    map k | k in ep.Keys + done :: if k in done then MergedValue(ep, e, k) else ep[k]
  }

  /** Merging one more key only touches that key. */
  lemma MergedOnStep(ep: Record, e: Record, done: set<string>, k: string)
    requires done <= e.Keys && k in e && k !in done
    ensures k in MergedOn(ep, e, done) <==> k in ep
    ensures k in ep ==> MergedOn(ep, e, done)[k] == ep[k]
    ensures MergedOn(ep, e, done + {k}) == MergedOn(ep, e, done)[k := MergedValue(MergedOn(ep, e, done), e, k)]
  {
  }

  /** The loop's step: merging `k` takes `k` off the keys still to do. */
  lemma MergedOnNext(ep: Record, e: Record, todo: set<string>, k: string)
    requires todo <= e.Keys && k in todo
    ensures var m := MergedOn(ep, e, e.Keys - todo);
            m[k := MergedValue(m, e, k)] == MergedOn(ep, e, e.Keys - (todo - {k}))
  {
    MergedOnStep(ep, e, e.Keys - todo, k);
    assert e.Keys - (todo - {k}) == (e.Keys - todo) + {k};
  }

  /** Once every key is merged, the episode is the merge of the two records. */
  lemma MergedOnAll(ep: Record, e: Record, done: set<string>)
    requires done == e.Keys
    ensures MergedOn(ep, e, done) == MergeFields(ep, e)
  {
  }

  /**
   * What the row handler makes of a kept row (index.js:231-257); `converted`
   * tells whether its time zone was known, else the handler logs a warning.
   */
  method NormalizeRow(row: Record, parse: string -> Stamp) returns (e: Record, converted: bool)
    requires StormRow(row)
    ensures e == Normalize(row, parse)
    ensures converted == ZoneConverts(row)
  {
    e := row;
    converted := ZoneConverts(row);
    if converted {
      e := ConvertEndpoints(e, parse);
    }
    UtcKeepsLosses(row, parse);
    e := ParseLosses(e);
    ParsedAreNumbers(WithUtcTimes(row, parse), LossHeadersRaw, ParseLoss);
    e := WithOverall(e);
  }

  /** `ids.map(id => yrEpisodes[id])` (index.js:279): the episode objects of the given ids. */
  method CollectEpisodes(events: seq<Record>, heads: map<string, nat>, ids: seq<string>)
    returns (episodes: seq<Record>)
    requires forall id :: id in ids ==> id in heads && heads[id] < |events|
    ensures |episodes| == |ids|
    ensures forall j :: 0 <= j < |ids| ==> episodes[j] == events[heads[ids[j]]]
  {
    episodes := [];
    for j := 0 to |ids|
      invariant |episodes| == j
      invariant forall i :: 0 <= i < j ==> episodes[i] == events[heads[ids[i]]]
    {
      episodes := episodes + [events[heads[ids[j]]]];
    }
  }

  /**
   * The variables of one `processSEDCsv` call. `heads[id]` is the position in
   * `events` of the object `yrEpisodes[id]`, which is the first event of the
   * episode itself; `losses` is the shared totals object.
   */
  class YearProcessor {
    var events: seq<Record>
    var cntAll: nat
    var heads: map<string, nat>
    var order: seq<string>
    var zoneWarnings: nat
    const losses: LossTotals

    function State(): YearState
      reads this
    {
      YearState(events, cntAll, heads, order, zoneWarnings)
    }

    predicate Valid()
      reads this, losses
    {
      HeadsInRange(State()) && |losses.totals| == |LossHeadersAll|
    }

    /** The start of `processSEDCsv`: empty year variables, `yrLosses` the shared totals. */
    constructor (shared: LossTotals)
      requires |shared.totals| == |LossHeadersAll|
      ensures Valid() && State() == FreshYear && losses == shared
    {
      events, cntAll, heads, order, zoneWarnings := [], 0, map[], [], 0;
      losses := shared;
    }

    /** The episode bookkeeping of a stored event (index.js:261-276). */
    method Group(e: Record)
      requires HeadsInRange(State()) && NormalEvent(e)
      modifies this
      ensures State() == AddEvent(old(State()), e)
    {
      var id := e["EPISODE_ID"].s;
      if id !in heads {
        StartEpisode(e, id);
      } else {
        JoinEpisode(e, id);
      }
    }

    /** The first event of its episode becomes the episode object (index.js:264-267). */
    method StartEpisode(e: Record, id: string)
      requires HeadsInRange(State()) && NormalEvent(e) && id == EpisodeOf(e) && id !in heads
      modifies this
      ensures State() == AddEvent(old(State()), e)
    {
      events := events + [e];
      var h := |events| - 1;
      heads := heads[id := h];
      order := order + [id];
      var ep := ZeroColumns(e["EVENT_IDS" := e["EVENT_ID"]]);
      ep := AddColumns(ep, e);
      events := events[h := ep];
    }

    /** A later event is merged into its episode's object (index.js:268-276). */
    method JoinEpisode(e: Record, id: string)
      requires HeadsInRange(State()) && NormalEvent(e) && id == EpisodeOf(e) && id in heads
      modifies this
      ensures State() == AddEvent(old(State()), e)
    {
      events := events + [e];
      var h := heads[id];
      var ep := events[h];
      ep := ep["EVENT_IDS" := Str(StrAt(ep, "EVENT_IDS") + "," + StrAt(e, "EVENT_ID"))];
      ep := MergeEvent(ep, e);
      ep := AddColumns(ep, e);
      events := events[h := ep];
    }

    /**
     * The `on("data")` handler for one row: count it, filter it, normalise it, add
     * its losses to the shared totals, store it and group it into its episode.
     */
    method HandleRow(row: Record, filter: string, parse: string -> Stamp)
      requires Valid() && StormRow(row)
      modifies this, losses
      ensures Valid()
      ensures Passes(filter, row) ==> State() == AddKept(Counted(old(State())), row, parse)
      ensures !Passes(filter, row) ==> State() == Counted(old(State()))
      ensures Passes(filter, row) ==> losses.totals == AddLosses(old(losses.totals), Normalize(row, parse))
      ensures !Passes(filter, row) ==> losses.totals == old(losses.totals)
    {
      cntAll := cntAll + 1;
      assert State() == Counted(old(State()));
      var keep := Keep(filter, row);
      if keep {
        HandleKept(row, parse);
      }
    }

    /** The handler's work on a row the filter keeps (index.js:231-276). */
    method HandleKept(row: Record, parse: string -> Stamp)
      requires Valid() && StormRow(row)
      modifies this, losses
      ensures Valid()
      ensures State() == AddKept(old(State()), row, parse)
      ensures losses.totals == AddLosses(old(losses.totals), Normalize(row, parse))
    {
      var e, converted := NormalizeRow(row, parse);
      NormalizedIsEvent(row, parse);
      Store(e, converted);
    }

    /**
     * The rest of the handler for a kept, normalised event: the warning for an
     * unknown time zone, the shared totals, `yrEvents.push` and the episode.
     */
    method Store(e: Record, converted: bool)
      requires Valid() && NormalEvent(e)
      modifies this, losses
      ensures Valid()
      ensures State() == AddEvent(Warned(old(State()), converted), e)
      ensures losses.totals == AddLosses(old(losses.totals), e)
    {
      if !converted {
        zoneWarnings := zoneWarnings + 1;
      }
      losses.AddEvent(e);
      Group(e);
    }

    /** The `on("data")` handler applied to every row of the file, in order. */
    method HandleRows(rows: seq<Record>, filter: string, parse: string -> Stamp)
      requires Valid() && State() == FreshYear && AllStormRows(rows)
      modifies this, losses
      ensures Valid()
      ensures State() == ProcessRows(rows, filter, parse)
      ensures losses.totals == AddAllLosses(old(losses.totals), Kept(rows, filter, parse))
    {
      for i := 0 to |rows|
        invariant Valid()
        invariant State() == ProcessRows(rows[..i], filter, parse)
        invariant losses.totals == AddAllLosses(old(losses.totals), Kept(rows[..i], filter, parse))
      {
        ghost var y := State();
        HandleRow(rows[i], filter, parse);
        ProcessRowsStep(rows, i, filter, parse);
        AddRowCases(y, State(), rows[i], filter, parse);
        KeptLossesStep(rows, i, filter, parse, old(losses.totals));
      }
      assert rows[..|rows|] == rows;
    }

    /** The `on("end")` handler (index.js:278-291): the episode objects in `Object.keys` order. */
    method EndOfFile() returns (r: YearResult)
      requires HeadsInRange(State()) && OrderOfHeads(State())
      ensures r == Finish(State(), losses.totals)
    {
      OwnKeysDistinct(order);
      var episodes := CollectEpisodes(events, heads, OwnKeys(order));
      assert episodes == Finish(State(), losses.totals).episodes;
      r := YearResult(events, cntAll, episodes, losses.totals);
    }
  }

  /** What `processSEDCsv` settles with: the year's results, or the reason it rejected. */
  datatype YearOutcome = Rejected(message: string) | Resolved(result: YearResult)

  /** The results `processSEDCsv` resolves with, for the rows of one file and the totals it starts from. */
  ghost function YearOf(rows: seq<Record>, filter: string, parse: string -> Stamp, totals: seq<real>): YearResult
    requires AllStormRows(rows) && |totals| == |LossHeadersAll|
  {
    ProcessRowsInv(rows, filter, parse);
    Finish(ProcessRows(rows, filter, parse), AddAllLosses(totals, Kept(rows, filter, parse)))
  }

  /** One more row: the state is the row handler's step on the state before it. */
  lemma ProcessRowsStep(rows: seq<Record>, i: nat, filter: string, parse: string -> Stamp)
    requires AllStormRows(rows) && i < |rows|
    ensures ProcessRows(rows[..i + 1], filter, parse) == AddRow(ProcessRows(rows[..i], filter, parse), rows[i], filter, parse)
  {
    assert rows[..i + 1][..i] == rows[..i];
  }

  /** One more row: a kept row's losses are added to the totals. */
  lemma KeptLossesStep(rows: seq<Record>, i: nat, filter: string, parse: string -> Stamp, totals: seq<real>)
    requires AllStormRows(rows) && i < |rows| && |totals| == |LossHeadersAll|
    ensures var t := AddAllLosses(totals, Kept(rows[..i], filter, parse));
      AddAllLosses(totals, Kept(rows[..i + 1], filter, parse)) ==
        if Passes(filter, rows[i]) then AddLosses(t, Normalize(rows[i], parse)) else t
  {
    KeptSnoc(rows, i, filter, parse);
    AddAllLossesMaybe(totals, Kept(rows[..i], filter, parse), Normalize(rows[i], parse), Passes(filter, rows[i]));
  }

  /** One more row: the kept rows gain it when the filter passes it. */
  lemma KeptSnoc(rows: seq<Record>, i: nat, filter: string, parse: string -> Stamp)
    requires AllStormRows(rows) && i < |rows|
    ensures Kept(rows[..i + 1], filter, parse) ==
      Kept(rows[..i], filter, parse) + if Passes(filter, rows[i]) then [Normalize(rows[i], parse)] else []
  {
    var r := rows[..i + 1];
    assert r[..i] == rows[..i] && r[i] == rows[i];
  }

  /** The totals after events and maybe one more event. */
  lemma AddAllLossesMaybe(totals: seq<real>, es: seq<Record>, e: Record, b: bool)
    requires |totals| == |LossHeadersAll|
    ensures AddAllLosses(totals, es + if b then [e] else []) ==
      if b then AddLosses(AddAllLosses(totals, es), e) else AddAllLosses(totals, es)
  {
    if b {
      var after := es + [e];
      assert after[..|es|] == es && after[|es|] == e;
    } else {
      assert es + [] == es;
    }
  }

  /**
   * `processSEDCsv(file)` (index.js:190-292). The directory it reads from is `files`,
   * the rows of each file as the CSV parser yields them; `shared` is the totals object
   * every year adds to.
   */
  method ProcessSedCsv(file: string, files: map<string, seq<Record>>, filter: string, parse: string -> Stamp,
                       shared: LossTotals) returns (out: YearOutcome)
    requires |shared.totals| == |LossHeadersAll|
    requires file in files ==> AllStormRows(files[file])
    modifies shared
    ensures file !in files ==>
      out == Rejected("The SED file " + file + " was not found.") && shared.totals == old(shared.totals)
    ensures file in files ==>
      && out == Resolved(YearOf(files[file], filter, parse, old(shared.totals)))
      && shared.totals == AddAllLosses(old(shared.totals), Kept(files[file], filter, parse))
  {
    if file !in files {
      return Rejected("The SED file " + file + " was not found.");
    }
    var rows := files[file];
    var year := new YearProcessor(shared);
    year.HandleRows(rows, filter, parse);
    ProcessRowsInv(rows, filter, parse);
    var result := year.EndOfFile();
    return Resolved(result);
  }

  /**
   * A year's counts and events: every row is counted, and `events` holds the kept
   * rows, normalised, except that the first event of each episode has become the
   * episode object with every later event of it merged in.
   */
  lemma YearOfEvents(rows: seq<Record>, filter: string, parse: string -> Stamp, totals: seq<real>, i: nat)
    requires AllStormRows(rows) && |totals| == |LossHeadersAll|
    ensures YearOf(rows, filter, parse, totals).cntAllEvents == |rows|
    ensures |YearOf(rows, filter, parse, totals).events| == |Kept(rows, filter, parse)|
    ensures i < |Kept(rows, filter, parse)| ==>
      YearOf(rows, filter, parse, totals).events[i] == StoredAt(Kept(rows, filter, parse), i)
  {
    ProcessRowsInv(rows, filter, parse);
    ProcessRowsCount(rows, filter, parse);
  }

  /** The `j`-th episode of a year is the fold of the events of the `j`-th id in `Object.keys` order. */
  lemma YearOfEpisodes(rows: seq<Record>, filter: string, parse: string -> Stamp, totals: seq<real>, j: nat)
    requires AllStormRows(rows) && |totals| == |LossHeadersAll|
    ensures var kept := Kept(rows, filter, parse);
      |YearOf(rows, filter, parse, totals).episodes| == |OwnKeys(FirstSeen(kept))|
    ensures var kept := Kept(rows, filter, parse);
      var ids := OwnKeys(FirstSeen(kept));
      j < |ids| ==> (|Members(kept, ids[j])| >= 1 && "EVENT_ID" in Members(kept, ids[j])[0] &&
        YearOf(rows, filter, parse, totals).episodes[j] == Fold(Members(kept, ids[j])))
  {
    ProcessRowsInv(rows, filter, parse);
    FinishEpisodes(ProcessRows(rows, filter, parse), Kept(rows, filter, parse),
                   AddAllLosses(totals, Kept(rows, filter, parse)), j);
  }

  /**
   * Losses of a year: the totals it resolves with are the totals it started from
   * plus the column's sum over the kept events, and its episodes' loss columns add
   * up to that same sum.
   */
  lemma YearOfLosses(rows: seq<Record>, filter: string, parse: string -> Stamp, totals: seq<real>, i: nat)
    requires AllStormRows(rows) && |totals| == |LossHeadersAll| && i < |LossHeadersAll|
    ensures YearOf(rows, filter, parse, totals).losses[i] == totals[i] + ColumnSum(Kept(rows, filter, parse), i)
    ensures EpisodeSum(YearOf(rows, filter, parse, totals).episodes, i) == ColumnSum(Kept(rows, filter, parse), i)
  {
    ProcessRowsInv(rows, filter, parse);
    AddAllLossesSum(totals, Kept(rows, filter, parse), i);
    FinishPreservesLosses(ProcessRows(rows, filter, parse), Kept(rows, filter, parse),
                          AddAllLosses(totals, Kept(rows, filter, parse)), i);
  }
}
