/**
 * The per-episode loss totals of the legacy pipeline's CSV export
 * (backend/dust_processing/index.js:491-496): for each key of an episode's `losses`,
 * `total_<key>` adds up that loss over the episode's events, each looked up by its
 * EVENT_ID in the exported list of events.
 */
module DustCsv {
  import opened JsValues
  import opened DustFilters
  import opened DustConvert
  import opened Lists
  import opened DustFrames

  // ---------------------------------------------------------------------------
  // Looking an event up
  // ---------------------------------------------------------------------------

  /** The event carries this EVENT_ID. */
  predicate HasId(e: Record, id: Value)
  {
    "EVENT_ID" in e && e["EVENT_ID"] == id
  }

  /** `events.find(e => e["EVENT_ID"] == id)`: the first event with the id, if any. */
  function FindEvent(events: seq<Record>, id: Value): (r: Option<Record>)
    ensures r.Some? ==> HasId(r.value, id)
  {
    if events == [] then None
    else if HasId(events[0], id) then Some(events[0])
    else FindEvent(events[1..], id)
  }

  /** `find` fails only when no event has the id, and otherwise returns the first that has it. */
  lemma {:induction false} FindFirst(events: seq<Record>, id: Value)
    ensures FindEvent(events, id).None? <==> forall i :: 0 <= i < |events| ==> !HasId(events[i], id)
    ensures FindEvent(events, id).Some? ==>
      exists i :: 0 <= i < |events| && events[i] == FindEvent(events, id).value &&
                  forall j :: 0 <= j < i ==> !HasId(events[j], id)
  {
    if events != [] && !HasId(events[0], id) {
      var tail := events[1..];
      FindFirst(tail, id);
      if FindEvent(tail, id).Some? {
        var i :| 0 <= i < |tail| && tail[i] == FindEvent(tail, id).value &&
                 forall j :: 0 <= j < i ==> !HasId(tail[j], id);
        assert events[i + 1] == FindEvent(events, id).value;
      } else {
        forall i | 0 <= i < |events| ensures !HasId(events[i], id) {
          if i > 0 {
            assert events[i] == tail[i - 1];
          }
        }
      }
    }
  }

  /**
   * `events.find(...).losses[name] || 0`, or `None` when it throws: when no event has
   * the id, or the event's `losses` is missing or null. A `losses` that is another
   * kind of value has no such property, which reads as 0.
   */
  function LossOfId(events: seq<Record>, id: Value, name: string): (r: Option<real>)
    ensures r.None? <==> FindEvent(events, id).None? ||
                         "losses" !in FindEvent(events, id).value || FindEvent(events, id).value["losses"].Null?
    ensures r.Some? && FindEvent(events, id).value["losses"].Obj? ==>
              r.value == (var ls := FindEvent(events, id).value["losses"].props;
                          if name in ls then LossAmount(ls[name]) else 0.0)
  {
    match FindEvent(events, id)
    case None => None
    case Some(e) =>
      if "losses" !in e || e["losses"].Null? then None
      else if e["losses"].Obj? && name in e["losses"].props then Some(LossAmount(e["losses"].props[name]))
      else Some(0.0)
  }

  // ---------------------------------------------------------------------------
  // The totals
  // ---------------------------------------------------------------------------

  /** `total_<name>` once the inner loop has gone over `ids`; `None` once a lookup threw. */
  function SumFor(events: seq<Record>, ids: seq<Value>, name: string): (r: Option<real>)
    ensures r.Some? <==> forall i :: 0 <= i < |ids| ==> LossOfId(events, ids[i], name).Some?
  {
    if ids == [] then Some(0.0)
    else
      var init := ids[..|ids| - 1];
      var t := SumFor(events, init, name);
      var x := LossOfId(events, ids[|ids| - 1], name);
      assert forall i :: 0 <= i < |init| ==> init[i] == ids[i];
      if t.Some? && x.Some? then Some(t.value + x.value) else None
  }

  /** The totals for the keys `names`, in order; `None` when some lookup threw. */
  function EpisodeSums(events: seq<Record>, ids: seq<Value>, names: seq<string>): (r: Option<seq<real>>)
    ensures r.None? <==> exists j :: 0 <= j < |names| && SumFor(events, ids, names[j]).None?
    ensures r.Some? ==> |r.value| == |names| &&
                        forall j :: 0 <= j < |names| ==> SumFor(events, ids, names[j]) == Some(r.value[j])
  {
    if names == [] then Some([])
    else
      var init := names[..|names| - 1];
      var t := EpisodeSums(events, ids, init);
      var x := SumFor(events, ids, names[|names| - 1]);
      assert forall j :: 0 <= j < |init| ==> init[j] == names[j];
      if t.Some? && x.Some? then Some(t.value + [x.value]) else None
  }

  /** The nested loops over the episode's loss keys and its events. */
  method EpisodeTotals(events: seq<Record>, ids: seq<Value>, names: seq<string>) returns (r: Option<seq<real>>)
    ensures r == EpisodeSums(events, ids, names)
  {
    var totals: seq<real> := [];
    for j := 0 to |names|
      invariant EpisodeSums(events, ids, names[..j]) == Some(totals)
    {
      var total := 0.0;
      for k := 0 to |ids|
        invariant SumFor(events, ids[..k], names[j]) == Some(total)
      {
        assert ids[..k + 1][..k] == ids[..k];
        var x := LossOfId(events, ids[k], names[j]);
        if x.None? {
          assert SumFor(events, ids, names[j]).None? by {
            assert !LossOfId(events, ids[k], names[j]).Some?;
          }
          assert names[..|names|] == names;
          return None;
        }
        total := total + x.value;
      }
      assert ids[..|ids|] == ids;
      assert names[..j + 1][..j] == names[..j];
      totals := totals + [total];
    }
    assert names[..|names|] == names;
    r := Some(totals);
  }

  // ---------------------------------------------------------------------------
  // The totals of a converted year
  // ---------------------------------------------------------------------------

  /** No two rows share an EVENT_ID. */
  predicate UniqueIds(rows: seq<Record>)
    requires AllDustRows(rows)
  {
    forall i, j :: 0 <= i < j < |rows| ==> rows[i]["EVENT_ID"] != rows[j]["EVENT_ID"]
  }

  /** What the kept rows of episode `k` add to the `j`-th loss. */
  function EpisodeTotal(rows: seq<Record>, searchType: string, dataType: string, k: string, j: nat): real
    requires AllDustRows(rows) && j < |LossFields|
  {
    if rows == [] then 0.0
    else
      (if KeptUnder(rows, searchType, dataType, 0, k) then RawLoss(rows[0], j) else 0.0) +
      EpisodeTotal(rows[1..], searchType, dataType, k, j)
  }

  /** `find` passes over an event that lacks the id. */
  lemma FindSkips(h: Record, rest: seq<Record>, id: Value)
    requires !HasId(h, id)
    ensures FindEvent([h] + rest, id) == FindEvent(rest, id)
  {
    assert ([h] + rest)[1..] == rest;
  }

  /** `find` stops at an event that has the id. */
  lemma FindHead(h: Record, rest: seq<Record>, id: Value)
    requires HasId(h, id)
    ensures FindEvent([h] + rest, id) == Some(h)
  {
  }

  /** The rows after the first keep their ids apart. */
  lemma UniqueTail(rows: seq<Record>)
    requires AllDustRows(rows) && rows != [] && UniqueIds(rows)
    ensures AllDustRows(rows[1..]) && UniqueIds(rows[1..])
  {
    var tail := rows[1..];
    forall i, j | 0 <= i < j < |tail| ensures tail[i]["EVENT_ID"] != tail[j]["EVENT_ID"] {
      assert tail[i] == rows[i + 1] && tail[j] == rows[j + 1];
    }
  }

  /** A kept first row's id finds its own rewritten event, at the head of the year's events. */
  lemma ConvertedFindHead(rows: seq<Record>, searchType: string, dataType: string, parse: string -> Stamp)
    requires AllDustRows(rows) && rows != [] && Retained(rows[0], searchType, dataType)
    ensures FindEvent(Converted(rows, searchType, dataType, parse), rows[0]["EVENT_ID"]) ==
            Some(Rewritten(rows[0], dataType, parse))
  {
    var head := Rewritten(rows[0], dataType, parse);
    var rest := Converted(rows[1..], searchType, dataType, parse);
    assert Converted(rows, searchType, dataType, parse) == [head] + rest by {
      FoldStep(rows, searchType, dataType, parse);
    }
    RewrittenIds(rows[0], dataType, parse);
    FindHead(head, rest, rows[0]["EVENT_ID"]);
  }

  /** The first row's event, kept or not, does not stand in the way of another row's id. */
  lemma ConvertedFindPast(rows: seq<Record>, searchType: string, dataType: string, parse: string -> Stamp,
                          id: Value)
    requires AllDustRows(rows) && rows != [] && rows[0]["EVENT_ID"] != id
    ensures FindEvent(Converted(rows, searchType, dataType, parse), id) ==
            FindEvent(Converted(rows[1..], searchType, dataType, parse), id)
  {
    var head := Rewritten(rows[0], dataType, parse);
    var rest := Converted(rows[1..], searchType, dataType, parse);
    var kept := Retained(rows[0], searchType, dataType);
    assert Converted(rows, searchType, dataType, parse) == (if kept then [head] else []) + rest by {
      FoldStep(rows, searchType, dataType, parse);
    }
    if kept {
      RewrittenIds(rows[0], dataType, parse);
      FindSkips(head, rest, id);
    } else {
      assert [] + rest == rest;
    }
  }

  /** In a year's events with unique ids, a kept row's id finds the row's rewritten event. */
  lemma {:induction false} ConvertedFind(rows: seq<Record>, searchType: string, dataType: string,
                                         parse: string -> Stamp, i: nat)
    requires AllDustRows(rows) && UniqueIds(rows) && i < |rows| && Retained(rows[i], searchType, dataType)
    ensures FindEvent(Converted(rows, searchType, dataType, parse), rows[i]["EVENT_ID"]) ==
            Some(Rewritten(rows[i], dataType, parse))
  {
    if i == 0 {
      ConvertedFindHead(rows, searchType, dataType, parse);
    } else {
      UniqueTail(rows);
      ConvertedFind(rows[1..], searchType, dataType, parse, i - 1);
      assert rows[1..][i - 1] == rows[i];
      ConvertedFindPast(rows, searchType, dataType, parse, rows[i]["EVENT_ID"]);
    }
  }

  lemma ReversedCons<T>(x: T, s: seq<T>)
    ensures Reversed([x] + s) == Reversed(s) + [x]
  {
    assert ([x] + s)[1..] == s;
  }

  /** One more id adds its loss to the sum. */
  lemma SumForSnoc(events: seq<Record>, ids: seq<Value>, id: Value, name: string, t: real, x: real)
    requires SumFor(events, ids, name) == Some(t) && LossOfId(events, id, name) == Some(x)
    ensures SumFor(events, ids + [id], name) == Some(t + x)
  {
    assert (ids + [id])[..|ids|] == ids;
  }

  /** Looking up a kept row's id gives, for every loss, what the raw row says. */
  predicate LossesFound(events: seq<Record>, rows: seq<Record>, searchType: string, dataType: string, k: string)
    requires AllDustRows(rows)
  {
    forall i, j :: 0 <= i < |rows| && 0 <= j < |LossFields| && KeptUnder(rows, searchType, dataType, i, k) ==>
      LossOfId(events, rows[i]["EVENT_ID"], LossNames[j]) == Some(RawLoss(rows[i], j))
  }

  /** The rows after the first still find their losses. */
  lemma LossesFoundTail(events: seq<Record>, rows: seq<Record>, searchType: string, dataType: string, k: string)
    requires AllDustRows(rows) && rows != [] && LossesFound(events, rows, searchType, dataType, k)
    ensures AllDustRows(rows[1..]) && LossesFound(events, rows[1..], searchType, dataType, k)
  {
    var tail := rows[1..];
    forall i, j | 0 <= i < |tail| && 0 <= j < |LossFields| && KeptUnder(tail, searchType, dataType, i, k)
      ensures LossOfId(events, tail[i]["EVENT_ID"], LossNames[j]) == Some(RawLoss(tail[i], j))
    {
      assert tail[i] == rows[i + 1];
      assert KeptUnder(rows, searchType, dataType, i + 1, k);
    }
  }

  /** A kept first row adds its loss after those of the later rows. */
  lemma SumsKept(events: seq<Record>, rows: seq<Record>, searchType: string, dataType: string, k: string, j: nat)
    requires AllDustRows(rows) && rows != [] && j < |LossFields| && KeptUnder(rows, searchType, dataType, 0, k)
    requires LossesFound(events, rows, searchType, dataType, k)
    requires SumFor(events, Reversed(IdsWith(rows[1..], searchType, dataType, k)), LossNames[j]) ==
             Some(EpisodeTotal(rows[1..], searchType, dataType, k, j))
    ensures SumFor(events, Reversed(IdsWith(rows, searchType, dataType, k)), LossNames[j]) ==
            Some(EpisodeTotal(rows, searchType, dataType, k, j))
  {
    var id := rows[0]["EVENT_ID"];
    var rest := IdsWith(rows[1..], searchType, dataType, k);
    var x := RawLoss(rows[0], j);
    var t := EpisodeTotal(rows[1..], searchType, dataType, k, j);
    assert LossOfId(events, id, LossNames[j]) == Some(x);
    assert Reversed(IdsWith(rows, searchType, dataType, k)) == Reversed(rest) + [id] by {
      assert IdsWith(rows, searchType, dataType, k) == [id] + rest;
      ReversedCons(id, rest);
    }
    assert EpisodeTotal(rows, searchType, dataType, k, j) == x + t;
    SumForSnoc(events, Reversed(rest), id, LossNames[j], t, x);
  }

  /** A first row outside the episode adds neither an id nor a loss. */
  lemma SumsSkipped(rows: seq<Record>, searchType: string, dataType: string, k: string, j: nat)
    requires AllDustRows(rows) && rows != [] && j < |LossFields| && !KeptUnder(rows, searchType, dataType, 0, k)
    ensures IdsWith(rows, searchType, dataType, k) == IdsWith(rows[1..], searchType, dataType, k)
    ensures EpisodeTotal(rows, searchType, dataType, k, j) == EpisodeTotal(rows[1..], searchType, dataType, k, j)
  {
  }

  /** The totals of every key, once each key's sum is known. */
  lemma EpisodeSumsOf(events: seq<Record>, ids: seq<Value>, names: seq<string>, totals: seq<real>)
    requires |totals| == |names| && forall j :: 0 <= j < |names| ==> SumFor(events, ids, names[j]) == Some(totals[j])
    ensures EpisodeSums(events, ids, names) == Some(totals)
  {
    var r := EpisodeSums(events, ids, names);
    assert r.Some?;
    assert r.value == totals;
  }

  /**
   * Over the ids of episode `k` as the converter lists them (last kept event first),
   * the `j`-th sum is what the kept rows of the episode add to that loss.
   */
  lemma {:induction false} SumsOverEpisode(events: seq<Record>, rows: seq<Record>, searchType: string,
                                           dataType: string, k: string, j: nat)
    requires AllDustRows(rows) && j < |LossFields| && LossesFound(events, rows, searchType, dataType, k)
    ensures SumFor(events, Reversed(IdsWith(rows, searchType, dataType, k)), LossNames[j]) ==
            Some(EpisodeTotal(rows, searchType, dataType, k, j))
  {
    if rows != [] {
      LossesFoundTail(events, rows, searchType, dataType, k);
      SumsOverEpisode(events, rows[1..], searchType, dataType, k, j);
      if KeptUnder(rows, searchType, dataType, 0, k) {
        SumsKept(events, rows, searchType, dataType, k, j);
      } else {
        SumsSkipped(rows, searchType, dataType, k, j);
      }
    }
  }

  /** In a year with unique ids, a kept row's id finds the losses its rewritten event holds. */
  lemma ConvertedLosses(rows: seq<Record>, searchType: string, dataType: string, parse: string -> Stamp, k: string)
    requires AllDustRows(rows) && UniqueIds(rows)
    ensures LossesFound(Converted(rows, searchType, dataType, parse), rows, searchType, dataType, k)
  {
    var events := Converted(rows, searchType, dataType, parse);
    forall i, j | 0 <= i < |rows| && 0 <= j < |LossFields| && KeptUnder(rows, searchType, dataType, i, k)
      ensures LossOfId(events, rows[i]["EVENT_ID"], LossNames[j]) == Some(RawLoss(rows[i], j))
    {
      ConvertedFind(rows, searchType, dataType, parse, i);
      RewrittenLosses(rows[i], dataType, parse);
    }
  }

  /**
   * Whatever list of events `find` searches, once every kept row's id finds its
   * losses there, each total of episode `k` is what its kept rows add to that loss.
   */
  lemma EpisodeTotalsIn(events: seq<Record>, rows: seq<Record>, searchType: string, dataType: string,
                        parse: string -> Stamp, k: string)
    requires AllDustRows(rows) && k in Grouped(rows, searchType, dataType, parse)
    requires LossesFound(events, rows, searchType, dataType, k)
    ensures var ep := Grouped(rows, searchType, dataType, parse)[k];
      && "events" in ep && ep["events"].Arr?
      && EpisodeSums(events, ep["events"].items, LossNames) ==
         Some(seq(|LossNames|, j requires 0 <= j < |LossNames| => EpisodeTotal(rows, searchType, dataType, k, j)))
  {
    var ids := Reversed(IdsWith(rows, searchType, dataType, k));
    assert Grouped(rows, searchType, dataType, parse)[k]["events"] == Arr(ids) by {
      GroupedEpisode(rows, searchType, dataType, parse, k);
    }
    var totals := seq(|LossNames|, j requires 0 <= j < |LossNames| => EpisodeTotal(rows, searchType, dataType, k, j));
    forall j | 0 <= j < |LossNames| ensures SumFor(events, ids, LossNames[j]) == Some(totals[j]) {
      SumsOverEpisode(events, rows, searchType, dataType, k, j);
    }
    EpisodeSumsOf(events, ids, LossNames, totals);
  }

  /**
   * In a year with unique EVENT_IDs, every loss total of an episode, summed over its
   * `events` list in the year's events, is what the episode's kept rows add to that loss.
   */
  lemma EpisodeTotalsOfYear(rows: seq<Record>, searchType: string, dataType: string, parse: string -> Stamp,
                            k: string)
    requires AllDustRows(rows) && UniqueIds(rows) && k in Grouped(rows, searchType, dataType, parse)
    ensures var ep := Grouped(rows, searchType, dataType, parse)[k];
      && "events" in ep && ep["events"].Arr?
      && EpisodeSums(Converted(rows, searchType, dataType, parse), ep["events"].items, LossNames) ==
         Some(seq(|LossNames|, j requires 0 <= j < |LossNames| => EpisodeTotal(rows, searchType, dataType, k, j)))
  {
    ConvertedLosses(rows, searchType, dataType, parse, k);
    EpisodeTotalsIn(Converted(rows, searchType, dataType, parse), rows, searchType, dataType, parse, k);
  }

  // ---------------------------------------------------------------------------
  // The totals of the packed run
  // ---------------------------------------------------------------------------

  /** `find` passes over a front part in which no event has the id. */
  lemma {:induction false} FindPastFront(a: seq<Record>, b: seq<Record>, id: Value)
    requires forall i :: 0 <= i < |a| ==> !HasId(a[i], id)
    ensures FindEvent(a + b, id) == FindEvent(b, id)
  {
    if a == [] {
      assert a + b == b;
    } else {
      assert (a + b)[1..] == a[1..] + b;
      assert forall i :: 0 <= i < |a[1..]| ==> a[1..][i] == a[i + 1];
      FindPastFront(a[1..], b, id);
    }
  }

  /** A `find` that succeeds in a front part does not look any further. */
  lemma {:induction false} FindInFront(a: seq<Record>, b: seq<Record>, id: Value)
    requires FindEvent(a, id).Some?
    ensures FindEvent(a + b, id) == FindEvent(a, id)
  {
    assert (a + b)[0] == a[0];
    if !HasId(a[0], id) {
      assert (a + b)[1..] == a[1..] + b;
      FindInFront(a[1..], b, id);
    }
  }

  /**
   * In the parts one after the other, an id that part `t` finds and that no event of
   * an earlier part carries finds the same event as in part `t`.
   */
  lemma FindInParts(parts: seq<seq<Record>>, t: nat, id: Value)
    requires t < |parts| && FindEvent(parts[t], id).Some?
    requires forall u, e :: 0 <= u < t && e in parts[u] ==> !HasId(e, id)
    ensures FindEvent(Flatten(parts), id) == FindEvent(parts[t], id)
  {
    var before, after := parts[..t], parts[t + 1..];
    assert parts == before + [parts[t]] + after;
    FlattenAppend(before + [parts[t]], after);
    FlattenAppend(before, [parts[t]]);
    assert Flatten([parts[t]]) == parts[t] by {
      assert [parts[t]][..0] == [];
    }
    var front := Flatten(before);
    forall i | 0 <= i < |front| ensures !HasId(front[i], id) {
      FlattenMembers(before, front[i]);
    }
    assert Flatten(parts) == front + (parts[t] + Flatten(after));
    FindPastFront(front, parts[t] + Flatten(after), id);
    FindInFront(parts[t], Flatten(after), id);
  }

  /** Every converted event carries the EVENT_ID of one of the year's rows. */
  lemma {:induction false} ConvertedIds(rows: seq<Record>, searchType: string, dataType: string,
                                        parse: string -> Stamp, e: Record)
    requires AllDustRows(rows) && e in Converted(rows, searchType, dataType, parse)
    ensures exists i :: 0 <= i < |rows| && HasId(e, rows[i]["EVENT_ID"])
  {
    assert rows != [];
    FoldStep(rows, searchType, dataType, parse);
    var tail := rows[1..];
    if e in Converted(tail, searchType, dataType, parse) {
      ConvertedIds(tail, searchType, dataType, parse, e);
      var i :| 0 <= i < |tail| && HasId(e, tail[i]["EVENT_ID"]);
      assert rows[i + 1] == tail[i];
    } else {
      RewrittenIds(rows[0], dataType, parse);
      assert HasId(e, rows[0]["EVENT_ID"]);
    }
  }

  /** No row of `a` shares its EVENT_ID with a row of `b`. */
  predicate IdsApart(a: seq<Record>, b: seq<Record>)
    requires AllDustRows(a) && AllDustRows(b)
  {
    forall i, j :: 0 <= i < |a| && 0 <= j < |b| ==> a[i]["EVENT_ID"] != b[j]["EVENT_ID"]
  }

  /** The EVENT_IDs of the years' rows are all different, within each year and across years. */
  predicate UniqueAcross(ys: seq<int>, files: map<int, seq<Record>>)
    requires FilesReady(files) && forall t :: 0 <= t < |ys| ==> ys[t] in files
  {
    && (forall t :: 0 <= t < |ys| ==> (FileRows(files, ys[t]); UniqueIds(files[ys[t]])))
    && (forall t, u :: 0 <= t < u < |ys| ==>
          (FileRows(files, ys[t]); FileRows(files, ys[u]); IdsApart(files[ys[t]], files[ys[u]])))
  }

  /** A year whose ids are apart from another's converts to events without that year's ids. */
  lemma ApartLacks(a: seq<Record>, b: seq<Record>, searchType: string, dataType: string, parse: string -> Stamp,
                   e: Record, i: nat)
    requires AllDustRows(a) && AllDustRows(b) && IdsApart(a, b) && i < |b|
    requires e in Converted(a, searchType, dataType, parse)
    ensures !HasId(e, b[i]["EVENT_ID"])
  {
    ConvertedIds(a, searchType, dataType, parse, e);
  }

  /** No event of an earlier year carries the EVENT_ID of a row of year `t`. */
  lemma EarlierYearsLack(ys: seq<int>, files: map<int, seq<Record>>, searchType: string, dataType: string,
                         parse: string -> Stamp, t: nat, i: nat)
    requires FilesReady(files) && (forall i :: 0 <= i < |ys| ==> ys[i] in files) && t < |ys|
    requires UniqueAcross(ys, files) && i < |files[ys[t]]|
    ensures AllDustRows(files[ys[t]])
    ensures var parts := EventsOf(Results(ys, files, searchType, dataType, parse));
      forall u, e :: 0 <= u < t && e in parts[u] ==> !HasId(e, files[ys[t]][i]["EVENT_ID"])
  {
    var parts := EventsOf(Results(ys, files, searchType, dataType, parse));
    var rows := files[ys[t]];
    FileRows(files, ys[t]);
    forall u, e | 0 <= u < t && e in parts[u] ensures !HasId(e, rows[i]["EVENT_ID"]) {
      ResultsAt(ys, files, searchType, dataType, parse, u);
      assert IdsApart(files[ys[u]], rows);
      ApartLacks(files[ys[u]], rows, searchType, dataType, parse, e, i);
    }
  }

  /** Among year `t`'s own events, a kept row of that year finds its rewritten event. */
  lemma FoundInYear(ys: seq<int>, files: map<int, seq<Record>>, searchType: string, dataType: string,
                    parse: string -> Stamp, t: nat, i: nat)
    requires FilesReady(files) && (forall i :: 0 <= i < |ys| ==> ys[i] in files) && t < |ys|
    requires UniqueAcross(ys, files) && i < |files[ys[t]]| && Retained(files[ys[t]][i], searchType, dataType)
    ensures AllDustRows(files[ys[t]])
    ensures FindEvent(EventsOf(Results(ys, files, searchType, dataType, parse))[t], files[ys[t]][i]["EVENT_ID"]) ==
            Some(Rewritten(files[ys[t]][i], dataType, parse))
  {
    ResultsAt(ys, files, searchType, dataType, parse, t);
    ConvertedFind(files[ys[t]], searchType, dataType, parse, i);
  }

  /** Among the packed events, a kept row of year `t` finds its own rewritten event. */
  lemma PackedFind(ys: seq<int>, files: map<int, seq<Record>>, searchType: string, dataType: string,
                   parse: string -> Stamp, t: nat, i: nat)
    requires FilesReady(files) && (forall i :: 0 <= i < |ys| ==> ys[i] in files) && t < |ys|
    requires UniqueAcross(ys, files) && i < |files[ys[t]]| && Retained(files[ys[t]][i], searchType, dataType)
    ensures AllDustRows(files[ys[t]])
    ensures FindEvent(PackageOf(Results(ys, files, searchType, dataType, parse)).events, files[ys[t]][i]["EVENT_ID"]) ==
            Some(Rewritten(files[ys[t]][i], dataType, parse))
  {
    var parts := EventsOf(Results(ys, files, searchType, dataType, parse));
    var rows := files[ys[t]];
    FileRows(files, ys[t]);
    var id := rows[i]["EVENT_ID"];
    FoundInYear(ys, files, searchType, dataType, parse, t, i);
    EarlierYearsLack(ys, files, searchType, dataType, parse, t, i);
    FindInParts(parts, t, id);
  }

  /** In the packed events, a kept row of year `t` finds the losses of its own rewritten event. */
  lemma PackedLossesFound(ys: seq<int>, files: map<int, seq<Record>>, searchType: string, dataType: string,
                          parse: string -> Stamp, t: nat, k: string)
    requires FilesReady(files) && (forall i :: 0 <= i < |ys| ==> ys[i] in files) && t < |ys|
    requires UniqueAcross(ys, files)
    ensures AllDustRows(files[ys[t]])
    ensures LossesFound(PackageOf(Results(ys, files, searchType, dataType, parse)).events, files[ys[t]],
                        searchType, dataType, k)
  {
    var events := PackageOf(Results(ys, files, searchType, dataType, parse)).events;
    var rows := files[ys[t]];
    FileRows(files, ys[t]);
    forall i, j | 0 <= i < |rows| && 0 <= j < |LossFields| && KeptUnder(rows, searchType, dataType, i, k)
      ensures LossOfId(events, rows[i]["EVENT_ID"], LossNames[j]) == Some(RawLoss(rows[i], j))
    {
      PackedFind(ys, files, searchType, dataType, parse, t, i);
      RewrittenLosses(rows[i], dataType, parse);
    }
  }

  /**
   * Every episode of the packed run (web_data.json) is the group of some episode key
   * of some year.
   */
  lemma PackedEpisodeFrom(first: int, last: int, files: map<int, seq<Record>>, searchType: string,
                          dataType: string, parse: string -> Stamp, ep: Record)
    requires FilesReady(files) && forall y :: first <= y <= last ==> y in files
    ensures Run(first, last, files, searchType, dataType, parse).Packed?
    ensures ep in Run(first, last, files, searchType, dataType, parse).package.episodes ==>
      exists y, k :: first <= y <= last && y in files && k in Grouped(files[y], searchType, dataType, parse) &&
                     ep == Grouped(files[y], searchType, dataType, parse)[k]
  {
    var ys := Years(first, last);
    var rs := Results(ys, files, searchType, dataType, parse);
    if ep in Flatten(EpisodesOf(rs)) {
      FlattenMembers(EpisodesOf(rs), ep);
      var t :| 0 <= t < |rs| && ep in EpisodesOf(rs)[t];
      ResultsAt(ys, files, searchType, dataType, parse, t);
      var rows := files[ys[t]];
      EpisodeListFrom(Grouped(rows, searchType, dataType, parse), Order(rows, searchType, dataType, parse), ep);
    }
  }

  /**
   * `dustJSONtoCSV` on the packed run (backend/dust_processing/index.js:668-674): with
   * EVENT_IDs unique over all the years' rows, each total of an episode of year `y`,
   * its events looked up among the events of every year, is what the episode's kept
   * rows add to that loss.
   */
  lemma PackageEpisodeTotals(first: int, last: int, files: map<int, seq<Record>>, searchType: string,
                             dataType: string, parse: string -> Stamp, y: int, k: string)
    requires FilesReady(files) && forall y :: first <= y <= last ==> y in files
    requires UniqueAcross(Years(first, last), files)
    requires first <= y <= last && k in Grouped(files[y], searchType, dataType, parse)
    ensures var run := Run(first, last, files, searchType, dataType, parse);
      var ep := Grouped(files[y], searchType, dataType, parse)[k];
      && run.Packed?
      && "events" in ep && ep["events"].Arr?
      && EpisodeSums(run.package.events, ep["events"].items, LossNames) ==
         Some(seq(|LossNames|, j requires 0 <= j < |LossNames| => EpisodeTotal(files[y], searchType, dataType, k, j)))
  {
    var ys := Years(first, last);
    assert ys[y - first] == y;
    PackedLossesFound(ys, files, searchType, dataType, parse, y - first, k);
    EpisodeTotalsIn(PackageOf(Results(ys, files, searchType, dataType, parse)).events, files[y],
                    searchType, dataType, parse, k);
  }
}
