/**
 * The access-log page's per-actor summary: the logs are tallied per actor in a `Map`
 * (entry count, and the list of truthy durations), each actor becomes a row with its
 * display name, view count and rounded mean duration, and the rows are sorted by views,
 * most viewed first, with the stable `Array.prototype.sort`.
 */
module AccessLogs {
  import opened Wrappers
  import opened Text
  import opened Lists

  datatype LogEntry = LogEntry(actor_id: string, user_agent: Option<string>, duration_seconds: Option<int>)

  /** A row of the actor list the names come from (`id`, `name_ko`). */
  datatype ActorRow = ActorRow(id: string, name_ko: Option<string>)

  datatype LogSummary = LogSummary(actor_id: string, actor_name: string, total_views: nat, avg_duration: int)

  /** The value the tally map holds for one actor. */
  datatype Tally = Tally(total: nat, durations: seq<int>)

  /** `if (l.duration_seconds)`: present and non-zero. */
  predicate Truthy(d: Option<int>) {
    d.Some? && d.value != 0
  }

  // ---- the tally, as functions of the logs read so far ----

  /** Helper: the actor id of every log, in log order (the projection the tallies are stated over). */
  function Ids(logs: seq<LogEntry>): (ids: seq<string>)
    ensures |ids| == |logs| && forall k :: 0 <= k < |logs| ==> ids[k] == logs[k].actor_id
  {
    if logs == [] then [] else Ids(logs[..|logs| - 1]) + [logs[|logs| - 1].actor_id]
  }

  /** How many logs belong to `id`; none exactly when `id` has no log. */
  function Count(logs: seq<LogEntry>, id: string): (c: nat)
    ensures c <= |logs|
    ensures c == 0 <==> id !in Ids(logs)
  {
    if logs == [] then 0
    else
      var n := |logs| - 1;
      assert Ids(logs) == Ids(logs[..n]) + [logs[n].actor_id];
      Count(logs[..n], id) + (if logs[n].actor_id == id then 1 else 0)
  }

  /** The truthy durations of `id`'s logs, in log order. */
  function Durations(logs: seq<LogEntry>, id: string): seq<int> {
    if logs == [] then []
    else
      var n := |logs| - 1;
      var init := Durations(logs[..n], id);
      if logs[n].actor_id == id && Truthy(logs[n].duration_seconds) then init + [logs[n].duration_seconds.value] else init
  }

  /**
   * Only truthy durations are averaged: every entry is a non-zero duration of one of the
   * actor's logs, and there is at most one per log.
   */
  lemma {:induction false} DurationsAreTruthy(logs: seq<LogEntry>, id: string)
    ensures |Durations(logs, id)| <= Count(logs, id)
    ensures forall x :: x in Durations(logs, id) ==>
              x != 0 && exists k :: 0 <= k < |logs| && logs[k].actor_id == id && logs[k].duration_seconds == Some(x)
  {
    if logs != [] {
      var n := |logs| - 1;
      DurationsAreTruthy(logs[..n], id);
      forall x | x in Durations(logs[..n], id)
        ensures exists k :: 0 <= k < |logs| && logs[k].actor_id == id && logs[k].duration_seconds == Some(x)
      {
        var k :| 0 <= k < n && logs[..n][k].actor_id == id && logs[..n][k].duration_seconds == Some(x);
        assert logs[k] == logs[..n][k];
      }
    }
  }

  function Sum(ds: seq<int>): int {
    if ds == [] then 0 else Sum(ds[..|ds| - 1]) + ds[|ds| - 1]
  }

  /** `Math.round(sum / len)` over the durations, or 0 when there are none. */
  function AvgDuration(ds: seq<int>): int {
    if |ds| == 0 then 0 else (2 * Sum(ds) + |ds|) / (2 * |ds|)
  }

  /**
   * The average is the integer `r` with `r - 1/2 <= sum/len < r + 1/2`, written without
   * fractions: halves round up, as `Math.round` rounds, negative sums included.
   */
  lemma AvgDurationRounds(ds: seq<int>)
    ensures |ds| == 0 ==> AvgDuration(ds) == 0
    ensures |ds| > 0 ==> 2 * |ds| * AvgDuration(ds) - |ds| <= 2 * Sum(ds) < 2 * |ds| * AvgDuration(ds) + |ds|
  {
    if |ds| > 0 {
      var n := |ds|;
      var a := 2 * Sum(ds) + n;
      var q := a / (2 * n);
      assert a == q * (2 * n) + a % (2 * n);
      assert 2 * n * q == q * (2 * n);
    }
  }

  // ---- names ----

  /** `actors` at a row `k` that no later row with the same id overrides. */
  predicate LastOccurrence(actors: seq<ActorRow>, k: int) {
    0 <= k < |actors| && forall j :: k < j < |actors| ==> actors[j].id != actors[k].id
  }

  /** `new Map(actors.map((a) => [a.id, a.name_ko]))`: later rows override earlier ones. */
  function ActorMap(actors: seq<ActorRow>): map<string, Option<string>> {
    if actors == [] then map[]
    else ActorMap(actors[..|actors| - 1])[actors[|actors| - 1].id := actors[|actors| - 1].name_ko]
  }

  /** The map has an entry for exactly the ids of the rows, holding the name of the last row with that id. */
  lemma {:induction false} ActorMapLookup(actors: seq<ActorRow>, k: nat)
    requires LastOccurrence(actors, k)
    ensures actors[k].id in ActorMap(actors) && ActorMap(actors)[actors[k].id] == actors[k].name_ko
  {
    var n := |actors| - 1;
    if k < n {
      assert actors[..n][k] == actors[k];
      assert LastOccurrence(actors[..n], k);
      ActorMapLookup(actors[..n], k);
    }
  }

  lemma {:induction false} ActorMapDomain(actors: seq<ActorRow>, id: string)
    ensures id in ActorMap(actors) <==> exists k :: 0 <= k < |actors| && actors[k].id == id
  {
    if actors != [] {
      var n := |actors| - 1;
      ActorMapDomain(actors[..n], id);
      if id in ActorMap(actors[..n]) {
        var k :| 0 <= k < n && actors[..n][k].id == id;
        assert actors[k].id == id;
      }
      if exists k :: 0 <= k < |actors| && actors[k].id == id {
        var k :| 0 <= k < |actors| && actors[k].id == id;
        if k < n {
          assert actors[..n][k].id == id;
        }
      }
    }
  }

  /** `actorMap.get(actor_id) || actor_id.slice(0, 8)`. */
  function ActorName(names: map<string, Option<string>>, id: string): (n: string)
    ensures id in names && Present(names[id]) ==> n == names[id].value
    ensures !(id in names && Present(names[id])) ==> |n| == Min(8, |id|) && n == id[..|n|]
  {
    if id in names && Present(names[id]) then names[id].value else Take(id, 8)
  }

  // ---- rows and their order ----

  /** The row `.map` makes from a tally entry. */
  function RowOf(id: string, t: Tally, names: map<string, Option<string>>): LogSummary {
    LogSummary(id, ActorName(names, id), t.total, AvgDuration(t.durations))
  }

  /** The row of actor `id` over all the logs. */
  function Row(id: string, logs: seq<LogEntry>, names: map<string, Option<string>>): LogSummary {
    RowOf(id, Tally(Count(logs, id), Durations(logs, id)), names)
  }

  /** One row per key, in key order. */
  function Rows(keys: seq<string>, logs: seq<LogEntry>, names: map<string, Option<string>>): seq<LogSummary> {
    seq(|keys|, k requires 0 <= k < |keys| => Row(keys[k], logs, names))
  }

  /**
   * The comparator `b.total_views - a.total_views` under a stable sort: `x` goes after
   * every leading row with at least its views, before the first row with fewer.
   */
  function InsertByViews(t: seq<LogSummary>, x: LogSummary): (r: seq<LogSummary>)
    ensures |r| == |t| + 1 && multiset(r) == multiset(t) + multiset{x}
  {
    if t == [] then [x]
    else if t[0].total_views < x.total_views then [x] + t
    else
      assert t == [t[0]] + t[1..];
      [t[0]] + InsertByViews(t[1..], x)
  }

  /** The stable sort by views, most viewed first: a permutation of its input. */
  function SortByViews(s: seq<LogSummary>): (r: seq<LogSummary>)
    ensures |r| == |s| && multiset(r) == multiset(s)
  {
    if s == [] then []
    else
      var n := |s| - 1;
      assert s == s[..n] + [s[n]];
      InsertByViews(SortByViews(s[..n]), s[n])
  }

  /** Position of the first log of `id`, or |ids| when it has none. */
  function Rank(ids: seq<string>, id: string): nat {
    if id in ids then FirstIndex(ids, id) else |ids|
  }

  /** Strictly increasing actor rank: at most one row per actor, in order of first log. */
  predicate RankIncreasing(s: seq<LogSummary>, ids: seq<string>) {
    forall i, j :: 0 <= i < j < |s| ==> Rank(ids, s[i].actor_id) < Rank(ids, s[j].actor_id)
  }

  /** `a` may precede `b`: more views, or as many and an earlier first log. */
  predicate Before(a: LogSummary, b: LogSummary, ids: seq<string>) {
    a.total_views > b.total_views
    || (a.total_views == b.total_views && Rank(ids, a.actor_id) < Rank(ids, b.actor_id))
  }

  /** Views never increase, and rows with equal views are in order of their actor's first log. */
  predicate ViewsThenFirstSeen(r: seq<LogSummary>, ids: seq<string>) {
    forall i, j :: 0 <= i < j < |r| ==> Before(r[i], r[j], ids)
  }

  lemma {:induction false} InsertKeepsOrder(t: seq<LogSummary>, x: LogSummary, ids: seq<string>)
    requires ViewsThenFirstSeen(t, ids)
    requires forall y :: y in t ==> Rank(ids, y.actor_id) < Rank(ids, x.actor_id)
    ensures ViewsThenFirstSeen(InsertByViews(t, x), ids)
  {
    if t == [] {
    } else if t[0].total_views < x.total_views {
      InsertFrontOrder(t, x, ids);
    } else {
      var tail := t[1..];
      forall i, j | 0 <= i < j < |tail| ensures Before(tail[i], tail[j], ids) {
        assert tail[i] == t[i + 1] && tail[j] == t[j + 1];
      }
      forall y | y in tail ensures Rank(ids, y.actor_id) < Rank(ids, x.actor_id) {
        assert y in t;
      }
      InsertKeepsOrder(tail, x, ids);
      InsertBehindOrder(t, x, ids);
    }
  }

  /** A row with more views than the first row goes in front of all of them. */
  lemma InsertFrontOrder(t: seq<LogSummary>, x: LogSummary, ids: seq<string>)
    requires ViewsThenFirstSeen(t, ids)
    requires t != [] && t[0].total_views < x.total_views
    ensures ViewsThenFirstSeen([x] + t, ids)
  {
    var r := [x] + t;
    forall i, j | 0 <= i < j < |r| ensures Before(r[i], r[j], ids) {
      if i == 0 {
        if j > 1 {
          assert Before(t[0], t[j - 1], ids);
        }
      } else {
        assert r[i] == t[i - 1] && r[j] == t[j - 1];
      }
    }
  }

  /** A row that goes behind the first row keeps the first row ahead of everything. */
  lemma InsertBehindOrder(t: seq<LogSummary>, x: LogSummary, ids: seq<string>)
    requires ViewsThenFirstSeen(t, ids)
    requires t != [] && t[0].total_views >= x.total_views
    requires Rank(ids, t[0].actor_id) < Rank(ids, x.actor_id)
    requires ViewsThenFirstSeen(InsertByViews(t[1..], x), ids)
    ensures ViewsThenFirstSeen(InsertByViews(t, x), ids)
  {
    var rest := InsertByViews(t[1..], x);
    assert InsertByViews(t, x) == [t[0]] + rest;
    HeadBeforeRest(t, x, ids);
    ConsOrder(t[0], rest, ids);
  }

  lemma HeadBeforeRest(t: seq<LogSummary>, x: LogSummary, ids: seq<string>)
    requires ViewsThenFirstSeen(t, ids)
    requires t != [] && t[0].total_views >= x.total_views
    requires Rank(ids, t[0].actor_id) < Rank(ids, x.actor_id)
    ensures forall y :: y in InsertByViews(t[1..], x) ==> Before(t[0], y, ids)
  {
    var tail := t[1..];
    var rest := InsertByViews(tail, x);
    forall y | y in rest ensures Before(t[0], y, ids) {
      assert y in multiset(rest);
      if y != x {
        assert y in multiset(tail);
        var m :| 0 <= m < |tail| && tail[m] == y;
        assert Before(t[0], t[m + 1], ids);
      }
    }
  }

  lemma ConsOrder(h: LogSummary, rest: seq<LogSummary>, ids: seq<string>)
    requires ViewsThenFirstSeen(rest, ids)
    requires forall y :: y in rest ==> Before(h, y, ids)
    ensures ViewsThenFirstSeen([h] + rest, ids)
  {
    var r := [h] + rest;
    forall i, j | 0 <= i < j < |r| ensures Before(r[i], r[j], ids) {
      if i == 0 {
        assert r[j] in rest;
      } else {
        assert r[i] == rest[i - 1] && r[j] == rest[j - 1];
      }
    }
  }



  /**
   * Sorting rows that are in strictly increasing rank gives views in non-increasing order
   * with ties in rank order: the sort is stable.
   */
  lemma {:induction false} SortOrdered(s: seq<LogSummary>, ids: seq<string>)
    requires RankIncreasing(s, ids)
    ensures ViewsThenFirstSeen(SortByViews(s), ids)
  {
    if s != [] {
      var n := |s| - 1;
      var init := s[..n];
      SortOrdered(init, ids);
      var sorted := SortByViews(init);
      forall y | y in sorted ensures Rank(ids, y.actor_id) < Rank(ids, s[n].actor_id) {
        assert y in multiset(init);
        var m :| 0 <= m < n && init[m] == y;
      }
      InsertKeepsOrder(sorted, s[n], ids);
    }
  }

  // ---- the view total ----

  function SumViews(s: seq<LogSummary>): nat {
    if s == [] then 0 else s[0].total_views + SumViews(s[1..])
  }

  lemma {:induction false} SumViewsAppend(a: seq<LogSummary>, b: seq<LogSummary>)
    ensures SumViews(a + b) == SumViews(a) + SumViews(b)
  {
    if a == [] {
      assert a + b == b;
    } else {
      assert (a + b)[0] == a[0];
      assert (a + b)[1..] == a[1..] + b;
      SumViewsAppend(a[1..], b);
    }
  }

  lemma {:induction false} SumInsert(t: seq<LogSummary>, x: LogSummary)
    ensures SumViews(InsertByViews(t, x)) == SumViews(t) + x.total_views
  {
    if t != [] && t[0].total_views >= x.total_views {
      SumInsert(t[1..], x);
    }
  }

  lemma {:induction false} SumSort(s: seq<LogSummary>)
    ensures SumViews(SortByViews(s)) == SumViews(s)
  {
    if s != [] {
      var n := |s| - 1;
      var init := s[..n];
      assert s == init + [s[n]];
      assert SortByViews(s) == InsertByViews(SortByViews(init), s[n]);
      SumViewsAppend(init, [s[n]]);
      SumSort(init);
      SumInsert(SortByViews(init), s[n]);
    }
  }

  /** The log counts of the given keys, added up. */
  function CountSum(keys: seq<string>, logs: seq<LogEntry>): nat {
    if keys == [] then 0 else CountSum(keys[..|keys| - 1], logs) + Count(logs, keys[|keys| - 1])
  }

  lemma RowsSnoc(keys: seq<string>, logs: seq<LogEntry>, names: map<string, Option<string>>)
    requires keys != []
    ensures Rows(keys, logs, names) == Rows(keys[..|keys| - 1], logs, names) + [Row(keys[|keys| - 1], logs, names)]
  {
    var n := |keys| - 1;
    var a := Rows(keys, logs, names);
    var b := Rows(keys[..n], logs, names) + [Row(keys[n], logs, names)];
    assert |a| == |b|;
    forall k | 0 <= k < |a| ensures a[k] == b[k] {
      if k < n {
        assert keys[..n][k] == keys[k];
      }
    }
  }

  lemma {:induction false} SumRows(keys: seq<string>, logs: seq<LogEntry>, names: map<string, Option<string>>)
    ensures SumViews(Rows(keys, logs, names)) == CountSum(keys, logs)
  {
    if keys != [] {
      var n := |keys| - 1;
      SumRows(keys[..n], logs, names);
      RowsSnoc(keys, logs, names);
      SumViewsAppend(Rows(keys[..n], logs, names), [Row(keys[n], logs, names)]);
      assert SumViews([Row(keys[n], logs, names)]) == Count(logs, keys[n]);
    }
  }

  /** One more log adds one to the count sum exactly when its actor is among the (distinct) keys. */
  lemma {:induction false} CountSumSnoc(keys: seq<string>, logs: seq<LogEntry>, x: LogEntry)
    requires Distinct(keys)
    ensures CountSum(keys, logs + [x]) == CountSum(keys, logs) + (if x.actor_id in keys then 1 else 0)
  {
    if keys != [] {
      var n := |keys| - 1;
      assert (logs + [x])[..|logs|] == logs;
      assert Distinct(keys[..n]);
      CountSumSnoc(keys[..n], logs, x);
      assert keys == keys[..n] + [keys[n]];
      assert x.actor_id == keys[n] ==> x.actor_id !in keys[..n];
    }
  }

  /** Every log is counted once, under its own actor. */
  lemma {:induction false} TallyTotal(logs: seq<LogEntry>)
    ensures CountSum(Dedup(Ids(logs)), logs) == |logs|
  {
    if logs != [] {
      var n := |logs| - 1;
      var p := logs[..n];
      var x := logs[n];
      assert logs == p + [x];
      assert Ids(logs)[..n] == Ids(p);
      TallyTotal(p);
      var keys := Dedup(Ids(p));
      CountSumSnoc(keys, p, x);
      if x.actor_id !in keys {
        assert Dedup(Ids(logs)) == keys + [x.actor_id];
        assert Count(p, x.actor_id) == 0;
      }
    }
  }

  // ---- the page's summary ----

  /** `summary`: nothing while the logs are undefined. */
  function Summary(logs: Option<seq<LogEntry>>, actors: seq<ActorRow>): seq<LogSummary> {
    if logs.None? then []
    else SortByViews(Rows(Dedup(Ids(logs.value)), logs.value, ActorMap(actors)))
  }

  /** The row order the sort starts from: actors by their first log. */
  lemma {:induction false} RowsByFirstLog(logs: seq<LogEntry>, names: map<string, Option<string>>)
    ensures RankIncreasing(Rows(Dedup(Ids(logs)), logs, names), Ids(logs))
  {
    var ids := Ids(logs);
    var keys := Dedup(ids);
    var rows := Rows(keys, logs, names);
    forall i, j | 0 <= i < j < |rows| ensures Rank(ids, rows[i].actor_id) < Rank(ids, rows[j].actor_id) {
      assert rows[i].actor_id == keys[i] && rows[j].actor_id == keys[j];
      DedupOrder(ids, i, j);
    }
  }

  /**
   * The summary is sorted by views, most viewed first, and actors with the same count
   * keep the order of their first log (`Rank` is the position of an actor's first log).
   */
  lemma SummaryOrder(logs: seq<LogEntry>, actors: seq<ActorRow>)
    ensures ViewsThenFirstSeen(Summary(Some(logs), actors), Ids(logs))
    ensures var s := Summary(Some(logs), actors);
            forall i, j :: 0 <= i < j < |s| ==> s[i].total_views >= s[j].total_views
  {
    var ids := Ids(logs);
    var rows := Rows(Dedup(ids), logs, ActorMap(actors));
    RowsByFirstLog(logs, ActorMap(actors));
    SortOrdered(rows, ids);
    var s := Summary(Some(logs), actors);
    forall i, j | 0 <= i < j < |s| ensures s[i].total_views >= s[j].total_views {
      assert Before(s[i], s[j], ids);
    }
  }

  /** Each row of the summary is its actor's aggregate over all the logs. */
  lemma SummaryRowsAggregate(logs: seq<LogEntry>, actors: seq<ActorRow>)
    ensures var s := Summary(Some(logs), actors);
            forall k :: 0 <= k < |s| ==> s[k].actor_id in Ids(logs) && s[k] == Row(s[k].actor_id, logs, ActorMap(actors))
  {
    var keys := Dedup(Ids(logs));
    var rows := Rows(keys, logs, ActorMap(actors));
    var s := Summary(Some(logs), actors);
    forall k | 0 <= k < |s| ensures s[k].actor_id in Ids(logs) && s[k] == Row(s[k].actor_id, logs, ActorMap(actors)) {
      assert s[k] in multiset(rows);
      var j :| 0 <= j < |rows| && rows[j] == s[k];
      assert rows[j].actor_id == keys[j];
    }
  }

  /** Every actor with a log has exactly one row. */
  lemma SummaryOneRowPerActor(logs: seq<LogEntry>, actors: seq<ActorRow>)
    ensures var s := Summary(Some(logs), actors);
            && |s| == |Dedup(Ids(logs))|
            && (forall id :: id in Ids(logs) ==> exists k :: 0 <= k < |s| && s[k].actor_id == id)
            && Distinct(ActorIdsOf(s))
  {
    SummaryCoversActors(logs, actors);
    SummaryOrder(logs, actors);
    SummaryRowsAggregate(logs, actors);
    RowsDistinct(Summary(Some(logs), actors), Ids(logs), logs, ActorMap(actors));
  }

  lemma SummaryCoversActors(logs: seq<LogEntry>, actors: seq<ActorRow>)
    ensures var s := Summary(Some(logs), actors);
            forall id :: id in Ids(logs) ==> exists k :: 0 <= k < |s| && s[k].actor_id == id
  {
    var keys := Dedup(Ids(logs));
    var rows := Rows(keys, logs, ActorMap(actors));
    var s := Summary(Some(logs), actors);
    forall id | id in Ids(logs) ensures exists k :: 0 <= k < |s| && s[k].actor_id == id {
      var j :| 0 <= j < |keys| && keys[j] == id;
      assert rows[j] in multiset(s);
      var k :| 0 <= k < |s| && s[k] == rows[j];
    }
  }

  /** Rows that are each their actor's aggregate and strictly ordered by `Before` name distinct actors. */
  lemma RowsDistinct(s: seq<LogSummary>, ids: seq<string>, logs: seq<LogEntry>, names: map<string, Option<string>>)
    requires ViewsThenFirstSeen(s, ids)
    requires forall k :: 0 <= k < |s| ==> s[k] == Row(s[k].actor_id, logs, names)
    ensures Distinct(ActorIdsOf(s))
  {
    var a := ActorIdsOf(s);
    forall i, j | 0 <= i < j < |a| ensures a[i] != a[j] {
      assert Before(s[i], s[j], ids);
    }
  }

  function ActorIdsOf(s: seq<LogSummary>): (ids: seq<string>)
    ensures |ids| == |s| && forall k :: 0 <= k < |s| ==> ids[k] == s[k].actor_id
  {
    seq(|s|, k requires 0 <= k < |s| => s[k].actor_id)
  }

  /** The view counts add up to the number of logs. */
  lemma SummaryViewsTotal(logs: seq<LogEntry>, actors: seq<ActorRow>)
    ensures SumViews(Summary(Some(logs), actors)) == |logs|
  {
    var keys := Dedup(Ids(logs));
    var rows := Rows(keys, logs, ActorMap(actors));
    SumSort(rows);
    SumRows(keys, logs, ActorMap(actors));
    TallyTotal(logs);
  }

  /** One iteration's update of an actor's entry: one more view, and the duration when truthy. */
  function Bump(t: Tally, l: LogEntry): Tally {
    Tally(t.total + 1, if Truthy(l.duration_seconds) then t.durations + [l.duration_seconds.value] else t.durations)
  }

  /** The tally map after reading `logs`: `map.get(id) || { total: 0, durations: [] }`, bumped, stored back. */
  function Tallies(logs: seq<LogEntry>): map<string, Tally> {
    if logs == [] then map[]
    else
      var t := Tallies(logs[..|logs| - 1]);
      var l := logs[|logs| - 1];
      t[l.actor_id := Bump(if l.actor_id in t then t[l.actor_id] else Tally(0, []), l)]
  }

  /** The map holds an entry for exactly the actors with a log: their count and their truthy durations. */
  lemma {:induction false} TalliesExact(logs: seq<LogEntry>, id: string)
    ensures id in Tallies(logs) <==> id in Ids(logs)
    ensures id in Tallies(logs) ==> Tallies(logs)[id] == Tally(Count(logs, id), Durations(logs, id))
  {
    if logs != [] {
      var n := |logs| - 1;
      var p := logs[..n];
      TalliesExact(p, id);
      assert Ids(logs) == Ids(p) + [logs[n].actor_id];
      if logs[n].actor_id == id && id !in Tallies(p) {
        DurationsAreTruthy(p, id);
      }
    }
  }

  /**
   * The `for` loop of `summary`: one pass over the logs fills the tally map; `keys` is the
   * map's key order (a `Map` iterates in insertion order, and a key is inserted when its
   * actor's first log is read).
   */
  method TallyLogs(s: seq<LogEntry>) returns (tally: map<string, Tally>, keys: seq<string>)
    ensures tally == Tallies(s) && keys == Dedup(Ids(s))
  {
    tally := map[];
    keys := [];
    var i := 0;
    while i < |s|
      invariant 0 <= i <= |s|
      invariant tally == Tallies(s[..i]) && keys == Dedup(Ids(s[..i]))
    {
      var l := s[i];
      var existing := if l.actor_id in tally then tally[l.actor_id] else Tally(0, []);
      existing := existing.(total := existing.total + 1);
      if Truthy(l.duration_seconds) {
        existing := existing.(durations := existing.durations + [l.duration_seconds.value]);
      }
      TallyStep(s, i, tally, keys, existing);
      tally := tally[l.actor_id := existing];
      if l.actor_id !in keys {
        keys := keys + [l.actor_id];
      }
      i := i + 1;
    }
    assert s[..i] == s;
  }

  /** Reading log `i` bumps its actor's entry and appends the actor to the keys on its first log. */
  lemma TallyStep(s: seq<LogEntry>, i: nat, t: map<string, Tally>, keys: seq<string>, e: Tally)
    requires i < |s| && t == Tallies(s[..i]) && keys == Dedup(Ids(s[..i]))
    requires e == Bump(if s[i].actor_id in t then t[s[i].actor_id] else Tally(0, []), s[i])
    ensures Tallies(s[..i + 1]) == t[s[i].actor_id := e]
    ensures Dedup(Ids(s[..i + 1])) == if s[i].actor_id in keys then keys else keys + [s[i].actor_id]
  {
    assert s[..i + 1] == s[..i] + [s[i]];
    TalliesSnoc(s[..i], s[i]);
    KeysSnoc(s[..i], s[i]);
  }

  lemma TalliesSnoc(p: seq<LogEntry>, l: LogEntry)
    ensures var t := Tallies(p);
            Tallies(p + [l]) == t[l.actor_id := Bump(if l.actor_id in t then t[l.actor_id] else Tally(0, []), l)]
  {
    assert (p + [l])[..|p|] == p;
  }

  lemma KeysSnoc(p: seq<LogEntry>, l: LogEntry)
    ensures var keys := Dedup(Ids(p));
            Dedup(Ids(p + [l])) == if l.actor_id in keys then keys else keys + [l.actor_id]
  {
    assert (p + [l])[..|p|] == p;
    assert Ids(p + [l]) == Ids(p) + [l.actor_id];
    DedupSnoc(Ids(p), l.actor_id);
  }

  /** The IIFE that computes `summary`: tally the logs, turn the entries into rows, sort them. */
  method Summarize(logs: Option<seq<LogEntry>>, actors: seq<ActorRow>) returns (summary: seq<LogSummary>)
    ensures logs.None? ==> summary == []
    ensures summary == Summary(logs, actors)
  {
    if logs.None? {
      return [];
    }
    var tally, keys := TallyLogs(logs.value);
    forall id | id in keys ensures id in tally && tally[id] == Tally(Count(logs.value, id), Durations(logs.value, id)) {
      TalliesExact(logs.value, id);
    }
    var names := ActorMap(actors);
    var rows := seq(|keys|, k requires 0 <= k < |keys| => RowOf(keys[k], tally[keys[k]], names));
    assert rows == Rows(keys, logs.value, names);
    summary := SortByViews(rows);
  }

  // ---- formatting ----

  /** Every character is a decimal digit. */
  predicate AllDigits(s: string) {
    forall k :: 0 <= k < |s| ==> IsDigit(s[k])
  }

  /** `formatDuration`: "{minutes}분 {seconds}초" from one minute on, else "{s}초". */
  function FormatDuration(s: int): (r: string)
    ensures s >= 60 ==> r == NatToDecimal(s / 60) + "분 " + NatToDecimal(s % 60) + "초"
    ensures s < 60 ==> r == IntToDecimal(s) + "초"
  {
    if s >= 60 then IntToDecimal(s / 60) + "분 " + IntToDecimal(s % 60) + "초" else IntToDecimal(s) + "초"
  }

  /**
   * From one minute on, the text reads back as minutes and seconds that recombine to `s`,
   * with fewer than sixty seconds.
   */
  lemma FormatDurationReadsBack(s: int)
    requires s >= 60
    ensures var r := FormatDuration(s);
            exists k :: 0 <= k && k + 3 <= |r| && AllDigits(r[..k]) && r[k..k + 2] == "분 " && AllDigits(r[k + 2..|r| - 1])
                        && r[|r| - 1] == '초'
                        && DecimalValue(r[..k]) * 60 + DecimalValue(r[k + 2..|r| - 1]) == s
                        && DecimalValue(r[k + 2..|r| - 1]) < 60
  {
    var m := NatToDecimal(s / 60);
    var sec := NatToDecimal(s % 60);
    var r := FormatDuration(s);
    var k := |m|;
    assert r == m + "분 " + sec + "초";
    assert r[..k] == m;
    assert r[k..k + 2] == "분 ";
    assert r[k + 2..|r| - 1] == sec;
    DecimalRoundTrip(s / 60);
    DecimalRoundTrip(s % 60);
  }

  /** `parseUA`: unknown for a missing or empty agent, mobile when it contains "Mobile", else desktop. */
  function ParseUA(ua: Option<string>): (r: string)
    ensures !Present(ua) ==> r == "알 수 없음"
    ensures Present(ua) && (exists i :: OccursAt(ua.value, "Mobile", i)) ==> r == "📱 모바일"
    ensures Present(ua) && !(exists i :: OccursAt(ua.value, "Mobile", i)) ==> r == "💻 데스크톱"
  {
    if !Present(ua) then "알 수 없음"
    else
      ContainsAt(ua.value, "Mobile");
      if Contains(ua.value, "Mobile") then "📱 모바일" else "💻 데스크톱"
  }
}
