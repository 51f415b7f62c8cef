/** The plan store: an in-memory list of shared `PlanItem` objects and a
    chat-to-time-zone map, with eager expansion of recurring plans, the
    deletions, the sorted queries and the due-notification filter. JSON
    persistence is reduced to a counter of `SavePlans` calls and a flag for
    whether the time-zone file exists. */
module Planner {
  import opened Wrappers
  import opened Seqs
  import opened Text
  import opened Calendar
  import opened Models

  /** The clocks and the time-zone database the store reads. `zoneTime(id)`
      is `TimeZoneInfo.ConvertTimeFromUtc(utcNow, FindSystemTimeZoneById(id))`,
      or `None` when the zone id is unknown; `serverNow` is `DateTime.Now`. */
  datatype Clock = Clock(utcNow: DateTime, serverNow: DateTime, zoneTime: string -> Option<DateTime>)

  // ---------------------------------------------------------------------
  // Recurrence expansion

  const DaysPerWeek: nat := 7

  /** One step of a series: a day, a week, or `AddMonths(1)`. */
  function Step(d: DateTime, r: RecurrenceType): (n: Option<DateTime>)
    requires r != RecurrenceType.None
    ensures n.Some? ==> Ticks(n.value) > Ticks(d) && n.value.millis == d.millis
    ensures r == Daily && n.Some? ==> Ticks(n.value) == Ticks(d) + MsPerDay
    ensures r == Weekly && n.Some? ==> Ticks(n.value) == Ticks(d) + 7 * MsPerDay
    ensures r == Monthly && n.Some? ==> MonthIndex(n.value) == MonthIndex(d) + 1
  {
    match r
    case Daily => AddDays(d, 1)
    case Weekly => AddDays(d, DaysPerWeek)
    case Monthly =>
      var n := AddMonths(d, 1);
      assert n.Some? ==> Ticks(n.value) > Ticks(d) by {
        if n.Some? { AddMonthsLater(d, 1); }
      }
      n
  }

  /** The dates the expansion loop generates from `current` towards `end`,
      and whether a step ran past 9999-12-31 (an exception in the source). */
  datatype Expansion = Expansion(dates: seq<DateTime>, overflowed: bool)

  function SeriesDates(current: DateTime, end: DateTime, r: RecurrenceType): Expansion
    requires r != RecurrenceType.None
    decreases Ticks(end) - Ticks(current)
  {
    if Ticks(current) >= Ticks(end) then Expansion([], false)
    else match Step(current, r)
      case None => Expansion([], true)
      case Some(n) =>
        if Ticks(n) >= Ticks(end) then Expansion([], false)
        else
          var rest := SeriesDates(n, end, r);
          Expansion([n] + rest.dates, rest.overflowed)
  }

  /** One iteration of the expansion loop. */
  lemma SeriesNext(current: DateTime, end: DateTime, r: RecurrenceType)
    requires r != RecurrenceType.None && Ticks(current) < Ticks(end)
    ensures Step(current, r).None? ==> SeriesDates(current, end, r) == Expansion([], true)
    ensures Step(current, r).Some? && Ticks(Step(current, r).value) >= Ticks(end) ==>
      SeriesDates(current, end, r) == Expansion([], false)
    ensures Step(current, r).Some? && Ticks(Step(current, r).value) < Ticks(end) ==>
      var rest := SeriesDates(Step(current, r).value, end, r);
      SeriesDates(current, end, r) == Expansion([Step(current, r).value] + rest.dates, rest.overflowed)
  {
  }

  /** The last date reached: `start` itself before the first step. */
  function LastOf(start: DateTime, dates: seq<DateTime>): DateTime {
    if |dates| == 0 then start else dates[|dates| - 1]
  }

  /** `dates` are the successive steps from `start`, all before `end`. */
  predicate SeriesPrefix(start: DateTime, end: DateTime, r: RecurrenceType, dates: seq<DateTime>)
    requires r != RecurrenceType.None
  {
    && (|dates| > 0 ==> Step(start, r) == Some(dates[0]))
    && (forall k :: 0 <= k < |dates| - 1 ==> Step(dates[k], r) == Some(dates[k + 1]))
    && (forall k :: 0 <= k < |dates| ==> Ticks(dates[k]) < Ticks(end))
  }

  /** One more step before `end` extends a prefix. */
  lemma PrefixExtend(start: DateTime, end: DateTime, r: RecurrenceType, dates: seq<DateTime>, n: DateTime)
    requires r != RecurrenceType.None && SeriesPrefix(start, end, r, dates)
    requires Step(LastOf(start, dates), r) == Some(n) && Ticks(n) < Ticks(end)
    ensures SeriesPrefix(start, end, r, dates + [n]) && LastOf(start, dates + [n]) == n
  {
    var e := dates + [n];
    assert |e| > 0 ==> Step(start, r) == Some(e[0]) by {
      if |dates| > 0 { assert e[0] == dates[0]; }
    }
    forall k | 0 <= k < |e| - 1 ensures Step(e[k], r) == Some(e[k + 1]) {
      assert e[k] == dates[k];
      if k + 1 < |dates| { assert e[k + 1] == dates[k + 1]; }
    }
    AllBeforeSnoc(dates, n, end);
  }

  /** A step before `end` in front of a prefix from where it lands is a prefix. */
  lemma PrefixCons(start: DateTime, end: DateTime, r: RecurrenceType, n: DateTime, rest: seq<DateTime>)
    requires r != RecurrenceType.None && SeriesPrefix(n, end, r, rest)
    requires Step(start, r) == Some(n) && Ticks(n) < Ticks(end)
    ensures SeriesPrefix(start, end, r, [n] + rest)
  {
    var e := [n] + rest;
    forall k | 0 <= k < |e| - 1 ensures Step(e[k], r) == Some(e[k + 1]) {
      assert e[k + 1] == rest[k];
      if k > 0 { assert e[k] == rest[k - 1]; }
    }
    AllBeforeCons(n, rest, end);
  }

  /** Putting a date before `end` in front keeps every date before `end`. */
  lemma AllBeforeCons(n: DateTime, dates: seq<DateTime>, end: DateTime)
    requires forall k :: 0 <= k < |dates| ==> Ticks(dates[k]) < Ticks(end)
    requires Ticks(n) < Ticks(end)
    ensures forall k :: 0 <= k < |[n] + dates| ==> Ticks(([n] + dates)[k]) < Ticks(end)
  {
    forall k | 0 <= k < |[n] + dates| ensures Ticks(([n] + dates)[k]) < Ticks(end) {
      if k > 0 { assert ([n] + dates)[k] == dates[k - 1]; }
    }
  }

  /** Appending a date before `end` keeps every date before `end`. */
  lemma AllBeforeSnoc(dates: seq<DateTime>, n: DateTime, end: DateTime)
    requires forall k :: 0 <= k < |dates| ==> Ticks(dates[k]) < Ticks(end)
    requires Ticks(n) < Ticks(end)
    ensures forall k :: 0 <= k < |dates + [n]| ==> Ticks((dates + [n])[k]) < Ticks(end)
  {
    forall k | 0 <= k < |dates + [n]| ensures Ticks((dates + [n])[k]) < Ticks(end) {
      if k < |dates| { assert (dates + [n])[k] == dates[k]; }
    }
  }

  /** Past its first step, a prefix is a prefix from where that step lands. */
  lemma PrefixTail(start: DateTime, end: DateTime, r: RecurrenceType, dates: seq<DateTime>)
    requires r != RecurrenceType.None && |dates| > 0 && SeriesPrefix(start, end, r, dates)
    ensures SeriesPrefix(dates[0], end, r, dates[1..])
    ensures LastOf(dates[0], dates[1..]) == LastOf(start, dates)
    ensures Ticks(start) < Ticks(dates[0]) < Ticks(end)
  {
    var t := dates[1..];
    forall k | 0 <= k < |t| - 1 ensures Step(t[k], r) == Some(t[k + 1]) {
      assert t[k] == dates[k + 1] && t[k + 1] == dates[k + 2];
    }
    AllBeforeTail(dates, end);
  }

  /** Dropping the first date keeps every date before `end`. */
  lemma AllBeforeTail(dates: seq<DateTime>, end: DateTime)
    requires |dates| > 0 && forall k :: 0 <= k < |dates| ==> Ticks(dates[k]) < Ticks(end)
    ensures forall k :: 0 <= k < |dates[1..]| ==> Ticks(dates[1..][k]) < Ticks(end)
  {
    forall k | 0 <= k < |dates[1..]| ensures Ticks(dates[1..][k]) < Ticks(end) {
      assert dates[1..][k] == dates[k + 1];
    }
  }

  /** A prefix that has stopped where the loop stops is the whole series. */
  lemma {:induction false} SeriesOfPrefix(start: DateTime, end: DateTime, r: RecurrenceType, dates: seq<DateTime>, threw: bool)
    requires r != RecurrenceType.None && SeriesPrefix(start, end, r, dates)
    requires |dates| > 0 || Ticks(start) < Ticks(end) || !threw
    requires threw ==> Ticks(LastOf(start, dates)) < Ticks(end) && Step(LastOf(start, dates), r).None?
    requires !threw ==>
      (Ticks(LastOf(start, dates)) >= Ticks(end)
       || (Step(LastOf(start, dates), r).Some? && Ticks(Step(LastOf(start, dates), r).value) >= Ticks(end)))
    ensures SeriesDates(start, end, r) == Expansion(dates, threw)
    decreases |dates|
  {
    if |dates| == 0 {
    } else {
      PrefixTail(start, end, r, dates);
      SeriesOfPrefix(dates[0], end, r, dates[1..], threw);
      SeriesCons(start, end, r, dates, threw);
    }
  }

  /** One step of the expansion puts the first date in front of the rest of the series. */
  lemma SeriesCons(start: DateTime, end: DateTime, r: RecurrenceType, dates: seq<DateTime>, threw: bool)
    requires r != RecurrenceType.None && |dates| > 0
    requires Step(start, r) == Some(dates[0]) && Ticks(start) < Ticks(dates[0]) < Ticks(end)
    requires SeriesDates(dates[0], end, r) == Expansion(dates[1..], threw)
    ensures SeriesDates(start, end, r) == Expansion(dates, threw)
  {
    assert dates == [dates[0]] + dates[1..];
  }

  /** Conversely, a series is such a prefix that has stopped where the loop stops. */
  lemma {:induction false} PrefixOfSeries(start: DateTime, end: DateTime, r: RecurrenceType)
    requires r != RecurrenceType.None
    ensures var x := SeriesDates(start, end, r);
      SeriesPrefix(start, end, r, x.dates)
      && (x.overflowed ==> Ticks(LastOf(start, x.dates)) < Ticks(end) && Step(LastOf(start, x.dates), r).None?)
      && (!x.overflowed ==>
            Ticks(LastOf(start, x.dates)) >= Ticks(end)
            || (Step(LastOf(start, x.dates), r).Some? && Ticks(Step(LastOf(start, x.dates), r).value) >= Ticks(end)))
    decreases Ticks(end) - Ticks(start)
  {
    if Ticks(start) < Ticks(end) {
      match Step(start, r)
      case None =>
      case Some(n) =>
        if Ticks(n) < Ticks(end) {
          PrefixOfSeries(n, end, r);
          var rest := SeriesDates(n, end, r).dates;
          assert SeriesDates(start, end, r).dates == [n] + rest;
          PrefixCons(start, end, r, n, rest);
          assert LastOf(start, [n] + rest) == LastOf(n, rest);
        }
    }
  }

  /** The dates of a prefix strictly increase from `start`. */
  lemma {:induction false} PrefixIncreasing(start: DateTime, end: DateTime, r: RecurrenceType, dates: seq<DateTime>)
    requires r != RecurrenceType.None && SeriesPrefix(start, end, r, dates)
    ensures forall k :: 0 <= k < |dates| ==> Ticks(start) < Ticks(dates[k])
    ensures forall j, k :: 0 <= j < k < |dates| ==> Ticks(dates[j]) < Ticks(dates[k])
    decreases |dates|
  {
    if |dates| > 0 {
      PrefixTail(start, end, r, dates);
      PrefixIncreasing(dates[0], end, r, dates[1..]);
      forall j, k | 0 <= j < k < |dates| ensures Ticks(dates[j]) < Ticks(dates[k]) {
        if j > 0 {
          assert dates[j] == dates[1..][j - 1] && dates[k] == dates[1..][k - 1];
        } else {
          assert dates[k] == dates[1..][k - 1];
        }
      }
    }
  }

  /** The `while (currentDate < endDate)` loop of `CreateRecurringPlans`:
      the occurrence dates, and whether a step threw. */
  method OccurrenceDates(start: DateTime, end: DateTime, r: RecurrenceType) returns (dates: seq<DateTime>, threw: bool)
    requires r != RecurrenceType.None
    ensures Expansion(dates, threw) == SeriesDates(start, end, r)
  {
    dates := [];
    threw := false;
    var current := start;
    while Ticks(current) < Ticks(end)
      invariant SeriesPrefix(start, end, r, dates) && current == LastOf(start, dates)
      decreases Ticks(end) - Ticks(current)
    {
      var next := Step(current, r);
      if next.None? {
        threw := true;
        SeriesOfPrefix(start, end, r, dates, threw);
        return;
      }
      if Ticks(next.value) >= Ticks(end) {
        SeriesOfPrefix(start, end, r, dates, threw);
        return;
      }
      PrefixExtend(start, end, r, dates, next.value);
      current := next.value;
      dates := dates + [current];
    }
    SeriesOfPrefix(start, end, r, dates, threw);
  }

  /** The end of a series: `RecurrenceEndDate ?? DateTime.AddMonths(3)`. */
  function EndDate(plan: PlanItem): (e: Option<DateTime>)
    reads plan
    ensures plan.recurrenceEndDate.Some? ==> e == plan.recurrenceEndDate
    ensures plan.recurrenceEndDate.None? && e.Some? ==> Ticks(e.value) > Ticks(plan.dateTime)
  {
    match plan.recurrenceEndDate
    case Some(e) => Some(e)
    case None =>
      var e := AddMonths(plan.dateTime, 3);
      assert e.Some? ==> Ticks(e.value) > Ticks(plan.dateTime) by {
        if e.Some? { AddMonthsLater(plan.dateTime, 3); }
      }
      e
  }

  /** `q` is the occurrence of `original` on `date` with the fresh id `id`. */
  predicate IsOccurrence(q: PlanItem, original: PlanItem, date: DateTime, id: PlanId)
    reads q, original
  {
    q.id == id && q.chatId == original.chatId && q.dateTime == date
    && q.description == original.description && q.notificationMinutes == original.notificationMinutes
    && q.recurrence == original.recurrence && q.recurrenceEndDate == original.recurrenceEndDate
    && q.parentRecurrenceId == Some(original.id) && !q.isNotified
  }

  /** `s` holds the occurrences of `original` on `dates`, with consecutive ids from `firstId`. */
  predicate Occurrences(s: seq<PlanItem>, original: PlanItem, dates: seq<DateTime>, firstId: nat)
    reads s, original
  {
    |s| == |dates| && forall k :: 0 <= k < |s| ==> IsOccurrence(s[k], original, dates[k], firstId + k)
  }

  /** `before` holds ids below `firstId` and `after` extends it with
      consecutive ids from `firstId`: every appended id is held once only. */
  lemma FreshAppend(before: seq<PlanItem>, after: seq<PlanItem>, firstId: nat)
    requires |before| <= |after| && after[..|before|] == before
    requires forall j :: 0 <= j < |before| ==> before[j].id < firstId
    requires forall k :: |before| <= k < |after| ==> after[k].id == firstId + (k - |before|)
    ensures forall j :: 0 <= j < |after| ==> after[j].id < firstId + (|after| - |before|)
    ensures forall k, j :: 0 <= j < k < |after| && k >= |before| ==> after[j].id != after[k].id
  {
    assert forall j :: 0 <= j < |before| ==> after[j] == before[j];
  }

  // ---------------------------------------------------------------------
  // Searching, filtering and sorting

  predicate HasKey(p: PlanItem, id: PlanId, chatId: int)
    reads p
  {
    p.id == id && p.chatId == chatId
  }

  /** `FirstOrDefault(p => p.Id == id && p.ChatId == chatId)`, as an index. */
  function FindPlan(s: seq<PlanItem>, id: PlanId, chatId: int): (r: Option<nat>)
    reads s
    ensures r.Some? ==> r.value < |s| && HasKey(s[r.value], id, chatId)
    ensures r.Some? ==> forall j :: 0 <= j < r.value ==> !HasKey(s[j], id, chatId)
    ensures r.None? ==> forall j :: 0 <= j < |s| ==> !HasKey(s[j], id, chatId)
  {
    if |s| == 0 then Option.None
    else if HasKey(s[0], id, chatId) then Some(0)
    else match FindPlan(s[1..], id, chatId)
      case None => Option.None
      case Some(i) => Some(i + 1)
  }

  /** `FirstOrDefault(p => p.Id == id)`, as an index. */
  function FindId(s: seq<PlanItem>, id: PlanId): (r: Option<nat>)
    ensures r.Some? ==> r.value < |s| && s[r.value].id == id
    ensures r.Some? ==> forall j :: 0 <= j < r.value ==> s[j].id != id
    ensures r.None? ==> forall j :: 0 <= j < |s| ==> s[j].id != id
  {
    if |s| == 0 then Option.None
    else if s[0].id == id then Some(0)
    else match FindId(s[1..], id)
      case None => Option.None
      case Some(i) => Some(i + 1)
  }

  predicate OnDate(p: PlanItem, chatId: int, date: DateTime)
    reads p
  {
    p.chatId == chatId && DateOf(p.dateTime) == DateOf(date)
  }

  predicate Upcoming(p: PlanItem, chatId: int, fromDate: DateTime)
    reads p
  {
    p.chatId == chatId && Ticks(p.dateTime) >= Ticks(fromDate)
  }

  predicate MatchesQuery(p: PlanItem, chatId: int, query: string)
    reads p
  {
    p.chatId == chatId && Contains(ToLower(p.description), ToLower(query))
  }

  predicate InSeries(p: PlanItem, chatId: int, parentId: PlanId)
    reads p
  {
    p.chatId == chatId && (p.id == parentId || p.parentRecurrenceId == Some(parentId))
  }

  /** `IsNotified` is false and the plan starts between now and its
      reminder lead time from now: `0 <= (DateTime - now).TotalMinutes <=
      NotificationMinutes`, compared exactly in milliseconds. */
  predicate IsPending(p: PlanItem, now: DateTime)
    reads p
  {
    !p.isNotified && 0 <= Ticks(p.dateTime) - Ticks(now) <= p.notificationMinutes * MsPerMinute
  }

  function PlansOnDate(s: seq<PlanItem>, chatId: int, date: DateTime): set<PlanItem>
    reads s
  {
    set p | p in s && OnDate(p, chatId, date)
  }

  function UpcomingPlans(s: seq<PlanItem>, chatId: int, fromDate: DateTime): set<PlanItem>
    reads s
  {
    set p | p in s && Upcoming(p, chatId, fromDate)
  }

  function QueryMatches(s: seq<PlanItem>, chatId: int, query: string): set<PlanItem>
    reads s
  {
    set p | p in s && MatchesQuery(p, chatId, query)
  }

  function SeriesPlans(s: seq<PlanItem>, chatId: int, parentId: PlanId): set<PlanItem>
    reads s
  {
    set p | p in s && InSeries(p, chatId, parentId)
  }

  function PendingPlans(s: seq<PlanItem>, now: DateTime): set<PlanItem>
    reads s
  {
    set p | p in s && IsPending(p, now)
  }

  /** The sort keys of `OrderBy(p => p.DateTime)` and `OrderBy(p => p.DateTime.TimeOfDay)`. */
  datatype SortKey = ByDateTime | ByTimeOfDay

  function Key(p: PlanItem, k: SortKey): int
    reads p
  {
    match k
    case ByDateTime => Ticks(p.dateTime)
    case ByTimeOfDay => TimeOfDay(p.dateTime)
  }

  predicate SortedBy(s: seq<PlanItem>, k: SortKey)
    reads s
  {
    forall i, j :: 0 <= i < j < |s| ==> Key(s[i], k) <= Key(s[j], k)
  }

  /** Plans of one day in order of time of day are in order of date and time. */
  lemma SameDayByTime(s: seq<PlanItem>, chatId: int, date: DateTime)
    requires forall i :: 0 <= i < |s| ==> OnDate(s[i], chatId, date)
    requires SortedBy(s, ByTimeOfDay)
    ensures SortedBy(s, ByDateTime)
  {
    forall i, j | 0 <= i < j < |s| ensures Key(s[i], ByDateTime) <= Key(s[j], ByDateTime) {
      assert DateOf(s[i].dateTime) == DateOf(s[j].dateTime);
    }
  }

  /** The plans of `s` whose key `k` is `v`, in their order in `s`. */
  function WithSortKey(s: seq<PlanItem>, k: SortKey, v: int): seq<PlanItem>
    reads s
    decreases |s|
  {
    if |s| == 0 then [] else (if Key(s[0], k) == v then [s[0]] else []) + WithSortKey(s[1..], k, v)
  }

  /** Where `key` agrees with `Key(_, k)` on the plans of `s`, the two filters agree. */
  lemma {:induction false} WithSortKeyIsWithKey(s: seq<PlanItem>, k: SortKey, key: PlanItem -> int, v: int)
    requires forall i :: 0 <= i < |s| ==> key(s[i]) == Key(s[i], k)
    ensures WithSortKey(s, k, v) == WithKey(s, key, v)
    decreases |s|
  {
    if |s| > 0 {
      assert forall i :: 0 <= i < |s[1..]| ==> s[1..][i] == s[i + 1];
      WithSortKeyIsWithKey(s[1..], k, key, v);
    }
  }

  /** `OrderBy(key)`, a stable sort: the plans in ascending key order, a
      permutation of `s`, and the plans of equal key in their order in `s`.
      The keys are read off the plans first, so that the sort itself reads
      nothing. */
  function SortBy(s: seq<PlanItem>, k: SortKey): (r: seq<PlanItem>)
    reads s
    ensures multiset(r) == multiset(s) && SortedBy(r, k)
    ensures forall v :: WithSortKey(r, k, v) == WithSortKey(s, k, v)
  {
    var keys := map p | p in s :: Key(p, k);
    var key := (p: PlanItem) => if p in keys then keys[p] else 0;
    SortByKeySortedFor(s, k, key);
    SortByKeyStableFor(s, k, key);
    SortByKey(s, key)
  }

  /** Sorting by a key that agrees with `Key(_, k)` on `s` sorts by `k`. */
  lemma SortByKeySortedFor(s: seq<PlanItem>, k: SortKey, key: PlanItem -> int)
    requires forall p :: p in s ==> key(p) == Key(p, k)
    ensures SortedBy(SortByKey(s, key), k)
  {
    var r := SortByKey(s, key);
    SameElements(r, s);
    forall i, j | 0 <= i < j < |r| ensures Key(r[i], k) <= Key(r[j], k) {
      assert key(r[i]) <= key(r[j]);
    }
  }

  /** Sorting by a key that agrees with `Key(_, k)` on `s` is stable for `k`. */
  lemma SortByKeyStableFor(s: seq<PlanItem>, k: SortKey, key: PlanItem -> int)
    requires forall p :: p in s ==> key(p) == Key(p, k)
    ensures forall v :: WithSortKey(SortByKey(s, key), k, v) == WithSortKey(s, k, v)
  {
    var r := SortByKey(s, key);
    SameElements(r, s);
    forall v ensures WithSortKey(r, k, v) == WithSortKey(s, k, v) {
      SortByKeyStable(s, key, v);
      WithSortKeyIsWithKey(r, k, key, v);
      WithSortKeyIsWithKey(s, k, key, v);
    }
  }

  lemma SameElements(r: seq<PlanItem>, s: seq<PlanItem>)
    requires multiset(r) == multiset(s)
    ensures forall i :: 0 <= i < |r| ==> r[i] in s
    ensures forall i :: 0 <= i < |s| ==> s[i] in r
  {
    assert forall i :: 0 <= i < |r| ==> r[i] in multiset(r);
    assert forall i :: 0 <= i < |s| ==> s[i] in multiset(s);
  }

  /** `OrderBy(d => d)` on dates. */
  function SortDates(s: seq<DateTime>): (r: seq<DateTime>)
    ensures SortedByKey(r, Ticks) && multiset(r) == multiset(s)
  {
    SortByKey(s, Ticks)
  }

  /** `Select(p => p.DateTime.Date)`. */
  function DatesOf(s: seq<PlanItem>): (r: seq<DateTime>)
    reads s
    ensures |r| == |s| && forall i :: 0 <= i < |s| ==> r[i] == DateOf(s[i].dateTime)
  {
    if |s| == 0 then [] else [DateOf(s[0].dateTime)] + DatesOf(s[1..])
  }

  /** `Select(p => p.ChatId)`. */
  function ChatIdsOf(s: seq<PlanItem>): (r: seq<int>)
    reads s
    ensures |r| == |s| && forall i :: 0 <= i < |s| ==> r[i] == s[i].chatId
  {
    if |s| == 0 then [] else [s[0].chatId] + ChatIdsOf(s[1..])
  }

  /** The greatest id in `s`, or 0. */
  function MaxId(s: seq<PlanItem>): (m: nat)
    reads s
    ensures forall i :: 0 <= i < |s| ==> s[i].id <= m
  {
    if |s| == 0 then 0
    else var m := MaxId(s[1..]); if s[0].id > m then s[0].id else m
  }

  /** The spec of `DeleteMultiplePlans`: for each id in turn, remove the
      first plan of the chat with that id, counting the removals. */
  function DeleteIds(s: seq<PlanItem>, chatId: int, ids: seq<PlanId>): (seq<PlanItem>, nat)
    reads s
    decreases |ids|
  {
    if |ids| == 0 then (s, 0)
    else match FindPlan(s, ids[0], chatId)
      case None => DeleteIds(s, chatId, ids[1..])
      case Some(i) =>
        var t := s[..i] + s[i + 1..];
        assert forall j :: 0 <= j < |t| ==> t[j] in s by {
          forall j | 0 <= j < |t| ensures t[j] in s {
            if j < i { assert t[j] == s[j]; } else { assert t[j] == s[j + 1]; }
          }
        }
        var rest := DeleteIds(t, chatId, ids[1..]);
        (rest.0, rest.1 + 1)
  }

  /** The deletion of `ids[k..]` is that of `ids[k]`, then of `ids[k + 1..]`. */
  lemma DeleteIdsStep(s: seq<PlanItem>, chatId: int, ids: seq<PlanId>, k: nat)
    requires k < |ids|
    ensures FindPlan(s, ids[k], chatId).None? ==> DeleteIds(s, chatId, ids[k..]) == DeleteIds(s, chatId, ids[k + 1..])
    ensures FindPlan(s, ids[k], chatId).Some? ==>
      var i := FindPlan(s, ids[k], chatId).value;
      var rest := DeleteIds(s[..i] + s[i + 1..], chatId, ids[k + 1..]);
      DeleteIds(s, chatId, ids[k..]) == (rest.0, rest.1 + 1)
  {
    assert ids[k..][0] == ids[k] && ids[k..][1..] == ids[k + 1..];
  }

  /** At most one plan per id goes, only plans of the chat go, and the
      count is what went. */
  lemma {:induction false} DeleteIdsRemoves(s: seq<PlanItem>, chatId: int, ids: seq<PlanId>)
    ensures var r := DeleteIds(s, chatId, ids);
      r.1 <= |ids| && |r.0| + r.1 == |s| && multiset(r.0) <= multiset(s)
      && (forall i :: 0 <= i < |s| && s[i].chatId != chatId ==> s[i] in r.0)
    decreases |ids|
  {
    if |ids| > 0 {
      match FindPlan(s, ids[0], chatId)
      case None => DeleteIdsRemoves(s, chatId, ids[1..]);
      case Some(i) =>
        var t := s[..i] + s[i + 1..];
        assert s == s[..i] + [s[i]] + s[i + 1..];
        assert multiset(t) <= multiset(s);
        forall j | 0 <= j < |s| && s[j].chatId != chatId ensures s[j] in t {
          if j < i { assert t[j] == s[j]; } else { assert j != i; assert t[j - 1] == s[j]; }
        }
        DeleteIdsRemoves(t, chatId, ids[1..]);
    }
  }

  // ---------------------------------------------------------------------
  // The recurrence and plan texts

  function GetRecurrenceName(r: RecurrenceType): (name: string)
    ensures r == RecurrenceType.None <==> name == "Не повторяется"
  {
    match r
    case Daily => "Каждый день"
    case Weekly => "Каждую неделю"
    case Monthly => "Каждый месяц"
    case None => "Не повторяется"
  }

  /** The reminder lead time as the texts show it: "1 час" for an hour,
      otherwise the minutes followed by " мин". */
  function NotifText(minutes: int): (s: string)
    ensures |s| > 0 && (s[|s| - 1] == 'с' <==> minutes == 60)
    ensures minutes == 60 ==> s == "1 час"
    ensures minutes != 60 ==> EndsWith(s, " мин") && (minutes >= 0 ==> AllDigits(s[..|s| - 4]) && DigitsValue(s[..|s| - 4]) == minutes)
  {
    if minutes == 60 then "1 час"
    else
      var s := IntToString(minutes) + " мин";
      assert s[..|s| - 4] == IntToString(minutes);
      if minutes >= 0 then NatToStringValue(minutes); s else s
  }

  /** The fields of a plan that its texts show, as a value: what a message
      built from a plan carries, whatever happens to the plan afterwards. */
  datatype PlanView = PlanView(dateTime: DateTime, description: string, recurrence: RecurrenceType, notificationMinutes: int)

  function ViewOf(plan: PlanItem): PlanView
    reads plan`dateTime, plan`description, plan`recurrence, plan`notificationMinutes
  {
    PlanView(plan.dateTime, plan.description, plan.recurrence, plan.notificationMinutes)
  }

  /** The last line of a detailed plan text: the reminder lead time. */
  function ReminderLine(minutes: int): string {
    "⏰ Напомнить за " + NotifText(minutes)
  }

  /** `FormatPlan(plan, detailed)`, on the fields it shows. The short form
      starts with the time of day, which reads back as the plan's hour and
      minute, and ends with the description. The detailed form starts with
      the description and ends with the reminder lead time, and the line
      naming the recurrence stands just before it exactly when the plan
      recurs. */
  function FormatPlan(plan: PlanView, detailed: bool): (s: string)
    ensures |s| >= 7
    ensures !detailed ==> StartsWith(s, "🕐 ") && ParseTime(s[2..7]) == Some(Hour(plan.dateTime) * MsPerHour + Minute(plan.dateTime) * MsPerMinute)
    ensures !detailed ==> EndsWith(s, " - " + plan.description)
    ensures detailed ==> StartsWith(s, "📝 " + plan.description + "\n")
    ensures detailed ==> EndsWith(s, ReminderLine(plan.notificationMinutes))
    ensures detailed ==> (s[|s| - 1] == 'с' <==> plan.notificationMinutes == 60)
    ensures detailed ==>
      (plan.recurrence != RecurrenceType.None <==>
         EndsWith(s, "🔄 " + GetRecurrenceName(plan.recurrence) + "\n" + ReminderLine(plan.notificationMinutes)))
  {
    if !detailed then
      var s := "🕐 " + FormatTime(plan.dateTime) + " - " + plan.description;
      assert s[2..7] == FormatTime(plan.dateTime);
      ParseFormatTime(plan.dateTime);
      s
    else
      DetailedEnds(plan);
      DetailedRecurrence(plan);
      DetailedText(plan)
  }

  /** The detailed form: the description, the date and time, the recurrence
      line when the plan recurs, and the reminder lead time. */
  function DetailedText(plan: PlanView): string {
    var recurrenceLine :=
      if plan.recurrence != RecurrenceType.None then "🔄 " + GetRecurrenceName(plan.recurrence) + "\n" else "";
    "📝 " + plan.description + "\n"
    + ("🗓 " + FormatDate(plan.dateTime) + " " + FormatTime(plan.dateTime) + "\n"
       + recurrenceLine
       + ReminderLine(plan.notificationMinutes))
  }

  /** The parts the detailed form is built from. */
  lemma DetailedParts(plan: PlanView)
    ensures var head := "📝 " + plan.description + "\n";
      var dateStart := "🗓 " + FormatDate(plan.dateTime) + " ";
      var recurrenceLine :=
        if plan.recurrence != RecurrenceType.None then "🔄 " + GetRecurrenceName(plan.recurrence) + "\n" else "";
      DetailedText(plan)
        == head + (dateStart + FormatTime(plan.dateTime) + "\n" + recurrenceLine + ReminderLine(plan.notificationMinutes))
  {
  }

  /** The detailed form starts with the description and ends with the lead time. */
  lemma DetailedEnds(plan: PlanView)
    ensures var s := DetailedText(plan);
      && |s| >= 7
      && StartsWith(s, "📝 " + plan.description + "\n")
      && EndsWith(s, ReminderLine(plan.notificationMinutes))
  {
    var head := "📝 " + plan.description + "\n";
    var rest := DetailedText(plan)[|head|..];
    var tail := ReminderLine(plan.notificationMinutes);
    DetailedParts(plan);
    assert DetailedText(plan) == head + rest;
    StartsWithAppend(head, rest);
    var front := DetailedText(plan)[..|DetailedText(plan)| - |tail|];
    assert DetailedText(plan) == front + tail;
    EndsWithAppend(front, tail);
  }

  /** The recurrence line stands just before the last line exactly when the
      plan recurs. */
  lemma DetailedRecurrence(plan: PlanView)
    ensures var s := DetailedText(plan);
      plan.recurrence != RecurrenceType.None <==>
        EndsWith(s, "🔄 " + GetRecurrenceName(plan.recurrence) + "\n" + ReminderLine(plan.notificationMinutes))
  {
    if plan.recurrence != RecurrenceType.None {
      DetailedRecurs(plan);
    } else {
      DetailedOnce(plan);
    }
  }

  lemma DetailedRecurs(plan: PlanView)
    requires plan.recurrence != RecurrenceType.None
    ensures EndsWith(DetailedText(plan), "🔄 " + GetRecurrenceName(plan.recurrence) + "\n" + ReminderLine(plan.notificationMinutes))
  {
    DetailedParts(plan);
    EndsWithLast("📝 " + plan.description + "\n", "🗓 " + FormatDate(plan.dateTime) + " " + FormatTime(plan.dateTime) + "\n",
      "🔄 " + GetRecurrenceName(plan.recurrence) + "\n", ReminderLine(plan.notificationMinutes));
  }

  /** Without a recurrence the character before the last line is the time's
      last digit, not the last letter of "Не повторяется". */
  lemma DetailedOnce(plan: PlanView)
    requires plan.recurrence == RecurrenceType.None
    ensures !EndsWith(DetailedText(plan), "🔄 " + GetRecurrenceName(plan.recurrence) + "\n" + ReminderLine(plan.notificationMinutes))
  {
    var tail := ReminderLine(plan.notificationMinutes);
    var t := "🔄 " + GetRecurrenceName(plan.recurrence) + "\n" + tail;
    DetailedTimeDigit(plan);
    RecurrenceLineEnd(plan.recurrence, tail);
    NotEndsWith(DetailedText(plan), t, |tail| + 2);
  }

  /** Without a recurrence line, the last digit of the time stands just
      before the last line. */
  lemma DetailedTimeDigit(plan: PlanView)
    requires plan.recurrence == RecurrenceType.None
    ensures var s := DetailedText(plan);
      var tail := ReminderLine(plan.notificationMinutes);
      |tail| + 2 <= |s| && IsDigit(s[|s| - |tail| - 2])
  {
    var s := DetailedText(plan);
    var tail := ReminderLine(plan.notificationMinutes);
    var front := "📝 " + plan.description + "\n" + ("🗓 " + FormatDate(plan.dateTime) + " ");
    var time := FormatTime(plan.dateTime);
    assert IsDigit(time[4]) by { assert time[4] == Pad2(Minute(plan.dateTime))[1]; }
    assert s == front + time + ("\n" + tail) by { DetailedParts(plan); }
    EndsWithAt(front, time, "\n" + tail);
  }

  /** The recurrence line ends with the last letter of the recurrence's name,
      which is never a digit. */
  lemma RecurrenceLineEnd(r: RecurrenceType, tail: string)
    ensures var t := "🔄 " + GetRecurrenceName(r) + "\n" + tail;
      |tail| + 2 <= |t| && !IsDigit(t[|t| - |tail| - 2])
  {
    var name := GetRecurrenceName(r);
    var t := "🔄 " + name + "\n" + tail;
    assert t == "🔄 " + name + ("\n" + tail);
    EndsWithAt("🔄 ", name, "\n" + tail);
  }

  // ---------------------------------------------------------------------
  // The store

  /** What `AddPlan(plan)` did to `store` between the two states: the plan is
      appended, followed by its fresh occurrences when it recurs, and `threw`
      tells whether the series ran past the end of the calendar. */
  twostate predicate AddedPlan(store: PlannerService, plan: PlanItem, threw: bool)
    reads store, plan, store.plans
  {
    && |store.plans| >= |old(store.plans)| + 1
    && store.plans[..|old(store.plans)| + 1] == old(store.plans) + [plan]
    && (forall k :: |old(store.plans)| < k < |store.plans| ==> fresh(store.plans[k]))
    && (plan.recurrence == RecurrenceType.None ==>
          store.plans == old(store.plans) + [plan] && !threw && store.nextId == old(store.nextId))
    && (plan.recurrence != RecurrenceType.None && EndDate(plan).None? ==>
          store.plans == old(store.plans) + [plan] && threw && store.nextId == old(store.nextId))
    && (plan.recurrence != RecurrenceType.None && EndDate(plan).Some? ==>
          var x := SeriesDates(plan.dateTime, EndDate(plan).value, plan.recurrence);
          threw == x.overflowed && store.nextId == old(store.nextId) + |x.dates|
          && Occurrences(store.plans[|old(store.plans)| + 1..], plan, x.dates, old(store.nextId)))
    && store.planSaves == if threw then old(store.planSaves) else old(store.planSaves) + 1
  }

  class PlannerService {
    var plans: seq<PlanItem>
    var userTimezones: map<int, string>
    /** Whether timezones.json exists (it is written by every `SaveTimezones`). */
    var timezonesFileExists: bool
    /** How many times the plan list was written out (`SavePlans`). */
    var planSaves: nat
    /** The next id the GUID generator hands out. */
    var nextId: nat

    /** Every stored plan's id is below the counter, so no stored plan holds
        an id that `NewId` hands out later. */
    ghost predicate IdsBelowCounter()
      reads this`plans, this`nextId
    {
      forall i :: 0 <= i < |plans| ==> plans[i].id < nextId
    }

    /** The store as `LoadPlans`/`LoadTimezones` leave it, given what the files held. */
    constructor (loadedPlans: seq<PlanItem>, loadedTimezones: map<int, string>, timezonesFileExists: bool)
      ensures plans == loadedPlans && userTimezones == loadedTimezones
      ensures this.timezonesFileExists == timezonesFileExists && planSaves == 0
      ensures IdsBelowCounter()
    {
      plans := loadedPlans;
      userTimezones := loadedTimezones;
      this.timezonesFileExists := timezonesFileExists;
      planSaves := 0;
      nextId := MaxId(loadedPlans) + 1;
    }

    /** `Guid.NewGuid()`: an id never handed out before. */
    method NewId() returns (id: PlanId)
      modifies this`nextId
      ensures id == old(nextId) && nextId == id + 1
      ensures old(IdsBelowCounter()) ==> IdsBelowCounter() && forall i :: 0 <= i < |plans| ==> plans[i].id != id
    {
      id := nextId;
      nextId := nextId + 1;
    }

    method SetUserTimezone(chatId: int, timezoneId: string)
      modifies this`userTimezones, this`timezonesFileExists
      ensures userTimezones == old(userTimezones)[chatId := timezoneId]
      ensures GetUserTimezone(chatId) == timezoneId
      ensures forall c :: c != chatId ==> GetUserTimezone(c) == old(GetUserTimezone(c))
      ensures timezonesFileExists
    {
      userTimezones := userTimezones[chatId := timezoneId];
      timezonesFileExists := true;
    }

    function GetUserTimezone(chatId: int): string
      reads this`userTimezones
    {
      if chatId in userTimezones then userTimezones[chatId] else DefaultTimeZoneId
    }

    /** The chat's local time; `DateTime.Now` when its zone is unknown. */
    function GetUserCurrentTime(chatId: int, clock: Clock): DateTime
      reads this`userTimezones
    {
      match clock.zoneTime(GetUserTimezone(chatId))
      case Some(t) => t
      case None => clock.serverNow
    }

    /** Appends the plan and, for a recurring plan, its occurrences. `threw`
        is the source's `ArgumentOutOfRangeException` when the calendar runs
        out; the plans added before it stay in the list. */
    method AddPlan(plan: PlanItem) returns (threw: bool)
      modifies this`plans, this`nextId, this`planSaves
      ensures |plans| >= |old(plans)| + 1 && plans[..|old(plans)| + 1] == old(plans) + [plan]
      ensures forall k :: |old(plans)| < k < |plans| ==> fresh(plans[k])
      ensures plan.recurrence == RecurrenceType.None ==> plans == old(plans) + [plan] && !threw && nextId == old(nextId)
      ensures plan.recurrence != RecurrenceType.None && EndDate(plan).None? ==>
        plans == old(plans) + [plan] && threw && nextId == old(nextId)
      ensures plan.recurrence != RecurrenceType.None && EndDate(plan).Some? ==>
        var x := SeriesDates(plan.dateTime, EndDate(plan).value, plan.recurrence);
        threw == x.overflowed && nextId == old(nextId) + |x.dates|
        && Occurrences(plans[|old(plans)| + 1..], plan, x.dates, old(nextId))
      ensures planSaves == if threw then old(planSaves) else old(planSaves) + 1
      ensures old(IdsBelowCounter()) && plan.id < old(nextId) ==>
        IdsBelowCounter()
        && forall k, j :: 0 <= j < k < |plans| && k > |old(plans)| ==> plans[j].id != plans[k].id
    {
      plans := plans + [plan];
      assert old(IdsBelowCounter()) && plan.id < old(nextId) ==> IdsBelowCounter();
      threw := false;
      if plan.recurrence != RecurrenceType.None {
        threw := CreateRecurringPlans(plan);
      }

      if !threw {
        planSaves := planSaves + 1;
      }
    }

    method CreateRecurringPlans(original: PlanItem) returns (threw: bool)
      requires original.recurrence != RecurrenceType.None
      modifies this`plans, this`nextId
      ensures |plans| >= |old(plans)| && plans[..|old(plans)|] == old(plans)
      ensures forall k :: |old(plans)| <= k < |plans| ==> fresh(plans[k])
      ensures EndDate(original).None? ==> plans == old(plans) && threw && nextId == old(nextId)
      ensures EndDate(original).Some? ==>
        var x := SeriesDates(original.dateTime, EndDate(original).value, original.recurrence);
        threw == x.overflowed && nextId == old(nextId) + |x.dates|
        && Occurrences(plans[|old(plans)|..], original, x.dates, old(nextId))
      ensures old(IdsBelowCounter()) ==>
        IdsBelowCounter()
        && forall k, j :: 0 <= j < k < |plans| && k >= |old(plans)| ==> plans[j].id != plans[k].id
    {
      var endDate := EndDate(original);
      if endDate.None? {
        return true;
      }
      var dates;
      dates, threw := OccurrenceDates(original.dateTime, endDate.value, original.recurrence);
      AppendOccurrences(original, dates);
      if old(IdsBelowCounter()) {
        FreshAppend(old(plans), plans, old(nextId));
      }
    }

    /** Appends a copy of `original` for each date, in order, each with a fresh id. */
    method AppendOccurrences(original: PlanItem, dates: seq<DateTime>)
      modifies this`plans, this`nextId
      ensures |plans| == |old(plans)| + |dates| && plans[..|old(plans)|] == old(plans)
      ensures forall k :: |old(plans)| <= k < |plans| ==> fresh(plans[k])
      ensures nextId == old(nextId) + |dates|
      ensures Occurrences(plans[|old(plans)|..], original, dates, old(nextId))
      ensures forall k :: |old(plans)| <= k < |plans| ==> plans[k].id == old(nextId) + (k - |old(plans)|)
    {
      var k := 0;
      while k < |dates|
        invariant 0 <= k <= |dates|
        invariant |plans| == |old(plans)| + k && plans[..|old(plans)|] == old(plans)
        invariant forall j :: |old(plans)| <= j < |plans| ==> fresh(plans[j])
        invariant nextId == old(nextId) + k
        invariant Occurrences(plans[|old(plans)|..], original, dates[..k], old(nextId))
        invariant forall j :: |old(plans)| <= j < |plans| ==> plans[j].id == old(nextId) + (j - |old(plans)|)
      {
        var occurrence := NewOccurrence(original, dates[k]);
        assert plans[|old(plans)|..] + [occurrence] == (plans + [occurrence])[|old(plans)|..];
        assert dates[..k + 1] == dates[..k] + [dates[k]];
        plans := plans + [occurrence];
        k := k + 1;
      }
      assert dates[..k] == dates;
    }

    /** The copy of `original` on `date`, with a fresh id. */
    method NewOccurrence(original: PlanItem, date: DateTime) returns (occurrence: PlanItem)
      modifies this`nextId
      ensures fresh(occurrence) && IsOccurrence(occurrence, original, date, old(nextId))
      ensures nextId == old(nextId) + 1
    {
      var id := NewId();
      occurrence := new PlanItem(id, original.chatId, date);
      occurrence.description := original.description;
      occurrence.notificationMinutes := original.notificationMinutes;
      occurrence.recurrence := original.recurrence;
      occurrence.parentRecurrenceId := Some(original.id);
      occurrence.recurrenceEndDate := original.recurrenceEndDate;
    }

    /** Replaces the first plan with the same (Id, ChatId) by `plan`, in place. */
    method UpdatePlan(plan: PlanItem) returns (found: bool)
      modifies this`plans, this`planSaves
      ensures var i := FindPlan(old(plans), plan.id, plan.chatId);
        found == i.Some? && plans == if found then old(plans)[i.value := plan] else old(plans)
      ensures planSaves == if found then old(planSaves) + 1 else old(planSaves)
      ensures old(IdsBelowCounter()) ==> IdsBelowCounter()
    {
      var i := FindPlan(plans, plan.id, plan.chatId);
      found := i.Some?;
      if found {
        plans := plans[i.value := plan];
        planSaves := planSaves + 1;
      }
    }

    method DeletePlan(chatId: int, planId: PlanId) returns (deleted: bool)
      modifies this`plans, this`planSaves
      ensures deleted <==> exists j :: 0 <= j < |old(plans)| && HasKey(old(plans)[j], planId, chatId)
      ensures var i := FindPlan(old(plans), planId, chatId);
        plans == if i.Some? then old(plans)[..i.value] + old(plans)[i.value + 1..] else old(plans)
      ensures planSaves == if deleted then old(planSaves) + 1 else old(planSaves)
      ensures old(IdsBelowCounter()) ==> IdsBelowCounter()
    {
      var i := FindPlan(plans, planId, chatId);
      deleted := i.Some?;
      if deleted {
        plans := plans[..i.value] + plans[i.value + 1..];
        planSaves := planSaves + 1;
      }
    }

    /** Plans of the chat on the calendar date of `date`, by time of day. */
    function GetPlansForDate(chatId: int, date: DateTime): (r: seq<PlanItem>)
      reads this`plans, plans
      ensures forall i :: 0 <= i < |r| ==> r[i] in plans && OnDate(r[i], chatId, date)
      ensures forall i :: 0 <= i < |plans| && OnDate(plans[i], chatId, date) ==> plans[i] in r
      ensures multiset(r) == multiset(Keep(plans, PlansOnDate(plans, chatId, date)))
      ensures SortedBy(r, ByTimeOfDay) && SortedBy(r, ByDateTime)
      ensures forall v :: WithSortKey(r, ByTimeOfDay, v) == WithSortKey(Keep(plans, PlansOnDate(plans, chatId, date)), ByTimeOfDay, v)
    {
      var k := Keep(plans, PlansOnDate(plans, chatId, date));
      var r := SortBy(k, ByTimeOfDay);
      SameElements(r, k);
      SameDayByTime(r, chatId, date);
      r
    }

    /** Plans of the chat from `fromDate` on, by date and time. */
    function GetAllUpcomingPlans(chatId: int, fromDate: DateTime): (r: seq<PlanItem>)
      reads this`plans, plans
      ensures forall i :: 0 <= i < |r| ==> r[i] in plans && Upcoming(r[i], chatId, fromDate)
      ensures forall i :: 0 <= i < |plans| && Upcoming(plans[i], chatId, fromDate) ==> plans[i] in r
      ensures multiset(r) == multiset(Keep(plans, UpcomingPlans(plans, chatId, fromDate)))
      ensures SortedBy(r, ByDateTime)
      ensures forall v :: WithSortKey(r, ByDateTime, v) == WithSortKey(Keep(plans, UpcomingPlans(plans, chatId, fromDate)), ByDateTime, v)
    {
      var k := Keep(plans, UpcomingPlans(plans, chatId, fromDate));
      var r := SortBy(k, ByDateTime);
      SameElements(r, k);
      r
    }

    /** Plans of the chat whose lower-cased description contains the
        lower-cased query, by date and time, whatever their date. */
    function SearchPlans(chatId: int, query: string): (r: seq<PlanItem>)
      reads this`plans, plans
      ensures forall i :: 0 <= i < |r| ==> r[i] in plans && MatchesQuery(r[i], chatId, query)
      ensures forall i :: 0 <= i < |plans| && MatchesQuery(plans[i], chatId, query) ==> plans[i] in r
      ensures multiset(r) == multiset(Keep(plans, QueryMatches(plans, chatId, query)))
      ensures SortedBy(r, ByDateTime)
      ensures forall v :: WithSortKey(r, ByDateTime, v) == WithSortKey(Keep(plans, QueryMatches(plans, chatId, query)), ByDateTime, v)
    {
      var k := Keep(plans, QueryMatches(plans, chatId, query));
      var r := SortBy(k, ByDateTime);
      SameElements(r, k);
      r
    }

    /** The first ten distinct dates, ascending, of the chat's plans from `fromDate` on. */
    function GetDatesWithPlans(chatId: int, fromDate: DateTime): (r: seq<DateTime>)
      reads this`plans, plans
      ensures |r| <= 10 && StrictlyByKey(r, Ticks)
      ensures forall d :: d in r ==> HasUpcomingOn(plans, chatId, fromDate, d)
      ensures forall k :: 0 <= k < |plans| && Upcoming(plans[k], chatId, fromDate) ==>
        DateOf(plans[k].dateTime) in r || (|r| == 10 && forall i :: 0 <= i < 10 ==> Ticks(r[i]) < Ticks(DateOf(plans[k].dateTime)))
    {
      DatesWithPlans(plans, chatId, fromDate);
      Take(SortDates(Distinct(DatesOf(Keep(plans, UpcomingPlans(plans, chatId, fromDate))))), 10)
    }

    /** The chats that have at least one plan, each once, in order of first appearance. */
    function GetAllChatIds(): (r: seq<int>)
      reads this`plans, plans
      ensures forall i :: 0 <= i < |r| ==> exists k :: 0 <= k < |plans| && plans[k].chatId == r[i]
      ensures forall k :: 0 <= k < |plans| ==> plans[k].chatId in r
      ensures forall i, j :: 0 <= i < j < |r| ==> r[i] != r[j]
      ensures forall i, j :: 0 <= i < j < |r| ==> FirstIndex(ChatIdsOf(plans), r[i]) < FirstIndex(ChatIdsOf(plans), r[j])
    {
      var ids := ChatIdsOf(plans);
      var r := Distinct(ids);
      DistinctFirstOrder(ids);
      assert forall k :: 0 <= k < |plans| ==> plans[k].chatId == ids[k];
      r
    }

    /** Removes, one `Remove` call each, the objects listed in `toDelete`. */
    method RemoveEach(toDelete: seq<PlanItem>)
      modifies this`plans
      ensures plans == Seqs.RemoveEach(old(plans), toDelete)
    {
      var k := 0;
      while k < |toDelete|
        invariant 0 <= k <= |toDelete|
        invariant Seqs.RemoveEach(plans, toDelete[k..]) == Seqs.RemoveEach(old(plans), toDelete)
      {
        assert toDelete[k..][1..] == toDelete[k + 1..];
        plans := RemoveFirst(plans, toDelete[k]);
        k := k + 1;
      }
    }

    /** Removes every plan of the chat on the date of `date`; returns how many. */
    method DeletePlansByDate(chatId: int, date: DateTime) returns (count: nat)
      modifies this`plans, this`planSaves
      ensures plans == Drop(old(plans), PlansOnDate(old(plans), chatId, date))
      ensures count == |Keep(old(plans), PlansOnDate(old(plans), chatId, date))| == |old(plans)| - |plans|
      ensures forall i :: 0 <= i < |plans| ==> !OnDate(plans[i], chatId, date)
      ensures forall i :: 0 <= i < |old(plans)| && old(plans[i].chatId) != chatId ==> old(plans[i]) in plans
      ensures planSaves == old(planSaves) + 1
      ensures old(IdsBelowCounter()) ==> IdsBelowCounter()
    {
      var m := PlansOnDate(plans, chatId, date);
      var toDelete := Keep(plans, m);
      ghost var before := plans;
      RemoveEach(toDelete);
      RemoveEachOfKeep(before, m);
      KeepDropSizes(before, m);
      planSaves := planSaves + 1;
      count := |toDelete|;
    }

    /** Removes the chat's plans whose Id or ParentRecurrenceId is `parentId`; returns how many. */
    method DeleteRecurringPlans(chatId: int, parentId: PlanId) returns (count: nat)
      modifies this`plans, this`planSaves
      ensures plans == Drop(old(plans), SeriesPlans(old(plans), chatId, parentId))
      ensures count == |Keep(old(plans), SeriesPlans(old(plans), chatId, parentId))| == |old(plans)| - |plans|
      ensures forall i :: 0 <= i < |plans| ==> !InSeries(plans[i], chatId, parentId)
      ensures forall i :: 0 <= i < |old(plans)| && old(plans[i].chatId) != chatId ==> old(plans[i]) in plans
      ensures planSaves == old(planSaves) + 1
      ensures old(IdsBelowCounter()) ==> IdsBelowCounter()
    {
      var m := SeriesPlans(plans, chatId, parentId);
      var toDelete := Keep(plans, m);
      ghost var before := plans;
      RemoveEach(toDelete);
      RemoveEachOfKeep(before, m);
      KeepDropSizes(before, m);
      planSaves := planSaves + 1;
      count := |toDelete|;
    }

    /** For each id in turn, removes the chat's first plan with that id; returns how many. */
    method DeleteMultiplePlans(chatId: int, planIds: seq<PlanId>) returns (deleted: nat)
      modifies this`plans, this`planSaves
      ensures (plans, deleted) == old(DeleteIds(plans, chatId, planIds))
      ensures deleted <= |planIds|
      ensures forall i :: 0 <= i < |old(plans)| && old(plans[i].chatId) != chatId ==> old(plans[i]) in plans
      ensures planSaves == old(planSaves) + 1
      ensures old(IdsBelowCounter()) ==> IdsBelowCounter()
    {
      ghost var target := DeleteIds(plans, chatId, planIds);
      DeleteIdsRemoves(plans, chatId, planIds);
      var remaining := plans;
      deleted := 0;
      var k := 0;
      while k < |planIds|
        invariant 0 <= k <= |planIds|
        invariant target.0 == DeleteIds(remaining, chatId, planIds[k..]).0
        invariant target.1 == deleted + DeleteIds(remaining, chatId, planIds[k..]).1
        modifies {}
      {
        DeleteIdsStep(remaining, chatId, planIds, k);
        var i := FindPlan(remaining, planIds[k], chatId);
        if i.Some? {
          remaining := remaining[..i.value] + remaining[i.value + 1..];
          deleted := deleted + 1;
        }
        k := k + 1;
      }
      assert planIds[k..] == [];
      plans := remaining;
      assert forall i :: 0 <= i < |plans| ==> plans[i] in old(plans) by {
        forall i | 0 <= i < |plans| ensures plans[i] in old(plans) {
          assert plans[i] in multiset(plans);
        }
      }
      planSaves := planSaves + 1;
    }

    /** The plans whose reminder is due at `currentTime`, in store order. */
    method GetPendingNotifications(currentTime: DateTime) returns (r: seq<PlanItem>)
      ensures r == Keep(plans, PendingPlans(plans, currentTime))
      ensures forall i :: 0 <= i < |r| ==> r[i] in plans && IsPending(r[i], currentTime)
      ensures forall i :: 0 <= i < |plans| && IsPending(plans[i], currentTime) ==> plans[i] in r
    {
      var m := PendingPlans(plans, currentTime);
      r := [];
      var i := 0;
      while i < |plans|
        invariant 0 <= i <= |plans|
        invariant r == Keep(plans[..i], m)
      {
        var plan := plans[i];
        KeepTakeSnoc(plans, i, m);
        if !plan.isNotified {
          var timeDiff := Ticks(plan.dateTime) - Ticks(currentTime);
          if timeDiff <= plan.notificationMinutes * MsPerMinute && timeDiff >= 0 {
            r := r + [plan];
          }
        }
        i := i + 1;
      }
      assert plans[..i] == plans;
    }

    /** Sets `IsNotified` on the first plan with that id, whichever its chat. */
    method MarkAsNotified(planId: PlanId)
      modifies plans`isNotified, this`planSaves
      ensures var i := FindId(plans, planId);
        (i.Some? ==>
           plans[i.value].isNotified
           && (forall k :: 0 <= k < |plans| && plans[k] != plans[i.value] ==> unchanged(plans[k])))
        && (i.None? ==> unchanged(plans))
      ensures var i := FindId(plans, planId);
        i.Some? ==> var p := plans[i.value];
          p.chatId == old(p.chatId) && p.dateTime == old(p.dateTime)
          && p.description == old(p.description) && p.recurrence == old(p.recurrence)
          && p.notificationMinutes == old(p.notificationMinutes) && p.recurrenceEndDate == old(p.recurrenceEndDate)
          && p.parentRecurrenceId == old(p.parentRecurrenceId)
      ensures var i := FindId(plans, planId);
        i.Some? && old(plans[i.value].isNotified) ==> unchanged(plans)
      ensures planSaves == if FindId(plans, planId).Some? then old(planSaves) + 1 else old(planSaves)
    {
      var i := FindId(plans, planId);
      if i.Some? {
        plans[i.value].isNotified := true;
        planSaves := planSaves + 1;
      }
    }
  }

  /** Some plan of the chat from `fromDate` on falls on day `d`. */
  predicate HasUpcomingOn(plans: seq<PlanItem>, chatId: int, fromDate: DateTime, d: DateTime)
    reads plans
  {
    exists k :: 0 <= k < |plans| && Upcoming(plans[k], chatId, fromDate) && DateOf(plans[k].dateTime) == d
  }

  /** `Distinct().OrderBy(d => d).Take(n)` keeps the `n` earliest distinct dates. */
  lemma FirstDistinctDates(dates: seq<DateTime>, n: nat)
    ensures var r := Take(SortDates(Distinct(dates)), n);
      |r| <= n && StrictlyByKey(r, Ticks) && (forall x :: x in r ==> x in dates) && KeptOrBeyond(dates, r, n, Ticks)
  {
    forall a: DateTime, b: DateTime | Ticks(a) == Ticks(b) ensures a == b {
      TicksOrder(a, b);
    }
    FirstDistinctByKey(dates, n, Ticks);
  }

  /** The dates of the upcoming plans are exactly those of the store's upcoming plans. */
  lemma UpcomingDates(plans: seq<PlanItem>, chatId: int, fromDate: DateTime)
    ensures var dates := DatesOf(Keep(plans, UpcomingPlans(plans, chatId, fromDate)));
      && (forall d :: d in dates ==> HasUpcomingOn(plans, chatId, fromDate, d))
      && (forall k :: 0 <= k < |plans| && Upcoming(plans[k], chatId, fromDate) ==> DateOf(plans[k].dateTime) in dates)
  {
    var upcoming := Keep(plans, UpcomingPlans(plans, chatId, fromDate));
    var dates := DatesOf(upcoming);
    forall d | d in dates ensures HasUpcomingOn(plans, chatId, fromDate, d) {
      var i :| 0 <= i < |dates| && dates[i] == d;
      var k :| 0 <= k < |plans| && plans[k] == upcoming[i];
    }
    forall k | 0 <= k < |plans| && Upcoming(plans[k], chatId, fromDate) ensures DateOf(plans[k].dateTime) in dates {
      var j :| 0 <= j < |upcoming| && upcoming[j] == plans[k];
      assert dates[j] == DateOf(plans[k].dateTime);
    }
  }

  /** The facts `GetDatesWithPlans` promises, about the store's plan list. */
  lemma DatesWithPlans(plans: seq<PlanItem>, chatId: int, fromDate: DateTime)
    ensures var r := Take(SortDates(Distinct(DatesOf(Keep(plans, UpcomingPlans(plans, chatId, fromDate))))), 10);
      && |r| <= 10 && StrictlyByKey(r, Ticks)
      && (forall d :: d in r ==> HasUpcomingOn(plans, chatId, fromDate, d))
      && (forall k :: 0 <= k < |plans| && Upcoming(plans[k], chatId, fromDate) ==>
            DateOf(plans[k].dateTime) in r || (|r| == 10 && forall i :: 0 <= i < 10 ==> Ticks(r[i]) < Ticks(DateOf(plans[k].dateTime))))
  {
    var dates := DatesOf(Keep(plans, UpcomingPlans(plans, chatId, fromDate)));
    FirstDistinctDates(dates, 10);
    UpcomingDates(plans, chatId, fromDate);
  }
}
