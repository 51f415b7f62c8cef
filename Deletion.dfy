/** `DeleteHandler`: the listing of upcoming plans and the three ways of
    deleting from it (the numbers typed, every plan of one date, every plan
    of one recurring series). The session's `TempValue` says which kind of
    answer the next message is. */
module Deletion {
  import opened Wrappers
  import opened Text
  import opened Calendar
  import opened Models
  import opened Keyboard
  import opened Planner
  import opened Messages
  import opened Seqs

  /** How many plans the delete listing keeps and shows. */
  const DeleteListLength: nat := 20
  /** How many series the series listing shows. */
  const SeriesListLength: nat := 10
  /** The `TempValue` marks of the two follow-up questions. */
  const ByDateMode: string := "delete_by_date"
  const RecurringMode: string := "delete_recurring"
  /** The characters a list of numbers may be separated by. */
  const NumberSeparators: set<char> := {' ', ',', ';'}

  // ---------------------------------------------------------------------
  // Recurring series in a listing

  /** The id a series goes by: the original's, which an original carries
      as its own id and an occurrence as its parent. */
  function SeriesKey(p: PlanItem): (k: PlanId)
    reads p
    ensures p.parentRecurrenceId.Some? ==> k == p.parentRecurrenceId.value
    ensures p.parentRecurrenceId.None? ==> k == p.id
  {
    match p.parentRecurrenceId
    case Some(parent) => parent
    case None => p.id
  }

  /** `p` is part of a series as far as `list` shows: it is an occurrence,
      or some plan of the list is an occurrence of it. */
  predicate Recurring(p: PlanItem, list: seq<PlanItem>)
    reads p, list
  {
    p.parentRecurrenceId.Some? || exists k :: 0 <= k < |list| && list[k].parentRecurrenceId == Some(p.id)
  }

  /** The plans of `s` that are `Recurring` with respect to `list`, in order. */
  function RecurringOf(s: seq<PlanItem>, list: seq<PlanItem>): (r: seq<PlanItem>)
    reads s, list
    ensures forall i :: 0 <= i < |r| ==> r[i] in s && Recurring(r[i], list)
    ensures forall k :: 0 <= k < |s| && Recurring(s[k], list) ==> s[k] in r
    decreases |s|
  {
    if |s| == 0 then []
    else
      var rest := RecurringOf(s[1..], list);
      assert forall k :: 1 <= k < |s| ==> s[k] == s[1..][k - 1];
      if Recurring(s[0], list) then [s[0]] + rest else rest
  }

  /** The series the plans of `s` belong to. */
  function SeriesKeys(s: seq<PlanItem>): (ks: set<PlanId>)
    reads s
    decreases |s|
  {
    if |s| == 0 then {} else {SeriesKey(s[0])} + SeriesKeys(s[1..])
  }

  lemma {:induction false} KeyInSeriesKeys(s: seq<PlanItem>, k: nat)
    requires k < |s|
    ensures SeriesKey(s[k]) in SeriesKeys(s)
    decreases k
  {
    if k > 0 {
      assert s[k] == s[1..][k - 1];
      KeyInSeriesKeys(s[1..], k - 1);
    }
  }

  /** No plan before `s[k]` is of its series. */
  predicate OpensSeries(s: seq<PlanItem>, k: nat)
    requires k < |s|
    reads s
  {
    forall j :: 0 <= j < k ==> SeriesKey(s[j]) != SeriesKey(s[k])
  }

  /** `GroupBy(SeriesKey).Select(g => g.First())` over `s`, leaving out the
      series already in `seen`: one plan per series, the first plan of
      each, in the order the series first appear. */
  function FirstPerSeries(s: seq<PlanItem>, seen: set<PlanId>): (r: seq<PlanItem>)
    reads s
    ensures forall i :: 0 <= i < |r| ==> r[i] in s && SeriesKey(r[i]) !in seen
    ensures forall i, j :: 0 <= i < j < |r| ==> SeriesKey(r[i]) != SeriesKey(r[j])
    ensures SeriesKeys(r) == SeriesKeys(s) - seen
    ensures forall k :: 0 <= k < |s| && SeriesKey(s[k]) !in seen && OpensSeries(s, k) ==> s[k] in r
    decreases |s|
  {
    if |s| == 0 then []
    else
      var key := SeriesKey(s[0]);
      assert forall k :: 1 <= k < |s| ==> s[k] == s[1..][k - 1];
      if key in seen then FirstPerSeries(s[1..], seen)
      else
        var rest := FirstPerSeries(s[1..], seen + {key});
        var r := [s[0]] + rest;
        assert r[0] == s[0] && r[1..] == rest;
        r
  }

  /** Where series `key` starts in `s`: the index of its first plan, or
      `|s|` when no plan of `s` belongs to it. */
  function SeriesStart(s: seq<PlanItem>, key: PlanId): (k: nat)
    reads s
    ensures k <= |s|
    ensures k < |s| ==> SeriesKey(s[k]) == key
    ensures forall j :: 0 <= j < k ==> SeriesKey(s[j]) != key
    decreases |s|
  {
    if |s| == 0 then 0
    else if SeriesKey(s[0]) == key then 0
    else
      assert forall j :: 1 <= j < |s| ==> s[j] == s[1..][j - 1];
      1 + SeriesStart(s[1..], key)
  }

  /** A series key that some plan of `s` has starts inside `s`. */
  lemma SeriesStartInside(s: seq<PlanItem>, k: nat)
    requires k < |s|
    ensures SeriesStart(s, SeriesKey(s[k])) <= k
  {
  }

  lemma {:induction false} KeyAtIndex(s: seq<PlanItem>, key: PlanId) returns (j: nat)
    requires key in SeriesKeys(s)
    ensures j < |s| && SeriesKey(s[j]) == key
    decreases |s|
  {
    if SeriesKey(s[0]) == key {
      j := 0;
    } else {
      var j' := KeyAtIndex(s[1..], key);
      j := j' + 1;
    }
  }

  /** Each plan of `r` is the plan that starts its series in `s`. */
  predicate StartersOf(s: seq<PlanItem>, r: seq<PlanItem>)
    reads s, r
  {
    forall i :: 0 <= i < |r| ==>
      SeriesStart(s, SeriesKey(r[i])) < |s| && s[SeriesStart(s, SeriesKey(r[i]))] == r[i]
  }

  /** The series of `r` are in the order they start in `s`. */
  predicate InStartOrder(s: seq<PlanItem>, r: seq<PlanItem>)
    reads s, r
  {
    forall i, j :: 0 <= i < j < |r| ==> SeriesStart(s, SeriesKey(r[i])) < SeriesStart(s, SeriesKey(r[j]))
  }

  /** Plans of other series than the first plan's start one place later
      in `s` than in `s[1..]`. */
  lemma ShiftStarts(s: seq<PlanItem>, rest: seq<PlanItem>)
    requires |s| > 0
    requires forall i :: 0 <= i < |rest| ==> SeriesKey(rest[i]) != SeriesKey(s[0])
    requires StartersOf(s[1..], rest) && InStartOrder(s[1..], rest)
    ensures StartersOf(s, rest) && InStartOrder(s, rest)
    ensures forall i :: 0 <= i < |rest| ==> 0 < SeriesStart(s, SeriesKey(rest[i]))
  {
    var t := s[1..];
    forall i | 0 <= i < |rest|
      ensures SeriesStart(s, SeriesKey(rest[i])) == 1 + SeriesStart(t, SeriesKey(rest[i]))
    {
    }
  }

  /** The first plan of `s`, put in front, starts its series before the rest. */
  lemma ConsStarts(s: seq<PlanItem>, rest: seq<PlanItem>)
    requires |s| > 0
    requires StartersOf(s, rest) && InStartOrder(s, rest)
    requires forall i :: 0 <= i < |rest| ==> 0 < SeriesStart(s, SeriesKey(rest[i]))
    ensures StartersOf(s, [s[0]] + rest) && InStartOrder(s, [s[0]] + rest)
  {
    var r := [s[0]] + rest;
    forall i | 0 <= i < |r|
      ensures SeriesStart(s, SeriesKey(r[i])) < |s| && s[SeriesStart(s, SeriesKey(r[i]))] == r[i]
    {
      if i > 0 {
        assert r[i] == rest[i - 1];
      }
    }
    var first := SeriesStart(s, SeriesKey(s[0]));
    assert first == 0;
    forall i, j | 0 <= i < j < |r|
      ensures SeriesStart(s, SeriesKey(r[i])) < SeriesStart(s, SeriesKey(r[j]))
    {
      var b := SeriesStart(s, SeriesKey(rest[j - 1]));
      assert r[j] == rest[j - 1];
      if i > 0 {
        var a := SeriesStart(s, SeriesKey(rest[i - 1]));
        assert r[i] == rest[i - 1];
        assert a < b;
      } else {
        assert r[i] == s[0];
        assert first < b;
      }
    }
  }

  /** Every recurring series of `list` that starts before the last series
      of `r` is in `r`. */
  predicate EarlierSeriesIn(list: seq<PlanItem>, r: seq<PlanItem>)
    requires |r| > 0
    reads list, r
  {
    forall k :: 0 <= k < |list| && Recurring(list[k], list)
      && SeriesStart(list, SeriesKey(list[k])) < SeriesStart(list, SeriesKey(r[|r| - 1]))
      ==> SeriesKey(list[k]) in SeriesKeys(r)
  }

  /** `FirstPerSeries` takes each series by the plan that starts it, and
      lists the series in the order they start. */
  lemma {:induction false} FirstPerSeriesStarts(s: seq<PlanItem>, seen: set<PlanId>)
    ensures StartersOf(s, FirstPerSeries(s, seen))
    ensures InStartOrder(s, FirstPerSeries(s, seen))
    decreases |s|
  {
    if |s| > 0 {
      var key := SeriesKey(s[0]);
      var seen' := if key in seen then seen else seen + {key};
      FirstPerSeriesStarts(s[1..], seen');
      var rest := FirstPerSeries(s[1..], seen');
      ShiftStarts(s, rest);
      if key !in seen {
        ConsStarts(s, rest);
        assert FirstPerSeries(s, seen) == [s[0]] + rest;
      }
    }
  }

  /** A plan of `list` in the same series as a recurring plan of `list` is
      recurring too. */
  lemma SameSeriesRecurring(p: PlanItem, q: PlanItem, list: seq<PlanItem>)
    requires p in list && Recurring(p, list) && SeriesKey(q) == SeriesKey(p)
    ensures Recurring(q, list)
  {
    if q.parentRecurrenceId.None? && p.parentRecurrenceId.Some? {
      var k :| 0 <= k < |list| && list[k] == p;
      assert list[k].parentRecurrenceId == Some(q.id);
    }
  }

  /** All plans of series `key` in `s` are recurring. */
  predicate SeriesRecurring(s: seq<PlanItem>, list: seq<PlanItem>, key: PlanId)
    reads s, list
  {
    forall k :: 0 <= k < |s| && SeriesKey(s[k]) == key ==> Recurring(s[k], list)
  }

  /** Filtering out non-recurring plans keeps the plan that starts a
      recurring series. */
  lemma {:induction false} RecurringStart(s: seq<PlanItem>, list: seq<PlanItem>, key: PlanId)
    requires SeriesRecurring(s, list, key) && SeriesStart(s, key) < |s|
    ensures var rec := RecurringOf(s, list);
      SeriesStart(rec, key) < |rec| && rec[SeriesStart(rec, key)] == s[SeriesStart(s, key)]
    decreases |s|
  {
    var t := s[1..];
    var rt := RecurringOf(t, list);
    var rec := RecurringOf(s, list);
    assert forall x :: 0 <= x < |t| ==> s[x + 1] == t[x];
    if SeriesKey(s[0]) == key {
      assert rec == [s[0]] + rt;
    } else {
      RecurringStart(t, list, key);
      if Recurring(s[0], list) {
        assert rec == [s[0]] + rt;
        assert rec[1..] == rt;
      }
    }
  }

  /** Filtering out non-recurring plans keeps the order in which two
      recurring series start. */
  lemma {:induction false} RecurringStartOrder(s: seq<PlanItem>, list: seq<PlanItem>, k1: PlanId, k2: PlanId)
    requires SeriesRecurring(s, list, k1) && SeriesRecurring(s, list, k2)
    requires k1 != k2 && SeriesStart(s, k1) < |s|
    ensures var rec := RecurringOf(s, list);
      SeriesStart(s, k1) < SeriesStart(s, k2) <==> SeriesStart(rec, k1) < SeriesStart(rec, k2)
    decreases |s|
  {
    var t := s[1..];
    var rt := RecurringOf(t, list);
    var rec := RecurringOf(s, list);
    assert forall x :: 0 <= x < |t| ==> s[x + 1] == t[x];
    var key := SeriesKey(s[0]);
    if key == k1 || key == k2 {
      assert rec == [s[0]] + rt;
      assert rec[1..] == rt;
    } else {
      RecurringStartOrder(t, list, k1, k2);
      if Recurring(s[0], list) {
        assert rec == [s[0]] + rt;
        assert rec[1..] == rt;
      }
    }
  }

  /** The listed series are the first ten to start in `list`, each shown by
      the plan that starts it, in the order they start. */
  lemma SeriesListStarts(list: seq<PlanItem>)
    ensures var r := Take(FirstPerSeries(RecurringOf(list, list), {}), SeriesListLength);
      StartersOf(list, r) && InStartOrder(list, r) && (|r| == SeriesListLength ==> EarlierSeriesIn(list, r))
  {
    ListedStarters(list);
    ListedInOrder(list);
    ListedEarlier(list);
  }

  /** Each listed plan starts its series in `list`. */
  lemma ListedStarters(list: seq<PlanItem>)
    ensures StartersOf(list, Take(FirstPerSeries(RecurringOf(list, list), {}), SeriesListLength))
  {
    var rec := RecurringOf(list, list);
    var firsts := FirstPerSeries(rec, {});
    var r := Take(firsts, SeriesListLength);
    FirstPerSeriesStarts(rec, {});
    assert forall i :: 0 <= i < |r| ==> r[i] == firsts[i];
    ListedSeriesRecur(list);
    forall i | 0 <= i < |r|
      ensures list[SeriesStart(list, SeriesKey(r[i]))] == r[i]
    {
      RecurringStart(list, list, SeriesKey(r[i]));
    }
  }

  /** The listed series come in the order they start in `list`. */
  lemma ListedInOrder(list: seq<PlanItem>)
    ensures InStartOrder(list, Take(FirstPerSeries(RecurringOf(list, list), {}), SeriesListLength))
  {
    var rec := RecurringOf(list, list);
    var firsts := FirstPerSeries(rec, {});
    var r := Take(firsts, SeriesListLength);
    FirstPerSeriesStarts(rec, {});
    assert forall i :: 0 <= i < |r| ==> r[i] == firsts[i];
    ListedSeriesRecur(list);
    forall i, j | 0 <= i < j < |r|
      ensures SeriesStart(list, SeriesKey(r[i])) < SeriesStart(list, SeriesKey(r[j]))
    {
      RecurringStartOrder(list, list, SeriesKey(r[i]), SeriesKey(r[j]));
    }
  }

  /** Every plan of a listed series recurs, and the series starts inside
      `list`. */
  lemma ListedSeriesRecur(list: seq<PlanItem>)
    ensures var r := Take(FirstPerSeries(RecurringOf(list, list), {}), SeriesListLength);
      forall i :: 0 <= i < |r| ==>
        SeriesRecurring(list, list, SeriesKey(r[i])) && SeriesStart(list, SeriesKey(r[i])) < |list|
  {
    var rec := RecurringOf(list, list);
    var firsts := FirstPerSeries(rec, {});
    var r := Take(firsts, SeriesListLength);
    FirstPerSeriesStarts(rec, {});
    assert forall i :: 0 <= i < |r| ==> r[i] == firsts[i];
    forall i | 0 <= i < |r|
      ensures SeriesRecurring(list, list, SeriesKey(r[i]))
      ensures SeriesStart(list, SeriesKey(r[i])) < |list|
    {
      forall k | 0 <= k < |list| && SeriesKey(list[k]) == SeriesKey(r[i]) ensures Recurring(list[k], list) {
        SameSeriesRecurring(r[i], list[k], list);
      }
      var m :| 0 <= m < |list| && list[m] == r[i];
      SeriesStartInside(list, m);
    }
  }

  /** With ten series listed, every recurring series that starts before the
      last listed one is listed. */
  lemma ListedEarlier(list: seq<PlanItem>)
    ensures var r := Take(FirstPerSeries(RecurringOf(list, list), {}), SeriesListLength);
      |r| == SeriesListLength ==> EarlierSeriesIn(list, r)
  {
    var rec := RecurringOf(list, list);
    var firsts := FirstPerSeries(rec, {});
    var r := Take(firsts, SeriesListLength);
    if |r| == SeriesListLength {
      FirstPerSeriesStarts(rec, {});
      assert forall i :: 0 <= i < |r| ==> r[i] == firsts[i];
      ListedSeriesRecur(list);
      var last := SeriesKey(r[|r| - 1]);
      forall k | 0 <= k < |list| && Recurring(list[k], list)
        && SeriesStart(list, SeriesKey(list[k])) < SeriesStart(list, last)
        ensures SeriesKey(list[k]) in SeriesKeys(r)
      {
        var key := SeriesKey(list[k]);
        forall k' | 0 <= k' < |list| && SeriesKey(list[k']) == key ensures Recurring(list[k'], list) {
          SameSeriesRecurring(list[k], list[k'], list);
        }
        SeriesStartInside(list, k);
        RecurringStartOrder(list, list, key, last);
        var m :| 0 <= m < |rec| && rec[m] == list[k];
        KeyInSeriesKeys(rec, m);
        var j := KeyAtIndex(firsts, key);
        if j >= |r| - 1 {
          assert false;
        }
        KeyInSeriesKeys(r, j);
      }
    }
  }

  /** The series the "all recurring" answer lists: one plan per series
      among the recurring plans of the delete listing, each shown by the
      plan that starts its series, in the order the series start; the
      first ten series, and every series of the listing when there are
      fewer. */
  function SeriesList(list: seq<PlanItem>): (r: seq<PlanItem>)
    reads list
    ensures |r| <= SeriesListLength
    ensures forall i :: 0 <= i < |r| ==> r[i] in list && Recurring(r[i], list)
    ensures forall i, j :: 0 <= i < j < |r| ==> SeriesKey(r[i]) != SeriesKey(r[j])
    ensures |r| < SeriesListLength ==>
      forall k :: 0 <= k < |list| && Recurring(list[k], list) ==> SeriesKey(list[k]) in SeriesKeys(r)
    ensures StartersOf(list, r) && InStartOrder(list, r)
    ensures |r| == SeriesListLength ==> EarlierSeriesIn(list, r)
  {
    SeriesListStarts(list);
    var recurring := RecurringOf(list, list);
    var firsts := FirstPerSeries(recurring, {});
    var r := Take(firsts, SeriesListLength);
    assert forall i :: 0 <= i < |r| ==> r[i] == firsts[i];
    assert |r| < SeriesListLength ==> r == firsts;
    EverySeriesFirst(list);
    r
  }

  /** Every recurring plan of the listing has its series among the firsts. */
  lemma EverySeriesFirst(list: seq<PlanItem>)
    ensures var firsts := FirstPerSeries(RecurringOf(list, list), {});
      forall k :: 0 <= k < |list| && Recurring(list[k], list) ==> SeriesKey(list[k]) in SeriesKeys(firsts)
  {
    var recurring := RecurringOf(list, list);
    forall k | 0 <= k < |list| && Recurring(list[k], list)
      ensures SeriesKey(list[k]) in SeriesKeys(FirstPerSeries(recurring, {}))
    {
      var m :| 0 <= m < |recurring| && recurring[m] == list[k];
      KeyInSeriesKeys(recurring, m);
    }
  }

  // ---------------------------------------------------------------------
  // Plan numbers typed as a list

  /** `int.TryParse(s, out n) ? n : 0`. */
  function TokenNumber(s: string): (n: int)
    ensures n != 0 ==> ParseInt32(s) == Some(n)
  {
    match ParseInt32(s)
    case Some(n) => n
    case None => 0
  }

  function TokenNumbers(ts: seq<string>): (r: seq<int>)
    ensures |r| == |ts| && forall i :: 0 <= i < |ts| ==> r[i] == TokenNumber(ts[i])
  {
    if |ts| == 0 then [] else [TokenNumber(ts[0])] + TokenNumbers(ts[1..])
  }

  /** `Where(n => n > 0 && n <= count)`. */
  function InRange(ns: seq<int>, count: nat): (r: seq<nat>)
    ensures forall i :: 0 <= i < |r| ==> 1 <= r[i] <= count && r[i] as int in ns
    ensures forall k :: 0 <= k < |ns| && 1 <= ns[k] <= count ==> ns[k] in r
    decreases |ns|
  {
    if |ns| == 0 then []
    else
      var rest := InRange(ns[1..], count);
      assert forall k :: 1 <= k < |ns| ==> ns[k] == ns[1..][k - 1];
      if 1 <= ns[0] <= count then var n: nat := ns[0]; [n] + rest else rest
  }

  /** The filter works piece by piece: the numbers kept from a list are
      those kept from its first part followed by those kept from the rest,
      so, with `InRangeOne`, they come in the order typed, each as often as
      typed. */
  lemma {:induction false} InRangeAppend(a: seq<int>, b: seq<int>, count: nat)
    ensures InRange(a + b, count) == InRange(a, count) + InRange(b, count)
    decreases |a|
  {
    if |a| == 0 {
      assert a + b == b;
    } else {
      assert (a + b)[0] == a[0];
      assert (a + b)[1..] == a[1..] + b;
      InRangeAppend(a[1..], b, count);
    }
  }

  /** A single number is kept exactly when it is from 1 to `count`. */
  lemma InRangeOne(n: int, count: nat)
    ensures InRange([n], count) == if 1 <= n <= count then [n as nat] else []
  {
    assert [n][1..] == [];
  }

  /** The positions a typed list of numbers picks from a listing of `count`
      plans: the words between separators, each read as a number, those from
      1 to `count`, each once, in the order first typed. */
  function SelectedNumbers(text: string, count: nat): (r: seq<nat>)
    ensures forall i :: 0 <= i < |r| ==> 1 <= r[i] <= count
    ensures forall i, j :: 0 <= i < j < |r| ==> r[i] != r[j]
    ensures var words := Split(text, NumberSeparators);
      forall i :: 0 <= i < |r| ==> r[i] as int in TokenNumbers(words)
    ensures var words := Split(text, NumberSeparators);
      forall k :: 0 <= k < |words| && ParseInt32(words[k]).Some? && 1 <= ParseInt32(words[k]).value <= count ==>
        ParseInt32(words[k]).value in r
  {
    Distinct(InRange(TokenNumbers(Split(text, NumberSeparators)), count))
  }

  /** The words of a list of numbers typed with single spaces. */
  function Spaced(ns: seq<nat>): string {
    if |ns| == 0 then "" else if |ns| == 1 then NatToString(ns[0]) else NatToString(ns[0]) + " " + Spaced(ns[1..])
  }

  /** A run of digits ends at the first separator. */
  lemma {:induction false} DigitsRun(w: string, rest: string)
    requires AllDigits(w)
    requires |rest| > 0 ==> rest[0] in NumberSeparators
    ensures RunLength(w + rest, NumberSeparators) == |w|
    decreases |w|
  {
    if |w| > 0 {
      assert (w + rest)[1..] == w[1..] + rest;
      DigitsRun(w[1..], rest);
    } else {
      assert w + rest == rest;
    }
  }

  /** Splitting numbers typed with spaces gives back their numerals. */
  lemma {:induction false} SplitSpaced(ns: seq<nat>)
    ensures var words := Split(Spaced(ns), NumberSeparators);
      |words| == |ns| && forall i :: 0 <= i < |ns| ==> words[i] == NatToString(ns[i])
    decreases |ns|
  {
    if |ns| == 1 {
      var w := NatToString(ns[0]);
      DigitsRun(w, "");
      assert w + "" == w;
      assert w[|w|..] == "";
    } else if |ns| > 1 {
      var w := NatToString(ns[0]);
      var tail := Spaced(ns[1..]);
      var s := w + " " + tail;
      DigitsRun(w, " " + tail);
      assert s == w + (" " + tail);
      assert s[|w|..] == " " + tail;
      assert (" " + tail)[1..] == tail;
      SplitSpaced(ns[1..]);
      assert Split(s, NumberSeparators) == [w] + Split(tail, NumberSeparators);
    }
  }

  /** Numbers all in range pass the range filter unchanged. */
  lemma {:induction false} InRangeAll(ns: seq<int>, count: nat)
    requires forall i :: 0 <= i < |ns| ==> 1 <= ns[i] <= count
    ensures InRange(ns, count) == ns
    decreases |ns|
  {
    if |ns| > 0 {
      assert forall i :: 0 <= i < |ns| - 1 ==> ns[1..][i] == ns[i + 1];
      InRangeAll(ns[1..], count);
      assert ns == [ns[0]] + ns[1..];
      InRangeAppend([ns[0]], ns[1..], count);
      InRangeOne(ns[0], count);
    }
  }

  /** Typing, with spaces, numbers each shown in a listing of `count` plans
      picks exactly those positions in the order typed, repeats dropped. */
  lemma TypedNumbers(ns: seq<nat>, count: nat)
    requires count <= Int32Max
    requires forall i :: 0 <= i < |ns| ==> 1 <= ns[i] <= count
    ensures SelectedNumbers(Spaced(ns), count) == Distinct(ns)
  {
    var words := Split(Spaced(ns), NumberSeparators);
    SplitSpaced(ns);
    forall i | 0 <= i < |ns| ensures TokenNumbers(words)[i] == ns[i] {
      ParseNatToString(ns[i]);
    }
    assert TokenNumbers(words) == ns;
    InRangeAll(ns, count);
  }

  /** `numbers.Select(n => list[n - 1].Id)`. */
  function IdsAt(list: seq<PlanItem>, numbers: seq<nat>): (r: seq<PlanId>)
    requires forall i :: 0 <= i < |numbers| ==> 1 <= numbers[i] <= |list|
    reads list
    ensures |r| == |numbers| && forall i :: 0 <= i < |numbers| ==> r[i] == list[numbers[i] - 1].id
  {
    if |numbers| == 0 then [] else [list[numbers[0] - 1].id] + IdsAt(list, numbers[1..])
  }

  // ---------------------------------------------------------------------
  // The dialogue

  /** Neither the store's list nor its save count changed. */
  twostate predicate StoreKept(store: PlannerService)
    reads store
  {
    store.plans == old(store.plans) && store.planSaves == old(store.planSaves)
  }

  /** The session's state, list and mark are as they were. */
  twostate predicate SessionKept(session: UserSession)
    reads session
  {
    && session.state == old(session.state) && session.tempPlansList == old(session.tempPlansList)
    && session.tempValue == old(session.tempValue)
  }

  /** What `StartDelete` did with the chat's upcoming plans `plans`: nothing
      but a message when there are none, otherwise the first twenty are kept
      in the session and shown, numbered, under the total. */
  twostate predicate ListedForDelete(bot: BotClient, chatId: int, session: UserSession, plans: seq<PlanItem>)
    reads bot, session, plans
  {
    if |plans| == 0 then
      && SessionKept(session)
      && bot.sent == old(bot.sent) + [Outgoing(chatId, NothingToDelete, Some(MainKeyboard))]
    else
      && session.tempPlansList == Take(plans, DeleteListLength)
      && session.state == UserState.WaitingForDeleteConfirmation
      && session.tempValue == old(session.tempValue)
      && bot.sent == old(bot.sent)
           + [Outgoing(chatId, DeleteList(|plans|, old(Views(Take(plans, DeleteListLength)))), Some(DeleteOptionsKeyboard))]
  }

  /** What the "all recurring" button did with the listing `list`: with no
      series in it the dialogue ends, otherwise the series list replaces the
      listing and the next answer is a series number. */
  twostate predicate ListedSeries(bot: BotClient, chatId: int, session: UserSession, list: seq<PlanItem>)
    reads bot, session, list
  {
    var series := old(SeriesList(list));
    if |series| == 0 then
      && session.state == UserState.None && session.tempPlansList == list
      && session.tempValue == old(session.tempValue)
      && bot.sent == old(bot.sent) + [Outgoing(chatId, NoRecurringPlans, Some(MainKeyboard))]
    else
      && session.state == old(session.state) && session.tempPlansList == series
      && session.tempValue == RecurringMode
      && bot.sent == old(bot.sent) + [Outgoing(chatId, ChooseSeries(old(Views(SeriesList(list)))), Option.None)]
  }

  /** The answer `text` to "enter a date", the store having held `before`:
      a date removes the chat's plans on that day and ends the dialogue. */
  twostate predicate AnsweredDate(bot: BotClient, chatId: int, text: string, session: UserSession,
                                  store: PlannerService, list: seq<PlanItem>, before: seq<PlanItem>)
    reads bot, session, store, list, before
  {
    match ParseDate(text)
    case Some(d) =>
      var gone := PlansOnDate(before, chatId, d);
      && store.plans == Drop(before, gone) && store.planSaves == old(store.planSaves) + 1
      && session.state == UserState.None && session.tempValue == "" && session.tempPlansList == list
      && bot.sent == old(bot.sent) + [Outgoing(chatId, DeletedOnDate(|Keep(before, gone)|, d), Some(MainKeyboard))]
    case None =>
      && StoreKept(store) && SessionKept(session)
      && bot.sent == old(bot.sent) + [Outgoing(chatId, BadDeleteDate, Option.None)]
  }

  /** The answer `text` to the series list `list`: a listed number removes
      every plan of that series in the chat and ends the dialogue. */
  twostate predicate AnsweredSeries(bot: BotClient, chatId: int, text: string, session: UserSession,
                                    store: PlannerService, list: seq<PlanItem>, before: seq<PlanItem>)
    reads bot, session, store, list, before
  {
    match PlanNumber(text, |list|)
    case Some(n) =>
      var plan := list[n - 1];
      var gone := SeriesPlans(before, chatId, SeriesKey(plan));
      && store.plans == Drop(before, gone) && store.planSaves == old(store.planSaves) + 1
      && session.state == UserState.None && session.tempValue == "" && session.tempPlansList == list
      && bot.sent == old(bot.sent) + [Outgoing(chatId, DeletedSeries(|Keep(before, gone)|, plan.description), Some(MainKeyboard))]
    case None =>
      && StoreKept(store) && SessionKept(session)
      && bot.sent == old(bot.sent) + [Outgoing(chatId, BadPlanNumber(|list|), Option.None)]
  }

  /** Numbers typed against the listing `list`: the plans at the positions
      picked are removed by id, and the dialogue ends. */
  twostate predicate AnsweredNumbers(bot: BotClient, chatId: int, text: string, session: UserSession,
                                     store: PlannerService, list: seq<PlanItem>, before: seq<PlanItem>)
    reads bot, session, store, list, before
  {
    var numbers := SelectedNumbers(text, |list|);
    if |numbers| == 0 then
      && StoreKept(store) && SessionKept(session)
      && bot.sent == old(bot.sent) + [Outgoing(chatId, BadNumbers, Option.None)]
    else RemovedNumbered(bot, chatId, session, store, list, numbers, before)
  }

  /** The plans at positions `numbers` of `list` were removed by id from the
      store, which held `before`, and the dialogue ended. */
  twostate predicate RemovedNumbered(bot: BotClient, chatId: int, session: UserSession, store: PlannerService,
                                     list: seq<PlanItem>, numbers: seq<nat>, before: seq<PlanItem>)
    requires forall i :: 0 <= i < |numbers| ==> 1 <= numbers[i] <= |list|
    reads bot, session, store, list, before
  {
    var r := old(DeleteIds(before, chatId, IdsAt(list, numbers)));
    && store.plans == r.0 && store.planSaves == old(store.planSaves) + 1
    && session.state == UserState.None && session.tempPlansList == []
    && session.tempValue == old(session.tempValue)
    && bot.sent == old(bot.sent) + [Outgoing(chatId, Deleted(r.1), Some(MainKeyboard))]
  }

  /** `HandleNumbersInput`: a cancel button ends the dialogue; otherwise the
      mark `mode` left by the previous question decides how `text` is read. */
  twostate predicate AnsweredDelete(bot: BotClient, chatId: int, text: string, session: UserSession,
                                    store: PlannerService, list: seq<PlanItem>, mode: string, before: seq<PlanItem>)
    reads bot, session, store, list, before
  {
    if IsCancel(text) then
      && session.state == UserState.None && session.tempPlansList == list && session.tempValue == mode
      && store.plans == before && store.planSaves == old(store.planSaves)
      && bot.sent == old(bot.sent) + [Outgoing(chatId, Cancelled, Some(MainKeyboard))]
    else if mode == ByDateMode then AnsweredDate(bot, chatId, text, session, store, list, before)
    else if mode == RecurringMode then AnsweredSeries(bot, chatId, text, session, store, list, before)
    else AnsweredNumbers(bot, chatId, text, session, store, list, before)
  }

  class DeleteHandler {
    const planner: PlannerService

    constructor (planner: PlannerService)
      ensures this.planner == planner
    {
      this.planner := planner;
    }

    /** Lists the chat's upcoming plans (at most twenty) with the ways of
        deleting them. */
    method StartDelete(bot: BotClient, chatId: int, session: UserSession, clock: Clock)
      modifies bot, session`tempPlansList, session`state
      ensures session.state == old(session.state) || session.state == UserState.WaitingForDeleteConfirmation
      ensures ListedForDelete(bot, chatId, session,
        old(planner.GetAllUpcomingPlans(chatId, planner.GetUserCurrentTime(chatId, clock))))
    {
      var now := planner.GetUserCurrentTime(chatId, clock);
      var plans := planner.GetAllUpcomingPlans(chatId, now);
      ListForDelete(bot, chatId, session, plans);
    }

    /** The part of `StartDelete` after the query. */
    method ListForDelete(bot: BotClient, chatId: int, session: UserSession, plans: seq<PlanItem>)
      modifies bot, session`tempPlansList, session`state
      ensures session.state == old(session.state) || session.state == UserState.WaitingForDeleteConfirmation
      ensures ListedForDelete(bot, chatId, session, plans)
    {
      if |plans| == 0 {
        bot.SendMessage(chatId, NothingToDelete, Some(MainKeyboard));
        return;
      }
      session.tempPlansList := Take(plans, DeleteListLength);
      session.state := UserState.WaitingForDeleteConfirmation;
      bot.SendMessage(chatId, DeleteList(|plans|, Views(Take(plans, DeleteListLength))), Some(DeleteOptionsKeyboard));
    }

    /** The button pressed under the listing, or the answer to the question
        it asked. */
    method HandleDeleteChoice(bot: BotClient, chatId: int, text: string, session: UserSession)
      modifies bot, session`state, session`tempPlansList, session`tempValue, planner`plans, planner`planSaves
      ensures session.state == old(session.state) || session.state == UserState.None
      ensures text == MenuLabel ==>
        && session.state == UserState.None && session.tempPlansList == []
        && session.tempValue == old(session.tempValue) && StoreKept(planner)
        && bot.sent == old(bot.sent) + [Outgoing(chatId, Cancelled, Some(MainKeyboard))]
      ensures text == ByNumbersLabel ==>
        && SessionKept(session) && StoreKept(planner)
        && bot.sent == old(bot.sent) + [Outgoing(chatId, EnterNumbers, Some(CancelKeyboard))]
      ensures text == ByDateLabel ==>
        && session.state == old(session.state) && session.tempPlansList == old(session.tempPlansList)
        && session.tempValue == ByDateMode && StoreKept(planner)
        && bot.sent == old(bot.sent) + [Outgoing(chatId, EnterDeleteDate, Some(CancelKeyboard))]
      ensures text == RecurringLabel ==>
        ListedSeries(bot, chatId, session, old(session.tempPlansList)) && StoreKept(planner)
      ensures text != MenuLabel && text != ByNumbersLabel && text != ByDateLabel && text != RecurringLabel ==>
        AnsweredDelete(bot, chatId, text, session, planner, old(session.tempPlansList), old(session.tempValue), old(planner.plans))
    {
      if text == MenuLabel {
        session.state := UserState.None;
        session.tempPlansList := [];
        bot.SendMessage(chatId, Cancelled, Some(MainKeyboard));
        return;
      }
      if text == ByNumbersLabel {
        bot.SendMessage(chatId, EnterNumbers, Some(CancelKeyboard));
        return;
      }
      if text == ByDateLabel {
        bot.SendMessage(chatId, EnterDeleteDate, Some(CancelKeyboard));
        session.tempValue := ByDateMode;
        return;
      }
      if text == RecurringLabel {
        ListSeries(bot, chatId, session);
        return;
      }
      HandleNumbersInput(bot, chatId, text, session);
    }

    /** The "all recurring" button. */
    method ListSeries(bot: BotClient, chatId: int, session: UserSession)
      modifies bot, session`state, session`tempPlansList, session`tempValue
      ensures ListedSeries(bot, chatId, session, old(session.tempPlansList))
    {
      var series := SeriesList(session.tempPlansList);
      var reply := ChooseSeries(Views(series));
      if |series| == 0 {
        bot.SendMessage(chatId, NoRecurringPlans, Some(MainKeyboard));
        session.state := UserState.None;
        return;
      }
      session.tempPlansList := series;
      session.tempValue := RecurringMode;
      bot.SendMessage(chatId, reply, Option.None);
    }

    /** An answer typed under the listing or after one of its questions. */
    method HandleNumbersInput(bot: BotClient, chatId: int, text: string, session: UserSession)
      modifies bot, session`state, session`tempPlansList, session`tempValue, planner`plans, planner`planSaves
      ensures AnsweredDelete(bot, chatId, text, session, planner, old(session.tempPlansList), old(session.tempValue), old(planner.plans))
    {
      if IsCancel(text) {
        session.state := UserState.None;
        bot.SendMessage(chatId, Cancelled, Some(MainKeyboard));
        return;
      }
      if session.tempValue == ByDateMode {
        DeleteOnDate(bot, chatId, text, session);
        return;
      }
      if session.tempValue == RecurringMode {
        DeleteSeries(bot, chatId, text, session);
        return;
      }
      DeleteNumbers(bot, chatId, text, session);
    }

    /** The date answer. */
    method DeleteOnDate(bot: BotClient, chatId: int, text: string, session: UserSession)
      modifies bot, session`state, session`tempValue, planner`plans, planner`planSaves
      ensures AnsweredDate(bot, chatId, text, session, planner, old(session.tempPlansList), old(planner.plans))
    {
      match ParseDate(text)
      case Some(date) =>
        var count := planner.DeletePlansByDate(chatId, date);
        bot.SendMessage(chatId, DeletedOnDate(count, date), Some(MainKeyboard));
        session.state := UserState.None;
        session.tempValue := "";
      case None =>
        bot.SendMessage(chatId, BadDeleteDate, Option.None);
    }

    /** The series number answer. */
    method DeleteSeries(bot: BotClient, chatId: int, text: string, session: UserSession)
      modifies bot, session`state, session`tempValue, planner`plans, planner`planSaves
      ensures AnsweredSeries(bot, chatId, text, session, planner, old(session.tempPlansList), old(planner.plans))
    {
      var list := session.tempPlansList;
      match PlanNumber(text, |list|)
      case Some(n) =>
        var plan := list[n - 1];
        var count := planner.DeleteRecurringPlans(chatId, SeriesKey(plan));
        bot.SendMessage(chatId, DeletedSeries(count, plan.description), Some(MainKeyboard));
        session.state := UserState.None;
        session.tempValue := "";
      case None =>
        bot.SendMessage(chatId, BadPlanNumber(|list|), Option.None);
    }

    /** The list-of-numbers answer. */
    method DeleteNumbers(bot: BotClient, chatId: int, text: string, session: UserSession)
      modifies bot, session`state, session`tempPlansList, planner`plans, planner`planSaves
      ensures AnsweredNumbers(bot, chatId, text, session, planner, old(session.tempPlansList), old(planner.plans))
    {
      var numbers := SelectedNumbers(text, |session.tempPlansList|);
      if |numbers| == 0 {
        bot.SendMessage(chatId, BadNumbers, Option.None);
        return;
      }
      RemoveNumbered(bot, chatId, session, numbers);
    }

    /** Removes the plans at the positions `numbers` of the session's list. */
    method RemoveNumbered(bot: BotClient, chatId: int, session: UserSession, numbers: seq<nat>)
      requires forall i :: 0 <= i < |numbers| ==> 1 <= numbers[i] <= |session.tempPlansList|
      modifies bot, session`state, session`tempPlansList, planner`plans, planner`planSaves
      ensures RemovedNumbered(bot, chatId, session, planner, old(session.tempPlansList), numbers, old(planner.plans))
    {
      var deleted := planner.DeleteMultiplePlans(chatId, IdsAt(session.tempPlansList, numbers));
      bot.SendMessage(chatId, Deleted(deleted), Some(MainKeyboard));
      session.state := UserState.None;
      session.tempPlansList := [];
    }
  }
}
