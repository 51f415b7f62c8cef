/** `VoiceCommandParser.TryParseVoiceCommand`: reads a day, a time of day and
    a description out of free text such as "завтра в 15:00 встреча". The
    three regular expressions of the source are written out as matchers at a
    position, a leftmost search and a left-to-right deletion of all matches. */
module VoiceCommandParser {
  import opened Wrappers
  import opened Text
  import opened Calendar

  /** The parser's Boolean result with its two out-parameters. */
  datatype VoiceCommand = VoiceCommand(ok: bool, dateTime: DateTime, description: string)

  // ---------------------------------------------------------------------
  // Matchers

  /** The length of the white-space run (`\s*`) starting at `i`. */
  function WhiteRun(s: string, i: nat): (n: nat)
    requires i <= |s|
    ensures i + n <= |s|
    ensures forall k :: i <= k < i + n ==> IsWhiteSpace(s[k])
    ensures i + n < |s| ==> !IsWhiteSpace(s[i + n])
    decreases |s| - i
  {
    if i < |s| && IsWhiteSpace(s[i]) then 1 + WhiteRun(s, i + 1) else 0
  }

  /** How many digits `\d{1,2}` takes at `i` (greedy; 0 when there is none).
      No pattern here follows these digits with a digit, so giving one back
      never lets a match succeed. */
  function Digits12(s: string, i: nat): (n: nat)
    ensures n <= 2
    ensures n > 0 ==> i + n <= |s| && AllDigits(s[i..i + n])
    ensures n == 0 <==> !(i < |s| && IsDigit(s[i]))
  {
    if i < |s| && IsDigit(s[i]) then
      if i + 1 < |s| && IsDigit(s[i + 1]) then 2 else 1
    else 0
  }

  /** A match of the time pattern: where it ends, and the hours and minutes
      its groups hold (the minutes are 0 for the "час" form). */
  datatype ClockMatch = ClockMatch(end: nat, hours: nat, minutes: nat)

  /** A match of the day-month pattern: where it ends, its day and month. */
  datatype DayMonthMatch = DayMonthMatch(end: nat, day: nat, month: nat)

  /** `:(\d{2})` at position `k`: the value of the two digits. */
  function MinutesAt(s: string, k: nat): (r: Option<nat>)
    ensures r.Some? ==> k + 3 <= |s| && s[k] == ':'
  {
    if k + 2 < |s| && s[k] == ':' && IsDigit(s[k + 1]) && IsDigit(s[k + 2]) then
      assert AllDigits(s[k + 1..k + 3]);
      Some(DigitsValue(s[k + 1..k + 3]))
    else Option.None
  }

  /** `\s+час` at position `k`: where the match ends. */
  function HourWordAt(s: string, k: nat): (e: Option<nat>)
    requires k <= |s|
    ensures e.Some? ==> k < e.value <= |s|
  {
    var w2 := WhiteRun(s, k);
    if w2 > 0 && OccursAt(s, "час", k + w2) then Some(k + w2 + 3) else Option.None
  }

  /** What follows "в" and the white space: `(\d{1,2}):(\d{2})` or else
      `(\d{1,2})\s+час` at position `j`. */
  function ClockAt(s: string, j: nat): (m: Option<ClockMatch>)
    ensures m.Some? ==> j < m.value.end <= |s|
  {
    var g := Digits12(s, j);
    if g == 0 then Option.None
    else
      var hours := DigitsValue(s[j..j + g]);
      match MinutesAt(s, j + g)
      case Some(minutes) => Some(ClockMatch(j + g + 3, hours, minutes))
      case None =>
        match HourWordAt(s, j + g)
        case Some(e) => Some(ClockMatch(e, hours, 0))
        case None => Option.None
  }

  /** `в\s+(\d{1,2}):(\d{2})|в\s+(\d{1,2})\s+час` at position `i`, the first
      alternative tried first. Both alternatives begin with `в\s+`. */
  function TimeMatchAt(s: string, i: nat): (m: Option<ClockMatch>)
    ensures m.Some? ==> i < m.value.end <= |s| && s[i] == 'в'
  {
    if i >= |s| || s[i] != 'в' then Option.None
    else
      var w := WhiteRun(s, i + 1);
      if w == 0 then Option.None else ClockAt(s, i + 1 + w)
  }

  /** `(\d{1,2})\.(\d{1,2})` at position `i`. */
  function DayMonthAt(s: string, i: nat): (m: Option<DayMonthMatch>)
    ensures m.Some? ==> i < m.value.end <= |s|
  {
    var g := Digits12(s, i);
    if g == 0 || i + g >= |s| || s[i + g] != '.' then Option.None
    else
      var g2 := Digits12(s, i + g + 1);
      if g2 == 0 then Option.None
      else
        Some(DayMonthMatch(i + g + 1 + g2, DigitsValue(s[i..i + g]),
                           DigitsValue(s[i + g + 1..i + g + 1 + g2])))
  }

  /** `сегодня|завтра|послезавтра` at position `i`: where the match ends. */
  function DayWordAt(s: string, i: nat): (e: Option<nat>)
    ensures e.Some? ==> i < e.value <= |s|
  {
    if OccursAt(s, "сегодня", i) then Some(i + 7)
    else if OccursAt(s, "завтра", i) then Some(i + 6)
    else if OccursAt(s, "послезавтра", i) then Some(i + 11)
    else Option.None
  }

  /** The three patterns the description is cleaned of, in the order used. */
  datatype Pattern = TimePattern | DayMonthPattern | DayWordPattern

  /** Where a match of `p` at `i` ends, if there is one. */
  function MatchEnd(p: Pattern, s: string, i: nat): (e: Option<nat>)
    ensures e.Some? ==> i < e.value <= |s|
  {
    match p
    case TimePattern => (match TimeMatchAt(s, i) case None => Option.None case Some(m) => Some(m.end))
    case DayMonthPattern => (match DayMonthAt(s, i) case None => Option.None case Some(m) => Some(m.end))
    case DayWordPattern => DayWordAt(s, i)
  }

  /** The leftmost position in `i..n` at which `at` finds a match, and that match. */
  function FirstMatch<M(==)>(at: nat -> Option<M>, i: nat, n: nat): (m: Option<M>)
    ensures m.Some? ==> exists k :: i <= k < n && at(k) == m && forall j :: i <= j < k ==> at(j).None?
    ensures m.None? ==> forall k :: i <= k < n ==> at(k).None?
    decreases n - i
  {
    if i >= n then Option.None
    else if at(i).Some? then at(i)
    else FirstMatch(at, i + 1, n)
  }

  /** The time pattern tried at each position of `s`. */
  function TimeMatcher(s: string): nat -> Option<ClockMatch> {
    (k: nat) => TimeMatchAt(s, k)
  }

  /** The day-month pattern tried at each position of `s`. */
  function DayMonthMatcher(s: string): nat -> Option<DayMonthMatch> {
    (k: nat) => DayMonthAt(s, k)
  }

  /** `Regex.Match` with the time pattern: the leftmost match at or after `i`. */
  function FirstTimeMatch(s: string, i: nat): (m: Option<ClockMatch>)
    ensures m.Some? ==> exists k :: i <= k < |s| && TimeMatcher(s)(k) == m && forall j :: i <= j < k ==> TimeMatcher(s)(j).None?
    ensures m.None? ==> forall k :: i <= k < |s| ==> TimeMatcher(s)(k).None?
  {
    FirstMatch(TimeMatcher(s), i, |s|)
  }

  /** `Regex.Match` with the day-month pattern: the leftmost match at or after `i`. */
  function FirstDayMonth(s: string, i: nat): (m: Option<DayMonthMatch>)
    ensures m.Some? ==> exists k :: i <= k < |s| && DayMonthMatcher(s)(k) == m && forall j :: i <= j < k ==> DayMonthMatcher(s)(j).None?
    ensures m.None? ==> forall k :: i <= k < |s| ==> DayMonthMatcher(s)(k).None?
  {
    FirstMatch(DayMonthMatcher(s), i, |s|)
  }

  /** `Regex.Replace(s, p, "")` on the part of `s` from `i`: the leftmost
      match is deleted and the scan goes on after it (`RemoveLeftmost`);
      a text without a match is kept as it is. */
  function RemoveMatches(p: Pattern, s: string, i: nat): (r: string)
    ensures |r| <= |s| - i || (i >= |s| && r == "")
    ensures forall k :: 0 <= k < |r| ==> r[k] in s
    ensures i <= |s| && (forall k :: i <= k < |s| ==> MatchEnd(p, s, k).None?) ==> r == s[i..]
    decreases |s| - i
  {
    if i >= |s| then ""
    else match MatchEnd(p, s, i)
      case Some(e) => RemoveMatches(p, s, e)
      case None =>
        var rest := RemoveMatches(p, s, i + 1);
        assert s[i..] == [s[i]] + s[i + 1..];
        [s[i]] + rest
  }

  /** A position where nothing matches keeps its character. */
  lemma RemoveKeep(p: Pattern, s: string, i: nat)
    requires i < |s| && MatchEnd(p, s, i).None?
    ensures RemoveMatches(p, s, i) == [s[i]] + RemoveMatches(p, s, i + 1)
  {
  }

  /** A match at `i` ending at `e` is deleted and the scan resumes at `e`. */
  lemma RemoveSkip(p: Pattern, s: string, i: nat, e: nat)
    requires i < |s| && MatchEnd(p, s, i) == Some(e)
    ensures RemoveMatches(p, s, i) == RemoveMatches(p, s, e)
  {
  }

  /** With the leftmost match from `i` at `k`, ending at `e`, the text before
      it is kept, the match itself is deleted, and the scan resumes at `e`. */
  lemma {:induction false} RemoveLeftmost(p: Pattern, s: string, i: nat, k: nat, e: nat)
    requires i <= k < |s| && MatchEnd(p, s, k) == Some(e)
    requires forall j :: i <= j < k ==> MatchEnd(p, s, j).None?
    ensures RemoveMatches(p, s, i) == s[i..k] + RemoveMatches(p, s, e)
    decreases k - i
  {
    if i < k {
      assert MatchEnd(p, s, i).None?;
      RemoveKeep(p, s, i);
      RemoveLeftmost(p, s, i + 1, k, e);
      KeptPrefix(s, i, k, RemoveMatches(p, s, i), RemoveMatches(p, s, i + 1), RemoveMatches(p, s, e));
    } else {
      RemoveSkip(p, s, k, e);
      assert s[i..k] == [];
    }
  }

  /** One more kept character in front of the kept prefix `s[i + 1..k]`. */
  lemma KeptPrefix(s: string, i: nat, k: nat, r0: string, r1: string, re: string)
    requires i < k <= |s| && r0 == [s[i]] + r1 && r1 == s[i + 1..k] + re
    ensures r0 == s[i..k] + re
  {
    assert s[i..k] == [s[i]] + s[i + 1..k];
  }

  /** Only single spaces as white space, never two white-space characters in a row. */
  ghost predicate Collapsed(s: string) {
    && (forall k :: 0 <= k < |s| && IsWhiteSpace(s[k]) ==> s[k] == ' ')
    && (forall k, j :: 0 <= k < j < |s| && j == k + 1 ==> !(IsWhiteSpace(s[k]) && IsWhiteSpace(s[j])))
  }

  /** `r` is `s` from `i` with its white space collapsed: only single spaces
      as white space, empty exactly when that part of `s` is, white at
      either end exactly where `s` is, and with the same words (maximal runs
      of other characters), in order. */
  ghost predicate CollapsesTo(s: string, i: nat, r: string)
    requires i <= |s|
  {
    && Collapsed(r)
    && (|r| == 0 <==> i == |s|)
    && (|r| > 0 ==> r[0] == if IsWhiteSpace(s[i]) then ' ' else s[i])
    && (|r| > 0 ==> r[|r| - 1] == if IsWhiteSpace(s[|s| - 1]) then ' ' else s[|s| - 1])
    && Split(r, WhiteSpaceChars) == Split(s[i..], WhiteSpaceChars)
  }

  /** `Regex.Replace(s, @"\s+", " ")` on the part of `s` from `i`. */
  function CollapseWhite(s: string, i: nat): (r: string)
    requires i <= |s|
    ensures CollapsesTo(s, i, r)
    decreases |s| - i
  {
    if i == |s| then
      WhiteSpaceCharsSet();
      ""
    else if IsWhiteSpace(s[i]) then
      var n := WhiteRun(s, i);
      var rest := CollapseWhite(s, i + n);
      WhiteStep(s, i, n, rest);
      " " + rest
    else
      var rest := CollapseWhite(s, i + 1);
      OtherStep(s, i, rest);
      [s[i]] + rest
  }

  /** A white-space run collapsed to one space in front of the rest. */
  lemma WhiteStep(s: string, i: nat, n: nat, rest: string)
    requires 0 < n && i + n <= |s| && forall k :: i <= k < i + n ==> IsWhiteSpace(s[k])
    requires i + n < |s| ==> !IsWhiteSpace(s[i + n])
    requires CollapsesTo(s, i + n, rest)
    ensures CollapsesTo(s, i, " " + rest)
  {
    var r := " " + rest;
    assert r[1..] == rest;
    forall k, j | 0 <= k < j < |r| && j == k + 1
      ensures !(IsWhiteSpace(r[k]) && IsWhiteSpace(r[j]))
    {
      if k > 0 {
        assert r[k] == rest[k - 1] && r[j] == rest[j - 1];
      }
    }
    WhiteSpaceCharsSet();
    assert s[i..][n..] == s[i + n..];
    CollapseWhiteRunWords(s[i..], n, rest, WhiteSpaceChars);
  }

  /** Any other character kept in front of the rest. */
  lemma OtherStep(s: string, i: nat, rest: string)
    requires i < |s| && !IsWhiteSpace(s[i])
    requires CollapsesTo(s, i + 1, rest)
    ensures CollapsesTo(s, i, [s[i]] + rest)
  {
    var r := [s[i]] + rest;
    assert r[1..] == rest;
    forall k, j | 0 <= k < j < |r| && j == k + 1
      ensures !(IsWhiteSpace(r[k]) && IsWhiteSpace(r[j]))
    {
      if k > 0 {
        assert r[k] == rest[k - 1] && r[j] == rest[j - 1];
      }
    }
    OtherStepWords(s, i, rest);
  }

  /** The words of the text from `i` are those of the kept character
      followed by the collapsed rest. */
  lemma OtherStepWords(s: string, i: nat, rest: string)
    requires i < |s| && !IsWhiteSpace(s[i])
    requires Split(rest, WhiteSpaceChars) == Split(s[i + 1..], WhiteSpaceChars)
    requires |rest| == 0 <==> i + 1 == |s|
    requires |rest| > 0 ==> (IsWhiteSpace(rest[0]) <==> IsWhiteSpace(s[i + 1]))
    ensures Split([s[i]] + rest, WhiteSpaceChars) == Split(s[i..], WhiteSpaceChars)
  {
    WhiteSpaceCharsSet();
    OtherStepSplit(s, i, rest, WhiteSpaceChars);
  }

  /** `OtherStepWords` for any set `w` of exactly the white-space characters. */
  lemma OtherStepSplit(s: string, i: nat, rest: string, w: set<char>)
    requires IsWhiteSet(w)
    requires i < |s| && !IsWhiteSpace(s[i])
    requires Split(rest, w) == Split(s[i + 1..], w)
    requires |rest| == 0 <==> i + 1 == |s|
    requires |rest| > 0 ==> (IsWhiteSpace(rest[0]) <==> IsWhiteSpace(s[i + 1]))
    ensures Split([s[i]] + rest, w) == Split(s[i..], w)
  {
    var x := s[i + 1..];
    assert |x| > 0 ==> x[0] == s[i + 1];
    assert s[i..] == [s[i]] + x;
    SplitConsSame(s[i], rest, x, w);
  }

  /** `w` holds exactly the white-space characters. */
  predicate IsWhiteSet(w: set<char>) {
    forall c :: c in w <==> IsWhiteSpace(c)
  }

  lemma WhiteSpaceCharsSet()
    ensures IsWhiteSet(WhiteSpaceChars)
  {
    forall c: char ensures c in WhiteSpaceChars <==> IsWhiteSpace(c) {
      WhiteSpaceCharsExact(c);
    }
  }

  /** A white run collapsed to one space keeps the words after it. */
  lemma CollapseWhiteRunWords(x: string, n: nat, rest: string, w: set<char>)
    requires IsWhiteSet(w)
    requires n <= |x| && forall k :: 0 <= k < n ==> IsWhiteSpace(x[k])
    requires Split(rest, w) == Split(x[n..], w)
    ensures Split(" " + rest, w) == Split(x, w)
  {
    var r := " " + rest;
    assert r[1..] == rest;
    SplitSepsFront(r, rest, x, n, w);
  }

  /** `char.ToUpper(s[0]) + s.Substring(1)`. */
  function Capitalize(s: string): (r: string)
    ensures |r| == |s|
    ensures |s| > 0 ==> r[0] == UpperChar(s[0]) && r[1..] == s[1..]
    ensures forall k :: 0 <= k < |s| ==> (IsWhiteSpace(r[k]) <==> IsWhiteSpace(s[k]))
  {
    if |s| == 0 then s else [UpperChar(s[0])] + s[1..]
  }

  // ---------------------------------------------------------------------
  // The parser

  /** `text.ToLower().Trim()`. */
  function Normalize(input: string): string {
    Trim(ToLower(input))
  }

  /** Whether a day-month is earlier in the year than `now`'s. */
  predicate EarlierInYear(month: int, day: int, now: DateTime) {
    month < now.month || (month == now.month && day < now.day)
  }

  /** Whether the text holds one of the three day words. */
  predicate HasDayWord(text: string) {
    Contains(text, "сегодня") || Contains(text, "завтра") || Contains(text, "послезавтра")
  }

  /** The year a day-month is read in: this year, or the next when the
      day-month is already past. */
  function YearFor(m: DayMonthMatch, now: DateTime): int {
    if EarlierInYear(m.month, m.day, now) then now.year + 1 else now.year
  }

  /** The day the text names; `None` where computing it throws. Without a
      day word and without a day-month the target is `now` itself. */
  function TargetDate(text: string, now: DateTime): Option<DateTime> {
    if Contains(text, "сегодня") then Some(DateOf(now))
    else if Contains(text, "завтра") then AddDays(DateOf(now), 1)
    else if Contains(text, "послезавтра") then AddDays(DateOf(now), 2)
    else match FirstDayMonth(text, 0)
      case None => Some(now)
      case Some(m) =>
        MakeDate(YearFor(m, now), m.month, m.day)
  }

  /** The time of day the text names, in milliseconds; 0 without a match.
      Hours and minutes are not bounded: "в 30:99" is 30 h 99 min. */
  function TimeSpanOf(text: string): nat {
    match FirstTimeMatch(text, 0)
    case None => 0
    case Some(m) => m.hours * MsPerHour + m.minutes * MsPerMinute
  }

  /** The text with every time, then every day-month, then every day word
      deleted. */
  function Cleaned(text: string): string {
    var d0 := RemoveMatches(TimePattern, text, 0);
    var d1 := RemoveMatches(DayMonthPattern, d0, 0);
    RemoveMatches(DayWordPattern, d1, 0)
  }

  /** The cleaned text, trimmed, with its white-space runs made single
      spaces: the same words in the same order, no white space at either
      end, and empty exactly when the cleaned text is blank. */
  function Description(text: string): (d: string)
    ensures Split(d, WhiteSpaceChars) == Split(Cleaned(text), WhiteSpaceChars)
    ensures Collapsed(d)
    ensures |d| > 0 ==> !IsWhiteSpace(d[0]) && !IsWhiteSpace(d[|d| - 1])
    ensures d == "" <==> IsBlank(Cleaned(text))
  {
    var t := Trim(Cleaned(text));
    assert t[0..] == t;
    TrimWords(Cleaned(text));
    CollapseWhite(t, 0)
  }

  /** `TryParseVoiceCommand(text, currentDate, out dateTime, out description)`.
      On failure `dateTime` is `DateTime.MinValue`; the description is empty
      when computing the day threw and is kept once it has been computed. */
  function TryParseVoiceCommand(input: string, currentDate: DateTime): (r: VoiceCommand)
    ensures var text := Normalize(input);
      r.ok <==> (&& TargetDate(text, currentDate).Some?
                 && !IsBlank(Description(text))
                 && Plus(DateOf(TargetDate(text, currentDate).value), TimeSpanOf(text)).Some?)
    ensures !r.ok ==> r.dateTime == MinValue
    ensures r.ok ==> Ticks(r.dateTime) == Ticks(DateOf(TargetDate(Normalize(input), currentDate).value)) + TimeSpanOf(Normalize(input))
    ensures TargetDate(Normalize(input), currentDate).None? ==> r.description == ""
    ensures var d := Description(Normalize(input));
      TargetDate(Normalize(input), currentDate).Some? ==> r.description == if IsBlank(d) then d else Capitalize(d)
  {
    var text := Normalize(input);
    match TargetDate(text, currentDate)
    case None => VoiceCommand(false, MinValue, "")
    case Some(target) =>
      var description := Description(text);
      if IsBlank(description) then VoiceCommand(false, MinValue, description)
      else
        var described := Capitalize(description);
        match Plus(DateOf(target), TimeSpanOf(text))
        case None => VoiceCommand(false, MinValue, described)
        case Some(dt) => VoiceCommand(true, dt, described)
  }

  // ---------------------------------------------------------------------
  // Properties

  /** A successful parse hands back a description that is not blank, has
      no white space at either end and no white-space run but single spaces. */
  lemma DescriptionShape(input: string, now: DateTime)
    requires TryParseVoiceCommand(input, now).ok
    ensures var d := TryParseVoiceCommand(input, now).description;
      && |d| > 0 && !IsBlank(d)
      && !IsWhiteSpace(d[0]) && !IsWhiteSpace(d[|d| - 1])
      && Collapsed(d)
  {
    var description := Description(Normalize(input));
    var d := TryParseVoiceCommand(input, now).description;
    assert d == Capitalize(description);
    assert Collapsed(d) by {
      forall k | 0 <= k < |d| && IsWhiteSpace(d[k]) ensures d[k] == ' ' {
        assert k > 0;
      }
      forall k, j | 0 <= k < j < |d| && j == k + 1 ensures !(IsWhiteSpace(d[k]) && IsWhiteSpace(d[j])) {
        assert j > 0;
      }
    }
  }

  /** "послезавтра" contains "завтра", so the day-after-tomorrow branch is
      never taken: such a text names tomorrow (or today, with "сегодня"). */
  lemma DayAfterTomorrowIsTomorrow(text: string, now: DateTime)
    requires Contains(text, "послезавтра") && !Contains(text, "сегодня")
    ensures TargetDate(text, now) == AddDays(DateOf(now), 1)
  {
    assert OccursAt("послезавтра", "завтра", 5);
    ContainsTransitive(text, "послезавтра", "завтра");
  }

  /** A day-month without a day word never names a day before today: one
      already past this year is read in the next year. */
  lemma DayMonthNotInPast(text: string, now: DateTime)
    requires !HasDayWord(text) && FirstDayMonth(text, 0).Some? && TargetDate(text, now).Some?
    ensures Ticks(TargetDate(text, now).value) >= Ticks(DateOf(now))
    ensures EarlierInYear(FirstDayMonth(text, 0).value.month, FirstDayMonth(text, 0).value.day, now)
      ==> TargetDate(text, now).value.year == now.year + 1
  {
    var t := TargetDate(text, now).value;
    TicksOrder(DateOf(now), t);
  }

  /** A day-month that is no date (31.02, 00.13) fails the whole parse with
      `DateTime.MinValue` and an empty description. */
  lemma ImpossibleDayMonthFails(input: string, now: DateTime)
    requires !HasDayWord(Normalize(input)) && FirstDayMonth(Normalize(input), 0).Some?
    requires var m := FirstDayMonth(Normalize(input), 0).value;
      MakeDate(YearFor(m, now), m.month, m.day).None?
    ensures TryParseVoiceCommand(input, now) == VoiceCommand(false, MinValue, "")
  {
    var text := Normalize(input);
    assert TargetDate(text, now).None?;
  }

  /** Without a time in the text the plan is at midnight of the target day. */
  lemma NoTimeMeansMidnight(input: string, now: DateTime)
    requires FirstTimeMatch(Normalize(input), 0).None?
    requires TryParseVoiceCommand(input, now).ok
    ensures TryParseVoiceCommand(input, now).dateTime == DateOf(TargetDate(Normalize(input), now).value)
  {
    var d := DateOf(TargetDate(Normalize(input), now).value);
    TicksOrder(TryParseVoiceCommand(input, now).dateTime, d);
  }

  /** A white-space run from `a` up to a non-white character at `b`. */
  lemma WhiteRunTo(s: string, a: nat, b: nat)
    requires a <= b < |s| && !IsWhiteSpace(s[b])
    requires forall k :: a <= k < b ==> IsWhiteSpace(s[k])
    ensures WhiteRun(s, a) == b - a
  {
  }

  /** One or two digits at `j`, followed by a non-digit. */
  lemma Digits12Exact(s: string, j: nat, g: nat)
    requires 1 <= g <= 2 && j + g < |s| && AllDigits(s[j..j + g]) && !IsDigit(s[j + g])
    ensures Digits12(s, j) == g
  {
    assert IsDigit(s[j]) by { assert s[j..j + g][0] == s[j]; }
    if g == 2 {
      assert IsDigit(s[j + 1]) by { assert s[j..j + g][1] == s[j + 1]; }
    }
  }

  /** One or two digits, "." and one or two digits at `i` match the
      day-month pattern: the first group is the day, the second the month,
      and the match ends after the second group, which takes a third digit
      only up to two. */
  lemma DayMonthForm(s: string, i: nat, g: nat, g2: nat)
    requires 1 <= g <= 2 && 1 <= g2 <= 2 && i + g + 1 + g2 <= |s|
    requires AllDigits(s[i..i + g]) && s[i + g] == '.' && AllDigits(s[i + g + 1..i + g + 1 + g2])
    requires g2 == 2 || i + g + 1 + g2 == |s| || !IsDigit(s[i + g + 1 + g2])
    ensures DayMonthAt(s, i)
      == Some(DayMonthMatch(i + g + 1 + g2, DigitsValue(s[i..i + g]), DigitsValue(s[i + g + 1..i + g + 1 + g2])))
  {
    Digits12Exact(s, i, g);
    var j := i + g + 1;
    assert IsDigit(s[j]) by { assert s[j..j + g2][0] == s[j]; }
    if g2 == 2 {
      assert IsDigit(s[j + 1]) by { assert s[j..j + g2][1] == s[j + 1]; }
    }
  }

  /** After "в" and a white-space run up to `j`, the time pattern is decided
      at `j`. */
  lemma TimeMatchVia(s: string, i: nat, j: nat)
    requires i + 1 < j < |s| && s[i] == 'в' && !IsWhiteSpace(s[j])
    requires forall k :: i < k < j ==> IsWhiteSpace(s[k])
    ensures TimeMatchAt(s, i) == ClockAt(s, j)
  {
    WhiteRunTo(s, i + 1, j);
  }

  /** One or two digits, ":" and two digits at `j`. */
  lemma MinutesForm(s: string, j: nat, g: nat)
    requires 1 <= g <= 2 && j + g + 2 < |s| && AllDigits(s[j..j + g])
    requires s[j + g] == ':' && IsDigit(s[j + g + 1]) && IsDigit(s[j + g + 2])
    ensures ClockAt(s, j)
      == Some(ClockMatch(j + g + 3, DigitsValue(s[j..j + g]), DigitsValue(s[j + g + 1..j + g + 3])))
  {
    Digits12Exact(s, j, g);
    assert MinutesAt(s, j + g) == Some(DigitsValue(s[j + g + 1..j + g + 3]));
  }

  /** One or two digits, white space up to `h` and "час" at `j`. */
  lemma HourWordForm(s: string, j: nat, g: nat, h: nat)
    requires 1 <= g <= 2 && j + g < h && h + 3 <= |s| && AllDigits(s[j..j + g])
    requires forall k :: j + g <= k < h ==> IsWhiteSpace(s[k])
    requires OccursAt(s, "час", h)
    ensures ClockAt(s, j) == Some(ClockMatch(h + 3, DigitsValue(s[j..j + g]), 0))
  {
    assert s[h] == 'ч' by { assert s[h..h + 3][0] == s[h]; }
    assert MinutesAt(s, j + g).None? by { assert IsWhiteSpace(s[j + g]); }
    assert Digits12(s, j) == g by { Digits12Exact(s, j, g); }
    assert HourWordAt(s, j + g) == Some(h + 3) by { WhiteRunTo(s, j + g, h); }
  }

  /** "в" at `i`, white space up to `j`, one or two digits, ":" and two
      digits match the first alternative, whatever follows, with the values
      of the two digit groups. */
  lemma ClockFormAt(s: string, i: nat, j: nat, g: nat)
    requires 1 <= g <= 2 && i + 1 < j && j + g + 2 < |s| && s[i] == 'в'
    requires forall k :: i < k < j ==> IsWhiteSpace(s[k])
    requires AllDigits(s[j..j + g])
    requires s[j + g] == ':' && IsDigit(s[j + g + 1]) && IsDigit(s[j + g + 2])
    ensures TimeMatchAt(s, i)
      == Some(ClockMatch(j + g + 3, DigitsValue(s[j..j + g]), DigitsValue(s[j + g + 1..j + g + 3])))
  {
    MinutesForm(s, j, g);
    assert IsDigit(s[j]) by { assert s[j..j + g][0] == s[j]; }
    TimeMatchVia(s, i, j);
  }

  /** "в" at `i`, white space up to `j`, one or two digits, white space and
      "час" match the second alternative, whatever follows, with the value
      of the digits as the hours and no minutes. */
  lemma HourFormAt(s: string, i: nat, j: nat, g: nat, h: nat)
    requires 1 <= g <= 2 && i + 1 < j && j + g < h && h + 3 <= |s| && s[i] == 'в'
    requires forall k :: i < k < j ==> IsWhiteSpace(s[k])
    requires AllDigits(s[j..j + g])
    requires forall k :: j + g <= k < h ==> IsWhiteSpace(s[k])
    requires OccursAt(s, "час", h)
    ensures TimeMatchAt(s, i) == Some(ClockMatch(h + 3, DigitsValue(s[j..j + g]), 0))
  {
    HourWordForm(s, j, g, h);
    assert IsDigit(s[j]) by { assert s[j..j + g][0] == s[j]; }
    TimeMatchVia(s, i, j);
  }

  /** "в", white space and one or two digits that end the text are no
      time: neither ":" and minutes nor "час" follows the number. */
  lemma BareNumberNoTime(s: string, i: nat, j: nat, g: nat)
    requires 1 <= g <= 2 && i + 1 < j && j + g == |s| && s[i] == 'в'
    requires forall k :: i < k < j ==> IsWhiteSpace(s[k])
    requires AllDigits(s[j..j + g])
    ensures TimeMatchAt(s, i).None?
  {
    assert IsDigit(s[j]) by { assert s[j..j + g][0] == s[j]; }
    TimeMatchVia(s, i, j);
    assert g == 2 ==> IsDigit(s[j + 1]) by {
      if g == 2 { assert s[j..j + g][1] == s[j + 1]; }
    }
    assert Digits12(s, j) == g;
    assert MinutesAt(s, j + g).None?;
    assert WhiteRun(s, j + g) == 0;
  }
}
