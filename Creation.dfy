/** `SimplePlanCreationHandler`: the five steps of creating a plan (date,
    time, description, reminder, recurrence), each the handler of one
    session state. What each step makes of the user's text is a function
    (`ReadDate`, `ReadTime`, `ChosenRecurrence`); the steps themselves are
    methods that update the session, the store and the message log. */
module Creation {
  import opened Wrappers
  import opened Text
  import opened Calendar
  import opened Models
  import opened Keyboard
  import opened Planner
  import opened Messages

  // ---------------------------------------------------------------------
  // Reading the date

  datatype DateInput =
    | DateCancel
    | DateChosen(date: DateTime)
    /** "✏️ Ввести дату": ask for a typed date. */
    | DatePrompt
    | DateInvalid
    /** `AddDays` threw: tomorrow is past the end of the calendar. */
    | DateOverflow

  /** `n` days after the date of `now`, as a chosen date. */
  function DaysAhead(now: DateTime, n: nat): (r: DateInput)
    ensures r.DateChosen? || r.DateOverflow?
    ensures r.DateChosen? <==> AddDays(DateOf(now), n).Some?
    ensures r.DateChosen? ==> r.date == AddDays(DateOf(now), n).value
  {
    match AddDays(DateOf(now), n)
    case Some(d) => DateChosen(d)
    case None => DateOverflow
  }

  /** What the date step makes of `text`, the user's local time being `now`:
      the buttons are recognised by the words they contain, in the order
      "Сегодня", "Завтра", "Послезавтра"; anything else must be an exact
      "dd.MM.yyyy". */
  function ReadDate(text: string, now: DateTime): (r: DateInput)
    ensures r.DateCancel? <==> IsCancel(text)
    ensures r.DateChosen? ==> r.date.millis == 0
    ensures r.DatePrompt? ==> text == EnterDateLabel
  {
    if IsCancel(text) then DateCancel
    else if Contains(text, "Сегодня") then DateChosen(DateOf(now))
    else if Contains(text, "Завтра") then DaysAhead(now, 1)
    else if Contains(text, "Послезавтра") then DaysAhead(now, 2)
    else if text == EnterDateLabel then DatePrompt
    else match ParseDate(text)
      case Some(d) => DateChosen(d)
      case None => DateInvalid
  }

  // ---------------------------------------------------------------------
  // Reading the time

  datatype TimeInput =
    | TimeCancel
    /** A time of day, in milliseconds since midnight. */
    | TimeChosen(span: int)
    /** "✏️ Ввести время": ask for a typed time. */
    | TimePrompt
    | TimeInvalid

  /** The hours of the quick time buttons, in the order they are tried. */
  const QuickHours: seq<int> := [9, 12, 15, 18, 20, 21]

  /** What the time step makes of `text`: the first of "09:00", "12:00",
      "15:00", "18:00", "20:00", "21:00" that the text contains, or an exact
      "hh:mm". */
  function ReadTime(text: string): (r: TimeInput)
    ensures r.TimeCancel? <==> IsCancel(text)
    ensures r.TimeChosen? ==> 0 <= r.span < MsPerDay && r.span % MsPerMinute == 0
    ensures r.TimePrompt? ==> text == EnterTimeLabel
  {
    if IsCancel(text) then TimeCancel
    else if Contains(text, "09:00") then TimeChosen(9 * MsPerHour)
    else if Contains(text, "12:00") then TimeChosen(12 * MsPerHour)
    else if Contains(text, "15:00") then TimeChosen(15 * MsPerHour)
    else if Contains(text, "18:00") then TimeChosen(18 * MsPerHour)
    else if Contains(text, "20:00") then TimeChosen(20 * MsPerHour)
    else if Contains(text, "21:00") then TimeChosen(21 * MsPerHour)
    else if text == EnterTimeLabel then TimePrompt
    else match ParseTime(text)
      case Some(t) => TimeChosen(t)
      case None => TimeInvalid
  }

  // ---------------------------------------------------------------------
  // Reading the recurrence

  /** Whether the recurrence step overwrites the plan's recurrence: every
      answer but cancelling and "⏭ Не повторять" does. */
  predicate SetsRecurrence(text: string) {
    !IsCancel(text) && text != NoRepeatLabel
  }

  /** The plan's recurrence after the recurrence step. */
  function ChosenRecurrence(text: string, current: RecurrenceType): (r: RecurrenceType)
    ensures !SetsRecurrence(text) ==> r == current
    ensures SetsRecurrence(text) && r != RecurrenceType.None ==>
      Contains(text, "день") || Contains(text, "неделю") || Contains(text, "месяц")
  {
    if SetsRecurrence(text) then ParseRecurrence(text) else current
  }

  /** The recurrence step sets a recurrence whose end date (three months on)
      is past the end of the calendar; `AddMonths` throws. */
  predicate EndOverflows(text: string, current: RecurrenceType, dateTime: DateTime) {
    SetsRecurrence(text) && ChosenRecurrence(text, current) != RecurrenceType.None
    && AddMonths(dateTime, 3).None?
  }

  /** The plan's end date after the recurrence step. */
  function ChosenEndDate(text: string, current: RecurrenceType, dateTime: DateTime, end: Option<DateTime>): (r: Option<DateTime>)
    ensures !SetsRecurrence(text) || ChosenRecurrence(text, current) == RecurrenceType.None ==> r == end
    ensures SetsRecurrence(text) && ChosenRecurrence(text, current) != RecurrenceType.None && !EndOverflows(text, current, dateTime) ==>
      r.Some? && MonthIndex(r.value) == MonthIndex(dateTime) + 3 && Ticks(r.value) > Ticks(dateTime)
  {
    if SetsRecurrence(text) && ChosenRecurrence(text, current) != RecurrenceType.None then
      match AddMonths(dateTime, 3)
      case Some(e) => AddMonthsLater(dateTime, 3); Some(e)
      case None => end
    else end
  }

  // ---------------------------------------------------------------------
  // The handler

  class SimplePlanCreationHandler {
    const planner: PlannerService

    constructor (planner: PlannerService)
      ensures this.planner == planner
    {
      this.planner := planner;
    }

    /** The date step (state `WaitingForDateTime`). A chosen date starts a new
        plan on that date at midnight. `threw` is the exception of `AddDays`
        past the end of the calendar, before anything changed. */
    method HandleDateTimeSelection(bot: BotClient, chatId: int, text: string, session: UserSession, clock: Clock)
      returns (threw: bool)
      modifies bot, session`state, session`currentPlan, planner`nextId
      ensures old(session.Valid()) ==> session.Valid()
      ensures var input := ReadDate(text, old(planner.GetUserCurrentTime(chatId, clock)));
        && threw == input.DateOverflow?
        && (input.DateCancel? ==>
              session.state == UserState.None && session.currentPlan == null
              && planner.nextId == old(planner.nextId)
              && bot.sent == old(bot.sent) + [Outgoing(chatId, Cancelled, Some(MainKeyboard))])
        && (input.DateChosen? ==>
              fresh(session.currentPlan)
              && IsNewPlan(session.currentPlan, old(planner.nextId), chatId, input.date)
              && session.state == UserState.WaitingForTime
              && planner.nextId == old(planner.nextId) + 1
              && bot.sent == old(bot.sent) + [Outgoing(chatId, DateAccepted(input.date), Some(TimeQuickSelectKeyboard))])
        && (input.DatePrompt? || input.DateInvalid? || input.DateOverflow? ==>
              session.state == old(session.state) && session.currentPlan == old(session.currentPlan)
              && planner.nextId == old(planner.nextId))
        && (input.DatePrompt? ==> bot.sent == old(bot.sent) + [Outgoing(chatId, EnterDate, Option.None)])
        && (input.DateInvalid? ==> bot.sent == old(bot.sent) + [Outgoing(chatId, BadDate, Option.None)])
        && (input.DateOverflow? ==> bot.sent == old(bot.sent))
    {
      var input := ReadDate(text, planner.GetUserCurrentTime(chatId, clock));
      threw := false;
      match input
      case DateCancel =>
        session.state := UserState.None;
        session.currentPlan := null;
        bot.SendMessage(chatId, Cancelled, Some(MainKeyboard));
      case DatePrompt =>
        bot.SendMessage(chatId, EnterDate, Option.None);
      case DateInvalid =>
        bot.SendMessage(chatId, BadDate, Option.None);
      case DateOverflow =>
        threw := true;
      case DateChosen(date) =>
        var id := planner.NewId();
        var plan := new PlanItem(id, chatId, date);
        session.currentPlan := plan;
        session.state := UserState.WaitingForTime;
        bot.SendMessage(chatId, DateAccepted(date), Some(TimeQuickSelectKeyboard));
    }

    /** The time step (state `WaitingForTime`): the chosen time of day replaces
        the one of the current plan, on the same date. */
    method HandleTimeSelection(bot: BotClient, chatId: int, text: string, session: UserSession)
      requires session.currentPlan != null
      modifies bot, session`state, session`currentPlan, session.currentPlan`dateTime
      ensures session.Valid()
      ensures var p := old(session.currentPlan); var input := ReadTime(text);
        && p.dateTime == (if input.TimeChosen? then AtTime(old(p.dateTime), input.span) else old(p.dateTime))
        && (input.TimeCancel? ==>
              session.state == UserState.None && session.currentPlan == null
              && bot.sent == old(bot.sent) + [Outgoing(chatId, Cancelled, Some(MainKeyboard))])
        && (input.TimeChosen? ==>
              session.state == UserState.WaitingForDescription && session.currentPlan == p
              && bot.sent == old(bot.sent) + [Outgoing(chatId, TimeAccepted(p.dateTime), Some(CancelKeyboard))])
        && (input.TimePrompt? || input.TimeInvalid? ==>
              session.state == old(session.state) && session.currentPlan == p)
        && (input.TimePrompt? ==> bot.sent == old(bot.sent) + [Outgoing(chatId, EnterTime, Option.None)])
        && (input.TimeInvalid? ==> bot.sent == old(bot.sent) + [Outgoing(chatId, BadTime, Option.None)])
    {
      var p := session.currentPlan;
      match ReadTime(text)
      case TimeCancel =>
        session.state := UserState.None;
        session.currentPlan := null;
        bot.SendMessage(chatId, Cancelled, Some(MainKeyboard));
      case TimePrompt =>
        bot.SendMessage(chatId, EnterTime, Option.None);
      case TimeInvalid =>
        bot.SendMessage(chatId, BadTime, Option.None);
      case TimeChosen(span) =>
        p.dateTime := AtTime(p.dateTime, span);
        session.state := UserState.WaitingForDescription;
        bot.SendMessage(chatId, TimeAccepted(p.dateTime), Some(CancelKeyboard));
    }

    /** The description step (state `WaitingForDescription`). Cancelling here
        keeps the current plan. */
    method HandleDescription(bot: BotClient, chatId: int, text: string, session: UserSession)
      requires session.currentPlan != null
      modifies bot, session`state, session.currentPlan`description
      ensures session.Valid()
      ensures var p := session.currentPlan;
        if IsCancel(text) then
          && session.state == UserState.None && p.description == old(p.description)
          && bot.sent == old(bot.sent) + [Outgoing(chatId, Cancelled, Some(MainKeyboard))]
        else
          && session.state == UserState.WaitingForNotificationTime && p.description == text
          && bot.sent == old(bot.sent) + [Outgoing(chatId, AskNotification, Some(NotificationTimeKeyboard))]
    {
      if IsCancel(text) {
        session.state := UserState.None;
        bot.SendMessage(chatId, Cancelled, Some(MainKeyboard));
        return;
      }
      session.currentPlan.description := text;
      session.state := UserState.WaitingForNotificationTime;
      bot.SendMessage(chatId, AskNotification, Some(NotificationTimeKeyboard));
    }

    /** The reminder step (state `WaitingForNotificationTime`). */
    method HandleNotificationTime(bot: BotClient, chatId: int, text: string, session: UserSession)
      requires session.currentPlan != null
      modifies bot, session`state, session.currentPlan`notificationMinutes
      ensures session.Valid()
      ensures var p := session.currentPlan;
        if IsCancel(text) then
          && session.state == UserState.None && p.notificationMinutes == old(p.notificationMinutes)
          && bot.sent == old(bot.sent) + [Outgoing(chatId, Cancelled, Some(MainKeyboard))]
        else
          && session.state == UserState.WaitingForRecurrence
          && p.notificationMinutes == ParseNotificationMinutes(text)
          && bot.sent == old(bot.sent) + [Outgoing(chatId, AskRecurrence, Some(RecurrenceKeyboard))]
    {
      if IsCancel(text) {
        session.state := UserState.None;
        bot.SendMessage(chatId, Cancelled, Some(MainKeyboard));
        return;
      }
      session.currentPlan.notificationMinutes := ParseNotificationMinutes(text);
      session.state := UserState.WaitingForRecurrence;
      bot.SendMessage(chatId, AskRecurrence, Some(RecurrenceKeyboard));
    }

    /** The last step (state `WaitingForRecurrence`): the recurrence and its
        end date are set, the plan is saved and the dialogue ends. `threw` is
        an `AddMonths` or `AddPlan` exception; what was changed before it
        stays changed. */
    method HandleRecurrence(bot: BotClient, chatId: int, text: string, session: UserSession)
      returns (threw: bool)
      requires session.currentPlan != null
      modifies bot, session`state, session`currentPlan
      modifies session.currentPlan`recurrence, session.currentPlan`recurrenceEndDate
      modifies planner`plans, planner`nextId, planner`planSaves
      ensures session.Valid()
      ensures var p := old(session.currentPlan);
        && p.recurrence == ChosenRecurrence(text, old(p.recurrence))
        && p.recurrenceEndDate == ChosenEndDate(text, old(p.recurrence), p.dateTime, old(p.recurrenceEndDate))
      ensures var p := old(session.currentPlan);
        IsCancel(text) || EndOverflows(text, old(p.recurrence), p.dateTime) ==>
          && threw == !IsCancel(text)
          && planner.plans == old(planner.plans) && planner.nextId == old(planner.nextId)
          && planner.planSaves == old(planner.planSaves) && session.currentPlan == p
      ensures IsCancel(text) ==>
        session.state == UserState.None
        && bot.sent == old(bot.sent) + [Outgoing(chatId, Cancelled, Some(MainKeyboard))]
      ensures var p := old(session.currentPlan);
        EndOverflows(text, old(p.recurrence), p.dateTime) ==>
          session.state == old(session.state) && bot.sent == old(bot.sent)
      ensures var p := old(session.currentPlan);
        !IsCancel(text) && !EndOverflows(text, old(p.recurrence), p.dateTime) ==>
          && AddedPlan(planner, p, threw)
          && (threw ==> session.state == old(session.state) && session.currentPlan == p && bot.sent == old(bot.sent))
          && (!threw ==>
                && session.state == UserState.None && session.currentPlan == null
                && bot.sent == old(bot.sent)
                   + [Outgoing(chatId, PlanCreated(p.dateTime, p.description, p.notificationMinutes, p.recurrence), Some(MainKeyboard))])
    {
      var p := session.currentPlan;
      if IsCancel(text) {
        session.state := UserState.None;
        bot.SendMessage(chatId, Cancelled, Some(MainKeyboard));
        return false;
      }
      threw := SetRecurrence(p, text);
      if threw {
        return;
      }
      threw := planner.AddPlan(p);
      if threw {
        return;
      }
      bot.SendMessage(chatId, PlanCreated(p.dateTime, p.description, p.notificationMinutes, p.recurrence), Some(MainKeyboard));
      session.state := UserState.None;
      session.currentPlan := null;
    }
  }

  /** The part of the recurrence step before saving: the answer sets the
      recurrence and, for a recurring plan, the end date three months on.
      `overflow` is the exception `AddMonths` throws after the recurrence
      was already set. */
  method SetRecurrence(p: PlanItem, text: string) returns (overflow: bool)
    requires !IsCancel(text)
    modifies p`recurrence, p`recurrenceEndDate
    ensures p.recurrence == ChosenRecurrence(text, old(p.recurrence))
    ensures p.recurrenceEndDate == ChosenEndDate(text, old(p.recurrence), p.dateTime, old(p.recurrenceEndDate))
    ensures overflow == EndOverflows(text, old(p.recurrence), p.dateTime)
  {
    overflow := false;
    if text != NoRepeatLabel {
      p.recurrence := ParseRecurrence(text);
      if p.recurrence != RecurrenceType.None {
        var end := AddMonths(p.dateTime, 3);
        if end.None? {
          return true;
        }
        p.recurrenceEndDate := end;
      }
    }
  }

  // ---------------------------------------------------------------------
  // What the buttons mean

  /** The quick date keyboard's buttons read back as today, tomorrow and the
      day after, the prompt for a typed date, and cancelling. */
  lemma QuickDateButtons(now: DateTime)
    requires DateQuickSelectKeyboard(now).Some?
    ensures var rows := DateQuickSelectKeyboard(now).value.rows;
      && ReadDate(rows[0][0], now) == DateChosen(DateOf(now))
      && ReadDate(rows[0][1], now) == DateChosen(AddDays(DateOf(now), 1).value)
      && ReadDate(rows[1][0], now) == DateChosen(AddDays(DateOf(now), 2).value)
      && ReadDate(rows[2][0], now) == DatePrompt
      && ReadDate(rows[2][1], now) == DateCancel
  {
    AddDaysPrefix(DateOf(now));
    TodayButton(DateOf(now), now);
    TomorrowButton(AddDays(DateOf(now), 1).value, now);
    DayAfterButton(AddDays(DateOf(now), 2).value, now);
    PromptButton(now);
  }

  lemma PromptButton(now: DateTime)
    ensures ReadDate(EnterDateLabel, now) == DatePrompt
  {
    WithoutChar(EnterDateLabel, "Сегодня", 0);
    WithoutChar(EnterDateLabel, "Завтра", 0);
    WithoutChar(EnterDateLabel, "Послезавтра", 0);
  }

  lemma TodayButton(today: DateTime, now: DateTime)
    ensures ReadDate(TodayLabel(today), now) == DateChosen(DateOf(now))
  {
    var q := " (" + FormatDayMonth(today) + ")";
    ContainsInfix("📅 ", "Сегодня", q);
    assert TodayLabel(today) == "📅 " + "Сегодня" + q;
  }

  lemma TomorrowButton(tomorrow: DateTime, now: DateTime)
    requires AddDays(DateOf(now), 1).Some?
    ensures ReadDate(TomorrowLabel(tomorrow), now) == DateChosen(AddDays(DateOf(now), 1).value)
  {
    FormatChars(tomorrow);
    var q := " (" + FormatDayMonth(tomorrow) + ")";
    var t := TomorrowLabel(tomorrow);
    assert t == "📅 " + "Завтра" + q;
    WithoutChar(t, "Сегодня", 0);
    ContainsInfix("📅 ", "Завтра", q);
  }

  lemma DayAfterButton(dayAfter: DateTime, now: DateTime)
    requires AddDays(DateOf(now), 2).Some?
    ensures ReadDate(DayAfterTomorrowLabel(dayAfter), now) == DateChosen(AddDays(DateOf(now), 2).value)
  {
    FormatChars(dayAfter);
    var q := " (" + FormatDayMonth(dayAfter) + ")";
    var a := DayAfterTomorrowLabel(dayAfter);
    assert a == "📅 " + "Послезавтра" + q;
    WithoutChar(a, "Сегодня", 0);
    WithoutChar(a, "Завтра", 0);
    ContainsInfix("📅 ", "Послезавтра", q);
  }

  /** A text lacking the character `t[k]` does not contain `t`. */
  lemma WithoutChar(s: string, t: string, k: nat)
    requires k < |t| && forall i | 0 <= i < |s| :: s[i] != t[k]
    ensures !Contains(s, t)
  {
    MissingChar(s, t, k);
  }

  /** A typed date is read as exactly what "dd.MM.yyyy" parses it to. */
  lemma TypedDate(text: string, now: DateTime)
    requires ParseDate(text).Some?
    ensures ReadDate(text, now) == DateChosen(ParseDate(text).value)
  {
    var d := ParseDate(text).value;
    FormatParseDate(text);
    FormatChars(d);
    assert |text| == 10;
    assert |CancelLabel| != 10 && |MenuLabel| != 10 && |EnterDateLabel| != 10;
    WithoutChar(text, "Сегодня", 0);
    WithoutChar(text, "Завтра", 0);
    WithoutChar(text, "Послезавтра", 0);
  }

  /** Typing a date in the printed form gives that date back. */
  lemma TypedDateRoundTrip(d: DateTime, now: DateTime)
    ensures ReadDate(FormatDate(d), now) == DateChosen(DateOf(d))
  {
    ParseFormatDate(d);
    TypedDate(FormatDate(d), now);
  }

  /** `t` occurs nowhere in `s` with its `k`-th character in place. */
  lemma NotAligned(s: string, t: string, k: nat)
    requires k < |t| && forall j | k <= j && j + |t| - k <= |s| :: s[j] != t[k]
    ensures !Contains(s, t)
  {
    forall i | 0 <= i && i + |t| <= |s|
      ensures !OccursAt(s, t, i)
    {
      assert s[i..i + |t|][k] == s[i + k];
    }
  }

  /** The quick time keyboard's buttons read back as their hours, and its
      last row as the prompt for a typed time and as cancelling. */
  lemma QuickTimeButtons()
    ensures forall i :: 0 <= i < |QuickTimeLabels| ==> ReadTime(QuickTimeLabels[i]) == TimeChosen(QuickHours[i] * MsPerHour)
    ensures TimeQuickSelectKeyboard.rows[2] == [EnterTimeLabel, CancelLabel]
    ensures ReadTime(EnterTimeLabel) == TimePrompt && ReadTime(CancelLabel) == TimeCancel
  {
    forall i | 0 <= i < |QuickTimeLabels|
      ensures ReadTime(QuickTimeLabels[i]) == TimeChosen(QuickHours[i] * MsPerHour)
    {
      QuickTimeButton(i);
    }
    var e := EnterTimeLabel;
    WithoutChar(e, "09:00", 2);
    WithoutChar(e, "12:00", 2);
    WithoutChar(e, "15:00", 2);
    WithoutChar(e, "18:00", 2);
    WithoutChar(e, "20:00", 2);
    WithoutChar(e, "21:00", 2);
  }

  lemma QuickTimeButton(i: nat)
    requires i < |QuickTimeLabels|
    ensures ReadTime(QuickTimeLabels[i]) == TimeChosen(QuickHours[i] * MsPerHour)
  {
    var l := QuickTimeLabels[i];
    if i == 0 {
      assert OccursAt(l, "09:00", 2);
    } else {
      WithoutChar(l, "09:00", 1);
      if i == 1 {
        assert OccursAt(l, "12:00", 2);
      } else if i == 2 {
        WithoutChar(l, "12:00", 1);
        assert OccursAt(l, "15:00", 2);
      } else if i == 3 {
        WithoutChar(l, "12:00", 1);
        WithoutChar(l, "15:00", 1);
        assert OccursAt(l, "18:00", 2);
      } else if i == 4 {
        WithoutChar(l, "12:00", 0);
        WithoutChar(l, "15:00", 0);
        WithoutChar(l, "18:00", 0);
        assert OccursAt(l, "20:00", 2);
      } else {
        NotAligned(l, "12:00", 0);
        WithoutChar(l, "15:00", 1);
        WithoutChar(l, "18:00", 1);
        NotAligned(l, "20:00", 1);
        assert OccursAt(l, "21:00", 2);
      }
    }
  }

  /** A text contains a text as long as itself only by being it. */
  lemma SameLengthContains(s: string, t: string)
    requires |s| == |t| && Contains(s, t)
    ensures s == t
  {
    var i: int :| 0 <= i && i + |t| <= |s| && OccursAt(s, t, i);
    assert i == 0;
    assert s[..|s|] == s;
  }

  /** "hh:00" parses to hh whole hours. */
  lemma ParseWholeHour(t: string)
    requires |t| == 5 && IsDigit(t[0]) && IsDigit(t[1]) && t[2..] == ":00"
    requires 10 * DigitValue(t[0]) + DigitValue(t[1]) <= 23
    ensures ParseTime(t) == Some((10 * DigitValue(t[0]) + DigitValue(t[1])) * MsPerHour)
  {
    var hs := t[..2];
    assert hs == [t[0], t[1]] && hs[..1] == [t[0]] && [t[0]][..0] == [];
    var ms := t[3..];
    assert ms == ['0', '0'] && ms[..1] == ['0'] && ['0'][..0] == [];
    assert t[2] == ':' && AllDigits(hs) && AllDigits(ms);
    assert DigitsValue([t[0]]) == DigitValue(t[0]);
    assert DigitsValue(hs) == 10 * DigitValue(t[0]) + DigitValue(t[1]);
    assert DigitsValue(['0']) == 0;
    assert DigitsValue(ms) == 0;
  }

  /** A five-character text containing "hh:00" is "hh:00", and so parses to
      hh whole hours. */
  lemma QuickAgrees(text: string, t: string)
    requires |text| == 5 && |t| == 5 && Contains(text, t)
    requires IsDigit(t[0]) && IsDigit(t[1]) && t[2..] == ":00" && 10 * DigitValue(t[0]) + DigitValue(t[1]) <= 23
    ensures ParseTime(text) == Some((10 * DigitValue(t[0]) + DigitValue(t[1])) * MsPerHour)
  {
    SameLengthContains(text, t);
    ParseWholeHour(t);
  }

  /** A typed time is read as exactly what "hh:mm" parses it to; the quick
      times tried first agree with it. */
  lemma TypedTime(text: string)
    requires ParseTime(text).Some?
    ensures ReadTime(text) == TimeChosen(ParseTime(text).value)
  {
    assert |text| == 5;
    assert |CancelLabel| != 5 && |MenuLabel| != 5 && |EnterTimeLabel| != 5;
    if Contains(text, "09:00") {
      QuickAgrees(text, "09:00");
    } else if Contains(text, "12:00") {
      QuickAgrees(text, "12:00");
    } else if Contains(text, "15:00") {
      QuickAgrees(text, "15:00");
    } else if Contains(text, "18:00") {
      QuickAgrees(text, "18:00");
    } else if Contains(text, "20:00") {
      QuickAgrees(text, "20:00");
    } else if Contains(text, "21:00") {
      QuickAgrees(text, "21:00");
    }
  }
}
