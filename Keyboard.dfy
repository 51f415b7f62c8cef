/** The reply keyboards the bot shows, as rows of button labels, and the two
    parsers that read a pressed label back into a plan setting. A keyboard is
    a value here; how Telegram draws it is not part of this model. */
module Keyboard {
  import opened Wrappers
  import opened Text
  import opened Calendar
  import opened Models

  /** A reply keyboard: its rows of labels, and whether it hides after one press
      (`OneTimeKeyboard`). Every keyboard of the bot is resized to fit. */
  datatype Markup = Markup(rows: seq<seq<string>>, oneTime: bool)

  // ---------------------------------------------------------------------
  // Labels

  const AddLabel: string := "➕ Добавить"
  const MyPlansLabel: string := "📅 Мои планы"
  const EditLabel: string := "✏\U{FE0F} Редактировать"
  const DeleteLabel: string := "🗑 Удалить"
  const SearchLabel: string := "🔍 Поиск"
  const SettingsLabel: string := "⚙\U{FE0F} Настройки"
  const TimezoneLabel: string := "🌍 Часовой пояс"
  const HelpLabel: string := "❓ Помощь"
  const MainMenuLabel: string := "🏠 Главное меню"
  const MenuLabel: string := "🏠 В меню"
  const CancelLabel: string := "❌ Отмена"
  const MoscowLabel: string := "🇷🇺 Москва (UTC+3)"
  const EkaterinburgLabel: string := "🇷🇺 Екатеринбург (UTC+5)"
  const EnterDateLabel: string := "✏\U{FE0F} Ввести дату"
  const EnterTimeLabel: string := "✏\U{FE0F} Ввести время"
  const NoRepeatLabel: string := "⏭ Не повторять"
  const EditDateLabel: string := "📅 Дату"
  const EditTimeLabel: string := "🕐 Время"
  const EditDescriptionLabel: string := "📝 Описание"
  const EditNotificationLabel: string := "⏰ Уведомление"
  const EditRecurrenceLabel: string := "🔄 Повторение"
  const ByNumbersLabel: string := "🗑 По номерам (1 2 3)"
  const ByDateLabel: string := "🗑 Все на эту дату"
  const RecurringLabel: string := "🗑 Все повторяющиеся"

  /** The two buttons that abandon the dialogue. */
  predicate IsCancel(text: string) {
    text == CancelLabel || text == MenuLabel
  }

  const QuickTimeLabels: seq<string> := ["🕐 09:00", "🕐 12:00", "🕐 15:00", "🕐 18:00", "🕐 20:00", "🕐 21:00"]
  const NotificationLabels: seq<string> := ["⏰ 5 минут", "⏰ 10 минут", "⏰ 15 минут", "⏰ 30 минут", "⏰ 1 час"]
  const RecurrenceLabels: seq<string> := ["🔄 Каждый день", "🔄 Каждую неделю", "🔄 Каждый месяц", NoRepeatLabel]

  // ---------------------------------------------------------------------
  // The fixed keyboards

  const MainKeyboard: Markup :=
    Markup([[AddLabel, MyPlansLabel], [EditLabel, DeleteLabel], [SearchLabel, SettingsLabel]], false)
  const SettingsKeyboard: Markup := Markup([[TimezoneLabel], [HelpLabel, MainMenuLabel]], false)
  const TimezoneKeyboard: Markup := Markup([[MoscowLabel], [EkaterinburgLabel]], true)
  const TimeQuickSelectKeyboard: Markup :=
    Markup([QuickTimeLabels[..3], QuickTimeLabels[3..], [EnterTimeLabel, CancelLabel]], true)
  const NotificationTimeKeyboard: Markup :=
    Markup([NotificationLabels[..2], NotificationLabels[2..4], [NotificationLabels[4], CancelLabel]], true)
  const RecurrenceKeyboard: Markup := Markup([RecurrenceLabels[..2], RecurrenceLabels[2..]], true)
  const EditFieldKeyboard: Markup :=
    Markup([[EditDateLabel, EditTimeLabel], [EditDescriptionLabel, EditNotificationLabel],
            [EditRecurrenceLabel, CancelLabel]], true)
  const CancelKeyboard: Markup := Markup([[MenuLabel, CancelLabel]], true)
  const DeleteOptionsKeyboard: Markup :=
    Markup([[ByNumbersLabel], [ByDateLabel], [RecurringLabel], [MenuLabel]], true)

  // ---------------------------------------------------------------------
  // Keyboards built from dates

  function TodayLabel(today: DateTime): string {
    "📅 Сегодня (" + FormatDayMonth(today) + ")"
  }

  function TomorrowLabel(tomorrow: DateTime): string {
    "📅 Завтра (" + FormatDayMonth(tomorrow) + ")"
  }

  function DayAfterTomorrowLabel(d: DateTime): string {
    "📅 Послезавтра (" + FormatDayMonth(d) + ")"
  }

  /** The button of a date other than today and tomorrow. */
  function DateLabel(d: DateTime): string {
    "📅 " + FormatDate(d)
  }

  /** `GetDateQuickSelectKeyboard`: today, tomorrow and the day after. `None`
      is the exception `AddDays` throws when the day after tomorrow is past
      the end of the calendar. */
  function DateQuickSelectKeyboard(now: DateTime): (k: Option<Markup>)
    ensures k.Some? <==> AddDays(DateOf(now), 2).Some?
    ensures k.Some? ==>
      (&& |k.value.rows| == 3
       && k.value.rows[0] == [TodayLabel(DateOf(now)), TomorrowLabel(AddDays(DateOf(now), 1).value)]
       && k.value.rows[1] == [DayAfterTomorrowLabel(AddDays(DateOf(now), 2).value)]
       && k.value.rows[2] == [EnterDateLabel, CancelLabel])
  {
    var today := DateOf(now);
    match AddDays(today, 2)
    case None => Option.None
    case Some(dayAfter) =>
      assert AddDays(today, 1).Some? by { AddDaysPrefix(today); }
      Some(Markup([[TodayLabel(today), TomorrowLabel(AddDays(today, 1).value)],
                   [DayAfterTomorrowLabel(dayAfter)],
                   [EnterDateLabel, CancelLabel]], true))
  }

  /** If two days can be added, so can one. */
  lemma AddDaysPrefix(d: DateTime)
    requires AddDays(d, 2).Some?
    ensures AddDays(d, 1).Some?
  {
    assert AddDays(d, 2) == match NextDay(d) case None => Option.None case Some(e) => AddDays(e, 1);
    assert AddDays(d, 1) == match NextDay(d) case None => Option.None case Some(e) => AddDays(e, 0);
  }

  /** Some date of `dates` falls on the calendar day of `d`. */
  predicate HasDay(dates: seq<DateTime>, d: DateTime) {
    exists i :: 0 <= i < |dates| && DateOf(dates[i]) == DateOf(d)
  }

  /** The dates of `dates` on neither of the two given days, in order. */
  function OtherDates(dates: seq<DateTime>, today: DateTime, tomorrow: DateTime): (r: seq<DateTime>)
    ensures |r| <= |dates|
    ensures forall i :: 0 <= i < |r| ==> r[i] in dates && DateOf(r[i]) != DateOf(today) && DateOf(r[i]) != DateOf(tomorrow)
  {
    if |dates| == 0 then []
    else
      var rest := OtherDates(dates[1..], today, tomorrow);
      if DateOf(dates[0]) != DateOf(today) && DateOf(dates[0]) != DateOf(tomorrow) then [dates[0]] + rest else rest
  }

  /** Labels two to a row, the last row holding one when their number is odd. */
  function PairRows(labels: seq<string>): seq<seq<string>>
    decreases |labels|
  {
    if |labels| == 0 then []
    else if |labels| == 1 then [labels]
    else [labels[..2]] + PairRows(labels[2..])
  }

  function Flatten(rows: seq<seq<string>>): seq<string> {
    if |rows| == 0 then [] else rows[0] + Flatten(rows[1..])
  }

  function DateLabels(dates: seq<DateTime>): (r: seq<string>)
    ensures |r| == |dates| && forall i :: 0 <= i < |dates| ==> r[i] == DateLabel(dates[i])
  {
    if |dates| == 0 then [] else [DateLabel(dates[0])] + DateLabels(dates[1..])
  }

  /** The rows `GetDatesKeyboard` lays out: today and tomorrow first if any
      plan falls on them, then the other dates two to a row, then the menu
      button. `None` is the exception `AddDays(1)` throws on the last day of
      the calendar, which the source reaches as soon as the list is not
      empty. */
  function DatesRows(dates: seq<DateTime>, today: DateTime): Option<seq<seq<string>>> {
    if |dates| > 0 && NextDay(today).None? then Option.None
    else if |dates| == 0 then Some([[MenuLabel]])
    else
      var tomorrow := NextDay(today).value;
      var first := FirstRow(dates, today, tomorrow);
      Some((if |first| > 0 then [first] else []) + PairRows(DateLabels(OtherDates(dates, today, tomorrow))) + [[MenuLabel]])
  }

  /** The today button if a date falls on today, then the tomorrow button if one falls on tomorrow. */
  function FirstRow(dates: seq<DateTime>, today: DateTime, tomorrow: DateTime): seq<string> {
    (if HasDay(dates, today) then [TodayLabel(today)] else [])
    + (if HasDay(dates, tomorrow) then [TomorrowLabel(tomorrow)] else [])
  }

  /** `GetDatesKeyboard`. */
  method GetDatesKeyboard(dates: seq<DateTime>, today: DateTime) returns (k: Option<Markup>)
    ensures k.Some? <==> DatesRows(dates, today).Some?
    ensures k.Some? ==> k.value == Markup(DatesRows(dates, today).value, true)
  {
    if |dates| > 0 && NextDay(today).None? {
      return Option.None;
    }
    if |dates| == 0 {
      return Some(Markup([[MenuLabel]], true));
    }
    var tomorrow := NextDay(today).value;
    var firstRow: seq<string> := [];
    if HasDay(dates, today) {
      firstRow := firstRow + [TodayLabel(today)];
    }
    if HasDay(dates, tomorrow) {
      firstRow := firstRow + [TomorrowLabel(tomorrow)];
    }
    assert firstRow == FirstRow(dates, today, tomorrow);
    var rows: seq<seq<string>> := if |firstRow| > 0 then [firstRow] else [];
    var otherRows := PairUp(DateLabels(OtherDates(dates, today, tomorrow)));
    rows := rows + otherRows + [[MenuLabel]];
    return Some(Markup(rows, true));
  }

  /** The `for (i = 0; i < n; i += 2)` loop of `GetDatesKeyboard`: one row per
      step, holding the label at `i` and, if there is one, the label after it. */
  method PairUp(labels: seq<string>) returns (rows: seq<seq<string>>)
    ensures rows == PairRows(labels)
  {
    rows := [];
    var i := 0;
    while i < |labels|
      invariant 0 <= i <= |labels| + 1 && i % 2 == 0
      invariant rows == PairRows(labels[..if i <= |labels| then i else |labels|])
      decreases |labels| - i
    {
      var row := [labels[i]];
      if i + 1 < |labels| {
        row := row + [labels[i + 1]];
      }
      PairRowsSnoc(labels[..i], row);
      assert labels[..i] + row == labels[..if i + 2 <= |labels| then i + 2 else |labels|];
      rows := rows + [row];
      i := i + 2;
    }
    assert labels[..if i <= |labels| then i else |labels|] == labels;
  }

  /** Appending a row of one or two labels to an even number of labels appends that row. */
  lemma {:induction false} PairRowsSnoc(labels: seq<string>, row: seq<string>)
    requires |labels| % 2 == 0 && 1 <= |row| <= 2
    ensures PairRows(labels + row) == PairRows(labels) + [row]
    decreases |labels|
  {
    if |labels| == 0 {
      assert labels + row == row;
      if |row| == 2 {
        assert row[..2] == row && row[2..] == [];
      }
    } else {
      assert (labels + row)[..2] == labels[..2];
      assert (labels + row)[2..] == labels[2..] + row;
      PairRowsSnoc(labels[2..], row);
    }
  }

  /** The pairing keeps every label, in order, and puts one or two in each row. */
  lemma {:induction false} PairRowsLayout(labels: seq<string>)
    ensures Flatten(PairRows(labels)) == labels
    ensures forall j :: 0 <= j < |PairRows(labels)| ==> 1 <= |PairRows(labels)[j]| <= 2
    ensures |PairRows(labels)| == (|labels| + 1) / 2
    decreases |labels|
  {
    if |labels| > 1 {
      PairRowsLayout(labels[2..]);
      var rest := PairRows(labels[2..]);
      assert PairRows(labels) == [labels[..2]] + rest;
      assert ([labels[..2]] + rest)[1..] == rest;
      assert labels == labels[..2] + labels[2..];
    } else if |labels| == 1 {
      assert Flatten([labels]) == labels + Flatten([]);
    }
  }

  /** `OtherDates` keeps exactly the dates on neither day, in order. */
  lemma {:induction false} OtherDatesExact(dates: seq<DateTime>, today: DateTime, tomorrow: DateTime)
    ensures forall i :: 0 <= i < |dates| && DateOf(dates[i]) != DateOf(today) && DateOf(dates[i]) != DateOf(tomorrow) ==>
      dates[i] in OtherDates(dates, today, tomorrow)
    decreases |dates|
  {
    if |dates| > 0 {
      OtherDatesExact(dates[1..], today, tomorrow);
      forall i | 0 <= i < |dates| && DateOf(dates[i]) != DateOf(today) && DateOf(dates[i]) != DateOf(tomorrow)
        ensures dates[i] in OtherDates(dates, today, tomorrow)
      {
        if i > 0 {
          assert dates[1..][i - 1] == dates[i];
        }
      }
    }
  }

  /** The layout `GetDatesKeyboard` promises: the first row holds the today
      and tomorrow buttons exactly when plans fall on those days, every other
      date gets exactly one button, in order, at most two to a row, and the
      last row is the menu button. */
  lemma DatesKeyboardLayout(dates: seq<DateTime>, today: DateTime)
    requires |dates| > 0 && DatesRows(dates, today).Some?
    ensures var rows := DatesRows(dates, today).value;
      var tomorrow := NextDay(today).value;
      var others := OtherDates(dates, today, tomorrow);
      var first := if HasDay(dates, today) || HasDay(dates, tomorrow) then 1 else 0;
      && |rows| == first + (|others| + 1) / 2 + 1
      && rows[|rows| - 1] == [MenuLabel]
      && (first == 1 ==> (TodayLabel(today) in rows[0] <==> HasDay(dates, today))
                         && (TomorrowLabel(tomorrow) in rows[0] <==> HasDay(dates, tomorrow)))
      && Flatten(rows[first..|rows| - 1]) == DateLabels(others)
      && (forall j :: first <= j < |rows| - 1 ==> 1 <= |rows[j]| <= 2)
      && (forall i :: 0 <= i < |dates| && DateOf(dates[i]) != DateOf(today) && DateOf(dates[i]) != DateOf(tomorrow) ==>
            dates[i] in others)
  {
    var rows := DatesRows(dates, today).value;
    var tomorrow := NextDay(today).value;
    var others := OtherDates(dates, today, tomorrow);
    var paired := PairRows(DateLabels(others));
    PairRowsLayout(DateLabels(others));
    OtherDatesExact(dates, today, tomorrow);
    var first := if HasDay(dates, today) || HasDay(dates, tomorrow) then 1 else 0;
    assert rows[first..|rows| - 1] == paired;
    if first == 1 {
      TodayTomorrowLabelsDiffer(today, tomorrow);
    }
  }

  /** The today and tomorrow buttons are told apart by their words. */
  lemma TodayTomorrowLabelsDiffer(today: DateTime, tomorrow: DateTime)
    ensures TodayLabel(today) != TomorrowLabel(tomorrow)
  {
    assert TodayLabel(today)[2] == 'С';
    assert TomorrowLabel(tomorrow)[2] == 'З';
  }

  // ---------------------------------------------------------------------
  // Parsers

  /** `ParseNotificationMinutes`: the first of "5", "15", "30" and "час" the
      text contains decides, and 10 is the default. */
  function ParseNotificationMinutes(text: string): (m: int)
    ensures m == 5 || m == 10 || m == 30 || m == 60
    ensures m == 5 <==> Contains(text, "5")
    ensures m == 30 <==> !Contains(text, "5") && Contains(text, "30")
    ensures m == 60 <==> !Contains(text, "5") && !Contains(text, "30") && Contains(text, "час")
    ensures m == 10 <==> !Contains(text, "5") && !Contains(text, "30") && !Contains(text, "час")
  {
    if Contains(text, "5") then 5
    else
      assert !Contains(text, "15") by {
        if Contains(text, "15") {
          FifteenHasFive(text);
        }
      }
      if Contains(text, "15") then 15
      else if Contains(text, "30") then 30
      else if Contains(text, "час") then 60
      else 10
  }

  /** Every text with "15" in it contains "5", which is checked first: the
      15-minute branch is dead and "⏰ 15 минут" gives 5. */
  lemma FifteenGivesFive(text: string)
    requires Contains(text, "15")
    ensures ParseNotificationMinutes(text) == 5
  {
    FifteenHasFive(text);
  }

  lemma FifteenHasFive(text: string)
    requires Contains(text, "15")
    ensures Contains(text, "5")
  {
    assert OccursAt("15", "5", 1);
    ContainsTransitive(text, "15", "5");
  }

  /** `ParseRecurrence`: "день", "неделю", "месяц", first match wins. */
  function ParseRecurrence(text: string): (r: RecurrenceType)
    ensures r == RecurrenceType.Daily <==> Contains(text, "день")
    ensures r == RecurrenceType.Weekly <==> !Contains(text, "день") && Contains(text, "неделю")
    ensures r == RecurrenceType.Monthly <==> !Contains(text, "день") && !Contains(text, "неделю") && Contains(text, "месяц")
  {
    if Contains(text, "день") then RecurrenceType.Daily
    else if Contains(text, "неделю") then RecurrenceType.Weekly
    else if Contains(text, "месяц") then RecurrenceType.Monthly
    else RecurrenceType.None
  }

  /** A text lacking one of the characters of `t` does not contain `t`. */
  lemma MissingChar(s: string, t: string, k: nat)
    requires k < |t| && t[k] !in s
    ensures !Contains(s, t)
  {
  }

  /** The recurrence keyboard's four buttons give four different settings:
      daily, weekly, monthly and none. */
  lemma RecurrenceLabelsParse()
    ensures ParseRecurrence(RecurrenceLabels[0]) == RecurrenceType.Daily
    ensures ParseRecurrence(RecurrenceLabels[1]) == RecurrenceType.Weekly
    ensures ParseRecurrence(RecurrenceLabels[2]) == RecurrenceType.Monthly
    ensures ParseRecurrence(RecurrenceLabels[3]) == RecurrenceType.None
  {
    assert OccursAt(RecurrenceLabels[0], "день", 9);
    MissingChar(RecurrenceLabels[1], "день", 3);
    assert OccursAt(RecurrenceLabels[1], "неделю", 9);
    MissingChar(RecurrenceLabels[2], "день", 3);
    MissingChar(RecurrenceLabels[2], "неделю", 0);
    assert OccursAt(RecurrenceLabels[2], "месяц", 9);
    MissingChar(RecurrenceLabels[3], "день", 0);
    MissingChar(RecurrenceLabels[3], "неделю", 2);
    MissingChar(RecurrenceLabels[3], "месяц", 0);
  }

  /** What the notification keyboard's buttons give: 5, 10, 5 (not 15), 30
      and 60 minutes. */
  lemma NotificationLabelsParse()
    ensures ParseNotificationMinutes(NotificationLabels[0]) == 5
    ensures ParseNotificationMinutes(NotificationLabels[1]) == 10
    ensures ParseNotificationMinutes(NotificationLabels[2]) == 5
    ensures ParseNotificationMinutes(NotificationLabels[3]) == 30
    ensures ParseNotificationMinutes(NotificationLabels[4]) == 60
  {
    assert OccursAt(NotificationLabels[0], "5", 2);
    MissingChar(NotificationLabels[1], "5", 0);
    MissingChar(NotificationLabels[1], "30", 0);
    MissingChar(NotificationLabels[1], "час", 0);
    assert OccursAt(NotificationLabels[2], "15", 2);
    FifteenGivesFive(NotificationLabels[2]);
    MissingChar(NotificationLabels[3], "5", 0);
    assert OccursAt(NotificationLabels[3], "30", 2);
    MissingChar(NotificationLabels[4], "5", 0);
    MissingChar(NotificationLabels[4], "30", 0);
    assert OccursAt(NotificationLabels[4], "час", 4);
  }
}
