/** `CommandHandler`: browsing the plans of a date picked from a keyboard of
    the dates that have plans, searching by keyword, and the help text. */
module Commands {
  import opened Wrappers
  import opened Text
  import opened Calendar
  import opened Models
  import opened Keyboard
  import opened Planner
  import opened Messages
  import opened Seqs

  /** How many search results are shown. */
  const SearchListLength: nat := 15
  /** What a date button starts with. */
  const DateButtonPrefix: string := "📅 "

  /** The date a message names: a date, a text naming none, or the exception
      that building the date raises. */
  datatype TargetDate = Target(date: DateTime) | Unrecognized | TargetThrew

  /** How `HandleDateSelection` reads the button pressed, `now` being the
      chat's local time and `serverNow` the machine's: "Сегодня" and "Завтра"
      anywhere in the text, otherwise the text without its calendar icons,
      trimmed, as "dd.MM.yyyy" or else as "dd.MM" of the chat's year. */
  function SelectedDate(text: string, now: DateTime, serverNow: DateTime): (r: TargetDate)
    ensures Contains(text, "Сегодня") ==> r == Target(DateOf(now))
    ensures !Contains(text, "Сегодня") && Contains(text, "Завтра") ==>
      r == (if AddDays(DateOf(now), 1).Some? then Target(AddDays(DateOf(now), 1).value) else TargetThrew)
    ensures r.Target? ==> r.date.millis == 0
    ensures r.Unrecognized? ==>
      var s := Trim(ReplaceAll(text, DateButtonPrefix, ""));
      ParseDate(s).None? && ParseDayMonth(s, serverNow).None?
  {
    if Contains(text, "Сегодня") then Target(DateOf(now))
    else if Contains(text, "Завтра") then
      match AddDays(DateOf(now), 1)
      case Some(d) => Target(d)
      case None => TargetThrew
    else
      var s := Trim(ReplaceAll(text, DateButtonPrefix, ""));
      match ParseDate(s)
      case Some(d) => Target(d)
      case None =>
        match ParseDayMonth(s, serverNow)
        case None => Unrecognized
        case Some(dm) =>
          match MakeDate(now.year, dm.month, dm.day)
          case Some(d) => Target(d)
          case None => TargetThrew
  }

  /** The today button of the dates keyboard shows the chat's today. */
  lemma TodayDateButton(today: DateTime, now: DateTime, serverNow: DateTime)
    ensures SelectedDate(TodayLabel(today), now, serverNow) == Target(DateOf(now))
  {
    assert Contains(TodayLabel(today), "Сегодня") by {
      var q := " (" + FormatDayMonth(today) + ")";
      assert TodayLabel(today) == DateButtonPrefix + "Сегодня" + q;
      ContainsInfix(DateButtonPrefix, "Сегодня", q);
    }
  }

  /** The tomorrow button of the dates keyboard shows the chat's tomorrow. */
  lemma TomorrowDateButton(tomorrow: DateTime, now: DateTime, serverNow: DateTime)
    requires AddDays(DateOf(now), 1).Some?
    ensures SelectedDate(TomorrowLabel(tomorrow), now, serverNow) == Target(AddDays(DateOf(now), 1).value)
  {
    FormatChars(tomorrow);
    var q := " (" + FormatDayMonth(tomorrow) + ")";
    var t := TomorrowLabel(tomorrow);
    assert t == DateButtonPrefix + "Завтра" + q;
    MissingChar(t, "Сегодня", 0);
    ContainsInfix(DateButtonPrefix, "Завтра", q);
  }

  /** Any other button of the dates keyboard shows its own date. */
  lemma DateButton(d: DateTime, now: DateTime, serverNow: DateTime)
    ensures SelectedDate(DateLabel(d), now, serverNow) == Target(DateOf(d))
  {
    FormatChars(d);
    var f := FormatDate(d);
    var t := DateLabel(d);
    assert t == DateButtonPrefix + f;
    assert forall c :: c in t ==> c in DateButtonPrefix || c in f;
    MissingChar(t, "Сегодня", 0);
    MissingChar(t, "Завтра", 0);
    ReplacePrefix(f);
    PlainTrim(f);
    ParseFormatDate(d);
  }

  /** Taking the icon off a date button leaves the date. */
  lemma ReplacePrefix(f: string)
    requires forall c :: c in f ==> IsDigit(c) || c == '.'
    ensures ReplaceAll(DateButtonPrefix + f, DateButtonPrefix, "") == f
  {
    var s := DateButtonPrefix + f;
    assert StartsWith(s, DateButtonPrefix);
    assert s[|DateButtonPrefix|..] == f;
    MissingChar(f, DateButtonPrefix, 0);
  }

  /** Trimming a text of digits and dots changes nothing. */
  lemma PlainTrim(f: string)
    requires forall c :: c in f ==> IsDigit(c) || c == '.'
    ensures Trim(f) == f
  {
    assert |f| > 0 ==> f[0] in f && f[|f| - 1] in f;
    assert TrimStart(f) == f;
    assert TrimEnd(f) == f;
  }

  /** A "dd.MM" text names that day of the chat's year, provided the day
      exists in the machine's year too. */
  lemma DayMonthText(s: string, now: DateTime, serverNow: DateTime)
    requires ParseDate(s).None? && ParseDayMonth(s, serverNow).Some?
    requires forall c :: c in s ==> IsDigit(c) || c == '.'
    ensures var dm := ParseDayMonth(s, serverNow).value;
      SelectedDate(s, now, serverNow) == match MakeDate(now.year, dm.month, dm.day)
        case Some(d) => Target(d)
        case None => TargetThrew
  {
    assert !Contains(s, "Сегодня") && !Contains(s, "Завтра") by {
      MissingChar(s, "Сегодня", 0);
      MissingChar(s, "Завтра", 0);
    }
    assert Trim(ReplaceAll(s, DateButtonPrefix, "")) == s by {
      MissingChar(s, DateButtonPrefix, 0);
      PlainTrim(s);
    }
  }

  /** What `HandleViewPlans` did with the dates `dates` that have plans:
      a message when there are none, otherwise the dates keyboard, unless
      building it threw, in which case nothing is sent. */
  twostate predicate OfferedDates(bot: BotClient, chatId: int, dates: seq<DateTime>, now: DateTime, threw: bool)
    reads bot
  {
    && (|dates| == 0 ==> !threw && bot.sent == old(bot.sent) + [Outgoing(chatId, NoPlans, Some(MainKeyboard))])
    && (|dates| > 0 ==> (threw <==> DatesRows(dates, now).None?))
    && (|dates| > 0 && threw ==> bot.sent == old(bot.sent))
    && (|dates| > 0 && !threw ==>
          bot.sent == old(bot.sent) + [Outgoing(chatId, ChooseDate, Some(Markup(DatesRows(dates, now).value, true)))])
  }

  /** The plans `plans` of `date` were shown, or that there are none. */
  twostate predicate ShownDate(bot: BotClient, chatId: int, date: DateTime, plans: seq<PlanItem>)
    reads bot, plans
  {
    bot.sent == old(bot.sent)
      + [Outgoing(chatId, if |plans| == 0 then NoPlansOn(date) else PlansOn(date, old(Views(plans))), Some(MainKeyboard))]
  }

  /** The search results `results` were shown, or that there are none. */
  twostate predicate ShownResults(bot: BotClient, chatId: int, query: string, results: seq<PlanItem>)
    reads bot, results
  {
    bot.sent == old(bot.sent)
      + [Outgoing(chatId, if |results| == 0 then NothingFound(query)
                         else Found(|results|, old(Views(Take(results, SearchListLength)))), Some(MainKeyboard))]
  }

  class CommandHandler {
    const planner: PlannerService

    constructor (planner: PlannerService)
      ensures this.planner == planner
    {
      this.planner := planner;
    }

    /** Offers the dates that have upcoming plans as buttons. `threw` is the
        exception building the keyboard raises on the last day of the
        calendar. */
    method HandleViewPlans(bot: BotClient, chatId: int, clock: Clock) returns (threw: bool)
      modifies bot
      ensures var now := old(planner.GetUserCurrentTime(chatId, clock));
        OfferedDates(bot, chatId, old(planner.GetDatesWithPlans(chatId, now)), now, threw)
    {
      var now := planner.GetUserCurrentTime(chatId, clock);
      var dates := planner.GetDatesWithPlans(chatId, now);
      threw := OfferDates(bot, chatId, dates, now);
    }

    /** The part of `HandleViewPlans` after the query. */
    method OfferDates(bot: BotClient, chatId: int, dates: seq<DateTime>, now: DateTime) returns (threw: bool)
      modifies bot
      ensures OfferedDates(bot, chatId, dates, now, threw)
    {
      if |dates| == 0 {
        bot.SendMessage(chatId, NoPlans, Some(MainKeyboard));
        return false;
      }
      var keyboard := GetDatesKeyboard(dates, now);
      if keyboard.None? {
        return true;
      }
      bot.SendMessage(chatId, ChooseDate, keyboard);
      return false;
    }

    /** Shows the plans of the date the button names. */
    method HandleDateSelection(bot: BotClient, chatId: int, text: string, clock: Clock) returns (threw: bool)
      modifies bot
      ensures var target := SelectedDate(text, old(planner.GetUserCurrentTime(chatId, clock)), clock.serverNow);
        && (threw <==> target.TargetThrew?)
        && (target.TargetThrew? ==> bot.sent == old(bot.sent))
        && (target.Unrecognized? ==> bot.sent == old(bot.sent) + [Outgoing(chatId, UnknownDate, Some(MainKeyboard))])
        && (target.Target? ==> ShownDate(bot, chatId, target.date, old(planner.GetPlansForDate(chatId, target.date))))
    {
      var now := planner.GetUserCurrentTime(chatId, clock);
      var target := SelectedDate(text, now, clock.serverNow);
      match target
      case TargetThrew =>
        return true;
      case Unrecognized =>
        bot.SendMessage(chatId, UnknownDate, Some(MainKeyboard));
        return false;
      case Target(date) =>
        var plans := planner.GetPlansForDate(chatId, date);
        ShowDate(bot, chatId, date, plans);
        return false;
    }

    /** The part of `HandleDateSelection` after the query. */
    method ShowDate(bot: BotClient, chatId: int, date: DateTime, plans: seq<PlanItem>)
      modifies bot
      ensures ShownDate(bot, chatId, date, plans)
    {
      if |plans| == 0 {
        bot.SendMessage(chatId, NoPlansOn(date), Some(MainKeyboard));
      } else {
        bot.SendMessage(chatId, PlansOn(date, Views(plans)), Some(MainKeyboard));
      }
    }

    method StartSearch(bot: BotClient, chatId: int, session: UserSession)
      modifies bot, session`state
      ensures session.state == UserState.WaitingForSearchQuery
      ensures bot.sent == old(bot.sent) + [Outgoing(chatId, EnterQuery, Some(CancelKeyboard))]
    {
      session.state := UserState.WaitingForSearchQuery;
      bot.SendMessage(chatId, EnterQuery, Some(CancelKeyboard));
    }

    /** Lists the chat's plans whose description holds the query, the
        first fifteen by date under the total; the dialogue ends either way. */
    method HandleSearch(bot: BotClient, chatId: int, query: string, session: UserSession)
      modifies bot, session`state
      ensures session.state == UserState.None
      ensures IsCancel(query) ==> bot.sent == old(bot.sent) + [Outgoing(chatId, Cancelled, Some(MainKeyboard))]
      ensures !IsCancel(query) ==> ShownResults(bot, chatId, query, old(planner.SearchPlans(chatId, query)))
    {
      if IsCancel(query) {
        session.state := UserState.None;
        bot.SendMessage(chatId, Cancelled, Some(MainKeyboard));
        return;
      }
      var results := planner.SearchPlans(chatId, query);
      ShowResults(bot, chatId, query, results);
      session.state := UserState.None;
    }

    /** The part of `HandleSearch` after the query. */
    method ShowResults(bot: BotClient, chatId: int, query: string, results: seq<PlanItem>)
      modifies bot
      ensures ShownResults(bot, chatId, query, results)
    {
      if |results| == 0 {
        bot.SendMessage(chatId, NothingFound(query), Some(MainKeyboard));
      } else {
        bot.SendMessage(chatId, Found(|results|, Views(Take(results, SearchListLength))), Some(MainKeyboard));
      }
    }

    method HandleHelp(bot: BotClient, chatId: int)
      modifies bot
      ensures bot.sent == old(bot.sent) + [Outgoing(chatId, Help, Some(MainKeyboard))]
    {
      bot.SendMessage(chatId, Help, Some(MainKeyboard));
    }
  }
}
