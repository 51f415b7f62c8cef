/** `TelegramBotService`: where every message enters (the rate limit, the
    per-chat sessions, the routing on the session state and then on the
    command typed), the few steps it answers itself (start, time zone,
    settings, the first step of creating a plan), and one pass of each of
    the two minute timers (the morning digest and the reminders). */
module BotService {
  import opened Wrappers
  import opened Text
  import opened Calendar
  import opened Models
  import opened Keyboard
  import opened Planner
  import opened Messages
  import opened Creation
  import opened Editing
  import opened Deletion
  import opened Commands
  import opened Seqs

  /** `MAX_DESCRIPTION_LENGTH`, in UTF-16 code units. */
  const MaxDescriptionLength: nat := 500
  /** `MAX_PLANS_PER_USER`, compared with the chat's upcoming plans. */
  const MaxPlansPerUser: nat := 200
  /** `_commandCooldown`, in milliseconds. */
  const CommandCooldown: int := 500
  const EkaterinburgTimeZoneId: string := "Ekaterinburg Standard Time"

  /** The part of a Telegram update the bot reads: the chat, whether the
      message is a voice message, and its text if it has one. */
  datatype Message = Message(chatId: int, hasVoice: bool, text: Option<string>)

  // ---------------------------------------------------------------------
  // The rate limit

  /** Whether `CheckRateLimit` lets a message of `chatId` arriving at `now`
      through, `last` being `_lastCommandTime`: only when the chat has a time
      there and `now` is at least the cooldown after it. */
  predicate Accepts(last: map<int, DateTime>, chatId: int, now: DateTime) {
    chatId in last && Ticks(now) - Ticks(last[chatId]) >= CommandCooldown
  }

  /** Whether an update carries a message the rate limit lets through. */
  predicate Passes(update: Option<Message>, last: map<int, DateTime>, now: DateTime) {
    update.Some? && Accepts(last, update.value.chatId, now)
  }

  /** `_lastCommandTime` after the check: `GetOrAdd` records `now` for a chat
      it has not seen, and an accepted message records `now`. */
  function AfterCheck(last: map<int, DateTime>, chatId: int, now: DateTime): map<int, DateTime> {
    if chatId !in last || Accepts(last, chatId, now) then last[chatId := now] else last
  }

  /** `_lastCommandTime` after messages of `chatId` arrived at the times
      `arrivals`, in that order. */
  function Replay(last: map<int, DateTime>, chatId: int, arrivals: seq<DateTime>): map<int, DateTime>
    decreases |arrivals|
  {
    if |arrivals| == 0 then last
    else
      var k := |arrivals| - 1;
      AfterCheck(Replay(last, chatId, arrivals[..k]), chatId, arrivals[k])
  }

  /** Whether the `i`-th of those messages got through. */
  predicate AcceptedAt(last: map<int, DateTime>, chatId: int, arrivals: seq<DateTime>, i: nat)
    requires i < |arrivals|
  {
    Accepts(Replay(last, chatId, arrivals[..i]), chatId, arrivals[i])
  }

  /** The first message of a chat the limiter has not seen is dropped. */
  lemma FirstMessageDropped(last: map<int, DateTime>, chatId: int, arrivals: seq<DateTime>)
    requires chatId !in last && |arrivals| > 0
    ensures !AcceptedAt(last, chatId, arrivals, 0)
    ensures Replay(last, chatId, arrivals[..1])[chatId] == arrivals[0]
  {
    assert arrivals[..0] == [];
    assert arrivals[..1][..0] == [];
  }

  /** A message at least the cooldown after the last recorded time of its
      chat, with none in between, gets through. */
  lemma {:induction false} NextAfterCooldown(last: map<int, DateTime>, chatId: int, arrivals: seq<DateTime>, i: nat)
    requires 0 < i < |arrivals| && Ticks(arrivals[i]) - Ticks(arrivals[i - 1]) >= CommandCooldown
    requires chatId !in Replay(last, chatId, arrivals[..i - 1]) || AcceptedAt(last, chatId, arrivals, i - 1)
    ensures AcceptedAt(last, chatId, arrivals, i)
  {
    assert arrivals[..i][..i - 1] == arrivals[..i - 1];
  }

  /** Messages of other chats leave a chat's recorded time alone. */
  lemma {:induction false} OtherChatsKept(last: map<int, DateTime>, chatId: int, arrivals: seq<DateTime>, other: int)
    requires other != chatId
    ensures other in Replay(last, chatId, arrivals) <==> other in last
    ensures other in last ==> Replay(last, chatId, arrivals)[other] == last[other]
    decreases |arrivals|
  {
    if |arrivals| > 0 {
      OtherChatsKept(last, chatId, arrivals[..|arrivals| - 1], other);
    }
  }

  /** The recorded time of a chat, once there, never moves back. */
  lemma {:induction false} RecordedTimeGrows(last: map<int, DateTime>, chatId: int, arrivals: seq<DateTime>, i: nat, j: nat)
    requires i <= j <= |arrivals| && chatId in Replay(last, chatId, arrivals[..i])
    ensures chatId in Replay(last, chatId, arrivals[..j])
    ensures Ticks(Replay(last, chatId, arrivals[..j])[chatId]) >= Ticks(Replay(last, chatId, arrivals[..i])[chatId])
    decreases j - i
  {
    if i < j {
      RecordedTimeGrows(last, chatId, arrivals, i, j - 1);
      assert arrivals[..j][..j - 1] == arrivals[..j - 1];
    }
  }

  /** Any two messages of a chat that get through are at least the cooldown
      apart, whatever the order of the arrival times. */
  lemma AcceptedSpaced(last: map<int, DateTime>, chatId: int, arrivals: seq<DateTime>, i: nat, j: nat)
    requires i < j < |arrivals| && AcceptedAt(last, chatId, arrivals, i) && AcceptedAt(last, chatId, arrivals, j)
    ensures Ticks(arrivals[j]) - Ticks(arrivals[i]) >= CommandCooldown
  {
    assert arrivals[..i + 1][..i] == arrivals[..i];
    assert Replay(last, chatId, arrivals[..i + 1])[chatId] == arrivals[i];
    RecordedTimeGrows(last, chatId, arrivals, i + 1, j);
  }

  // ---------------------------------------------------------------------
  // The commands

  /** What `HandleCommandAsync` makes of a text: a command or main-menu
      button, a date button, or nothing it knows. */
  datatype Command =
    | StartCommand
    | AddCommand
    | PlansCommand
    | EditCommand
    | DeleteCommand
    | SearchCommand
    | SettingsCommand
    | HelpCommand
    | TimezoneCommand
    | DateCommand
    | NotACommand

  /** The date-button test: the calendar icon first, then "Сегодня" or
      "Завтра", or a dot in a text longer than ten UTF-16 code units. The
      prefix test is ordinal, where the source's `StartsWith(string)` compares
      under the current culture. */
  predicate IsDateSelection(text: string) {
    StartsWith(text, DateButtonPrefix)
    && (Contains(text, "Сегодня") || Contains(text, "Завтра") || (Contains(text, ".") && Utf16Length(text) > 10))
  }

  function CommandOf(text: string): Command {
    if text == "/start" then StartCommand
    else if text == AddLabel || text == "/add" then AddCommand
    else if text == MyPlansLabel || text == "/plans" then PlansCommand
    else if text == EditLabel || text == "/edit" then EditCommand
    else if text == DeleteLabel || text == "/delete" then DeleteCommand
    else if text == SearchLabel || text == "/search" then SearchCommand
    else if text == SettingsLabel || text == "/settings" then SettingsCommand
    else if text == HelpLabel || text == "/help" then HelpCommand
    else if text == TimezoneLabel then TimezoneCommand
    else if IsDateSelection(text) then DateCommand
    else NotACommand
  }

  /** The six main-menu buttons name six different commands, and the
      settings keyboard's time-zone and help buttons name theirs. */
  lemma KeyboardCommands()
    ensures var rows := MainKeyboard.rows;
      [CommandOf(rows[0][0]), CommandOf(rows[0][1]), CommandOf(rows[1][0]),
       CommandOf(rows[1][1]), CommandOf(rows[2][0]), CommandOf(rows[2][1])]
      == [AddCommand, PlansCommand, EditCommand, DeleteCommand, SearchCommand, SettingsCommand]
    ensures SettingsKeyboard.rows == [[TimezoneLabel], [HelpLabel, MainMenuLabel]]
    ensures CommandOf(TimezoneLabel) == TimezoneCommand && CommandOf(HelpLabel) == HelpCommand
  {
  }

  /** A date button is none of the fixed commands: each of those either
      lacks the calendar icon or is "📅 Мои планы", which holds no date. */
  lemma NotFixedCommand(text: string)
    requires StartsWith(text, DateButtonPrefix) && text != MyPlansLabel
    ensures CommandOf(text) == (if IsDateSelection(text) then DateCommand else NotACommand)
  {
    assert text[0] == DateButtonPrefix[0];
  }

  lemma TodayButtonIsDate(today: DateTime)
    ensures CommandOf(TodayLabel(today)) == DateCommand
  {
    var q := " (" + FormatDayMonth(today) + ")";
    var t := TodayLabel(today);
    assert t == DateButtonPrefix + "Сегодня" + q;
    assert t[..|DateButtonPrefix|] == DateButtonPrefix;
    ContainsInfix(DateButtonPrefix, "Сегодня", q);
    assert |t| != |MyPlansLabel|;
    NotFixedCommand(t);
  }

  lemma TomorrowButtonIsDate(tomorrow: DateTime)
    ensures CommandOf(TomorrowLabel(tomorrow)) == DateCommand
  {
    var q := " (" + FormatDayMonth(tomorrow) + ")";
    var t := TomorrowLabel(tomorrow);
    assert t == DateButtonPrefix + "Завтра" + q;
    assert t[..|DateButtonPrefix|] == DateButtonPrefix;
    ContainsInfix(DateButtonPrefix, "Завтра", q);
    assert |t| != |MyPlansLabel|;
    NotFixedCommand(t);
  }

  lemma DateButtonIsDate(d: DateTime)
    ensures CommandOf(DateLabel(d)) == DateCommand
  {
    var t := DateLabel(d);
    var f := FormatDate(d);
    assert t == DateButtonPrefix + f;
    assert t[..|DateButtonPrefix|] == DateButtonPrefix;
    assert f[2] == '.';
    assert OccursAt(f, ".", 2);
    ContainsTransitive(t, f, ".") by {
      ContainsSuffix(t, DateButtonPrefix, f);
    }
    assert |t| == 12;
    NotFixedCommand(t);
  }

  /** Whatever sits in a row of `PairRows(labels)` is one of the labels. */
  lemma {:induction false} PairRowsMembers(labels: seq<string>, j: nat, x: string)
    requires j < |PairRows(labels)| && x in PairRows(labels)[j]
    ensures x in labels
    decreases |labels|
  {
    if |labels| >= 2 && j > 0 {
      PairRowsMembers(labels[2..], j - 1, x);
    }
  }

  /** The buttons of the first row of the dates keyboard are date buttons. */
  lemma FirstRowIsDates(dates: seq<DateTime>, today: DateTime, tomorrow: DateTime, x: string)
    requires x in FirstRow(dates, today, tomorrow)
    ensures CommandOf(x) == DateCommand
  {
    if x == TodayLabel(today) {
      TodayButtonIsDate(today);
    } else {
      TomorrowButtonIsDate(tomorrow);
    }
  }

  /** The rows above the menu button: the today/tomorrow row, if any, then the pairs. */
  function DateRows(dates: seq<DateTime>, today: DateTime, tomorrow: DateTime): seq<seq<string>> {
    var first := FirstRow(dates, today, tomorrow);
    (if |first| > 0 then [first] else []) + PairRows(DateLabels(OtherDates(dates, today, tomorrow)))
  }

  /** A button of an optional first row followed by `PairRows(labels)` is
      one of the first row or one of the labels. */
  lemma RowsMembers(first: seq<string>, labels: seq<string>, j: nat, x: string)
    requires var rows := (if |first| > 0 then [first] else []) + PairRows(labels);
      j < |rows| && x in rows[j]
    ensures x in first || x in labels
  {
    var head := if |first| > 0 then [first] else [];
    AppendIndex(head, PairRows(labels), j);
    if j >= |head| {
      PairRowsMembers(labels, j - |head|, x);
    }
  }

  /** Each of those buttons is a date button. */
  lemma DateButtonsAreDates(dates: seq<DateTime>, today: DateTime, tomorrow: DateTime, x: string)
    requires x in FirstRow(dates, today, tomorrow) || x in DateLabels(OtherDates(dates, today, tomorrow))
    ensures CommandOf(x) == DateCommand
  {
    if x in FirstRow(dates, today, tomorrow) {
      FirstRowIsDates(dates, today, tomorrow, x);
    } else {
      var others := OtherDates(dates, today, tomorrow);
      var labels := DateLabels(others);
      var i :| 0 <= i < |labels| && labels[i] == x;
      DateButtonIsDate(others[i]);
    }
  }

  /** Every button of the dates keyboard but the last reaches the date
      selection, and the last is the menu button, which returns to the menu
      whatever the state. */
  lemma DatesKeyboardRoutes(dates: seq<DateTime>, today: DateTime)
    requires |dates| > 0 && DatesRows(dates, today).Some?
    ensures var rows := DatesRows(dates, today).value;
      && rows[|rows| - 1] == [MenuLabel]
      && forall j, k :: 0 <= j < |rows| - 1 && 0 <= k < |rows[j]| ==> CommandOf(rows[j][k]) == DateCommand
  {
    var rows := DatesRows(dates, today).value;
    var tomorrow := NextDay(today).value;
    var body := DateRows(dates, today, tomorrow);
    assert rows == body + [[MenuLabel]];
    forall j, k | 0 <= j < |rows| - 1 && 0 <= k < |rows[j]|
      ensures CommandOf(rows[j][k]) == DateCommand
    {
      AppendIndex(body, [[MenuLabel]], j);
      RowsMembers(FirstRow(dates, today, tomorrow), DateLabels(OtherDates(dates, today, tomorrow)), j, rows[j][k]);
      DateButtonsAreDates(dates, today, tomorrow, rows[j][k]);
    }
  }

  // ---------------------------------------------------------------------
  // The routing on the session state

  /** The handler `HandleStateAsync` gives a text to. */
  datatype Route =
    | ToMenu
    | ToTimezone
    | ToDate
    | ToTime
    | ToLongDescription
    | ToDescription
    | ToNotification
    | ToPlanLimit
    | ToRecurrence
    | ToEditSelection
    | ToEditChoice
    | ToEditValue
    | ToDelete
    | ToSearch
    | ToCommand
  {
    /** The steps taken in a state that works on `CurrentPlan`: their
        handler dereferences it or keeps it for the next step. */
    predicate UsesCurrentPlan() {
      this == ToTime || this == ToLongDescription || this == ToDescription || this == ToNotification
      || this == ToPlanLimit || this == ToRecurrence || this == ToEditChoice || this == ToEditValue
    }

    /** The steps `CreationStep` runs. */
    predicate IsCreationStep() {
      this == ToDate || this == ToTime || this == ToLongDescription || this == ToDescription
      || this == ToNotification || this == ToPlanLimit || this == ToRecurrence
    }
  }

  /** Where a text goes, the session being in `state` and the chat having
      `upcoming` plans from the machine's now on: the two menu labels first,
      whatever the state; then the handler of the state; the states without
      one (and `None`) to the commands. */
  function RouteOf(text: string, state: UserState, upcoming: nat): (r: Route)
    ensures r == ToMenu <==> text == MainMenuLabel || text == MenuLabel
    ensures r.UsesCurrentPlan() ==> state.NeedsCurrentPlan()
    ensures r == ToCommand ==> !state.NeedsCurrentPlan()
  {
    if text == MainMenuLabel || text == MenuLabel then ToMenu
    else match state
      case WaitingForTimezone => ToTimezone
      case WaitingForDateTime => ToDate
      case WaitingForTime => ToTime
      case WaitingForDescription => if Utf16Length(text) > MaxDescriptionLength then ToLongDescription else ToDescription
      case WaitingForNotificationTime => ToNotification
      case WaitingForRecurrence => if upcoming >= MaxPlansPerUser then ToPlanLimit else ToRecurrence
      case WaitingForEditSelection => ToEditSelection
      case WaitingForEditChoice => ToEditChoice
      case WaitingForEditValue => ToEditValue
      case WaitingForDeleteConfirmation => ToDelete
      case WaitingForSearchQuery => ToSearch
      case _ => ToCommand
  }

  /** The plan count matters only when a new plan is about to be saved. */
  lemma RouteIgnoresCount(text: string, state: UserState, a: nat, b: nat)
    requires state == UserState.WaitingForRecurrence ==> a == b
    ensures RouteOf(text, state, a) == RouteOf(text, state, b)
  {
  }

  // ---------------------------------------------------------------------
  // What the service answers itself

  /** Whether `HandleStart` sees a first run: the chat has the default zone
      and timezones.json does not exist yet. */
  predicate IsFirstRun(store: PlannerService, chatId: int)
    reads store`userTimezones, store`timezonesFileExists
  {
    store.GetUserTimezone(chatId) == DefaultTimeZoneId && !store.timezonesFileExists
  }

  /** What `HandleStart` sends: the welcome and the zone keyboard on a first
      run, otherwise the menu with the chat's local time. */
  function StartReply(store: PlannerService, chatId: int, clock: Clock): (o: Outgoing)
    reads store`userTimezones, store`timezonesFileExists
    ensures o.chatId == chatId
    ensures o.reply.Welcome? <==> IsFirstRun(store, chatId)
    ensures o.reply.MainMenu? ==> o.reply.now == store.GetUserCurrentTime(chatId, clock) && o.keyboard == Some(MainKeyboard)
  {
    if IsFirstRun(store, chatId) then Outgoing(chatId, Welcome, Some(TimezoneKeyboard))
    else Outgoing(chatId, MainMenu(store.GetUserCurrentTime(chatId, clock)), Some(MainKeyboard))
  }

  /** The zone a time-zone answer picks, by the city named anywhere in it,
      Moscow first; `None` changes nothing. */
  function ChosenZone(text: string): Option<string> {
    if Contains(text, "Москва") then Some(DefaultTimeZoneId)
    else if Contains(text, "Екатеринбург") then Some(EkaterinburgTimeZoneId)
    else Option.None
  }

  /** The Moscow button picks Moscow time. */
  lemma MoscowButton()
    ensures ChosenZone(MoscowLabel) == Some(DefaultTimeZoneId)
  {
    ContainsInfix("🇷🇺 ", "Москва", " (UTC+3)");
    assert MoscowLabel == "🇷🇺 " + "Москва" + " (UTC+3)";
  }

  /** The Ekaterinburg button picks Ekaterinburg time: it does not name
      Moscow. */
  lemma EkaterinburgButton()
    ensures ChosenZone(EkaterinburgLabel) == Some(EkaterinburgTimeZoneId)
  {
    ContainsInfix("🇷🇺 ", "Екатеринбург", " (UTC+5)");
    assert EkaterinburgLabel == "🇷🇺 " + "Екатеринбург" + " (UTC+5)";
    MissingChar(EkaterinburgLabel, "Москва", 0);
  }

  /** The two buttons of the zone keyboard pick their zones. */
  lemma TimezoneButtons()
    ensures TimezoneKeyboard.rows == [[MoscowLabel], [EkaterinburgLabel]]
    ensures ChosenZone(MoscowLabel) == Some(DefaultTimeZoneId)
    ensures ChosenZone(EkaterinburgLabel) == Some(EkaterinburgTimeZoneId)
  {
    MoscowButton();
    EkaterinburgButton();
  }

  /** What `StartPlanCreation` did, the chat having `upcoming` plans from the
      machine's now on and its local time being `now`: at the limit only a
      message; otherwise a new empty plan and the date step, whose keyboard
      message is lost when building the keyboard throws. */
  twostate predicate StartedCreation(bot: BotClient, chatId: int, session: UserSession, store: PlannerService,
                                     upcoming: nat, now: DateTime)
    reads bot, session, store, session.currentPlan
  {
    if upcoming >= MaxPlansPerUser then
      && session.state == old(session.state) && session.currentPlan == old(session.currentPlan)
      && store.nextId == old(store.nextId)
      && bot.sent == old(bot.sent) + [Outgoing(chatId, LimitAtStart, Some(MainKeyboard))]
    else
      && session.state == UserState.WaitingForDateTime
      && session.currentPlan != null && fresh(session.currentPlan)
      && IsNewPlan(session.currentPlan, old(store.nextId), chatId, MinValue)
      && store.nextId == old(store.nextId) + 1
      && bot.sent == old(bot.sent) + match DateQuickSelectKeyboard(now)
        case Some(k) => [Outgoing(chatId, NewPlan, Some(k))]
        case None => []
  }

  /** What the edit, delete and search commands did, `upcoming` being the
      chat's plans from its local now on: the edit and delete dialogues list
      them, the search asks for a keyword. */
  twostate predicate OpenedDialogue(c: Command, bot: BotClient, chatId: int, session: UserSession, upcoming: seq<PlanItem>)
    reads bot, session, upcoming
  {
    match c
    case EditCommand => ListedForEdit(bot, chatId, session, upcoming)
    case DeleteCommand => ListedForDelete(bot, chatId, session, upcoming)
    case _ =>
      && session.state == UserState.WaitingForSearchQuery
      && bot.sent == old(bot.sent) + [Outgoing(chatId, EnterQuery, Some(CancelKeyboard))]
  }

  // ---------------------------------------------------------------------
  // The timers

  predicate AllDifferent(s: seq<int>) {
    forall i, j :: 0 <= i < j < |s| ==> s[i] != s[j]
  }

  /** No two messages of `log` go to the same chat. */
  predicate DistinctChats(log: seq<Outgoing>) {
    forall i, j :: 0 <= i < j < |log| ==> log[i].chatId != log[j].chatId
  }

  /** Whether the chat's local time is 08:00, the minute of the morning digest. */
  predicate DigestDue(store: PlannerService, chatId: int, clock: Clock)
    reads store`userTimezones
  {
    var now := store.GetUserCurrentTime(chatId, clock);
    Hour(now) == 8 && Minute(now) == 0
  }

  /** The morning digest of a chat: its local date and the plans of that
      day, without a keyboard. */
  function Digest(store: PlannerService, chatId: int, clock: Clock): (o: Outgoing)
    reads store`userTimezones, store`plans, store.plans
    ensures o.chatId == chatId && o.keyboard == Option.None
  {
    var now := store.GetUserCurrentTime(chatId, clock);
    Outgoing(chatId, MorningDigest(now, Views(store.GetPlansForDate(chatId, now))), Option.None)
  }

  /** The digests one pass over the chats `chatIds` sends, in order. */
  function Digests(store: PlannerService, chatIds: seq<int>, clock: Clock): (r: seq<Outgoing>)
    reads store`userTimezones, store`plans, store.plans
    decreases |chatIds|
  {
    if |chatIds| == 0 then []
    else
      var k := |chatIds| - 1;
      Digests(store, chatIds[..k], clock)
        + if DigestDue(store, chatIds[k], clock) then [Digest(store, chatIds[k], clock)] else []
  }

  /** Over distinct chats, no chat gets two digests. */
  lemma {:induction false} DigestsOncePerChat(store: PlannerService, chatIds: seq<int>, clock: Clock)
    requires AllDifferent(chatIds)
    ensures DistinctChats(Digests(store, chatIds, clock))
    decreases |chatIds|
  {
    if |chatIds| > 0 {
      var k := |chatIds| - 1;
      LastIsNew(chatIds);
      DigestsOncePerChat(store, chatIds[..k], clock);
      DigestsReachDueChats(store, chatIds[..k], clock);
      AppendNewChat(Digests(store, chatIds[..k], clock),
        if DigestDue(store, chatIds[k], clock) then [Digest(store, chatIds[k], clock)] else [],
        chatIds[..k], chatIds[k]);
    }
  }

  /** One more chat in the pass, one more digest if it is due. */
  lemma DigestsSnoc(store: PlannerService, chatIds: seq<int>, i: nat, clock: Clock)
    requires i < |chatIds|
    ensures Digests(store, chatIds[..i + 1], clock)
      == Digests(store, chatIds[..i], clock)
         + (if DigestDue(store, chatIds[i], clock) then [Digest(store, chatIds[i], clock)] else [])
  {
    assert chatIds[..i + 1][..i] == chatIds[..i];
  }

  /** A pass sends its digest to each listed chat whose local time is 08:00
      and to no other. */
  lemma {:induction false} DigestsReachDueChats(store: PlannerService, chatIds: seq<int>, clock: Clock)
    ensures forall o :: o in Digests(store, chatIds, clock) ==>
      o.chatId in chatIds && DigestDue(store, o.chatId, clock) && o == Digest(store, o.chatId, clock)
    ensures forall c :: c in chatIds && DigestDue(store, c, clock) ==> Digest(store, c, clock) in Digests(store, chatIds, clock)
    decreases |chatIds|
  {
    if |chatIds| > 0 {
      var k := |chatIds| - 1;
      DigestsReachDueChats(store, chatIds[..k], clock);
      assert chatIds == chatIds[..k] + [chatIds[k]];
    }
  }

  /** The last of distinct values does not occur before it. */
  lemma LastIsNew(s: seq<int>)
    requires |s| > 0 && AllDifferent(s)
    ensures s[|s| - 1] !in s[..|s| - 1] && AllDifferent(s[..|s| - 1])
  {
    var k := |s| - 1;
    forall m | 0 <= m < k
      ensures s[..k][m] != s[k]
    {
      assert s[..k][m] == s[m];
    }
  }

  /** Appending messages to a chat not among the senders' chats keeps the
      chats of a log distinct. */
  lemma AppendNewChat(log: seq<Outgoing>, tail: seq<Outgoing>, chats: seq<int>, c: int)
    requires DistinctChats(log) && forall i :: 0 <= i < |log| ==> log[i].chatId in chats
    requires c !in chats && |tail| <= 1 && forall i :: 0 <= i < |tail| ==> tail[i].chatId == c
    ensures DistinctChats(log + tail)
  {
  }

  /** The whole minutes a reminder announces for a plan starting `diff`
      milliseconds from now (`(int)timeUntil`), when that is more than one
      minute; `None` is "starts now". */
  function MinutesLeft(diff: int): (r: Option<int>)
    ensures r.Some? <==> diff > MsPerMinute
    ensures r.Some? ==> 1 <= r.value && r.value * MsPerMinute <= diff < (r.value + 1) * MsPerMinute
  {
    if diff > MsPerMinute then Some(diff / MsPerMinute) else Option.None
  }

  /** The reminder of a plan: the plan and the minutes until it starts in
      its chat's local time, sent to its chat without a keyboard. */
  function ReminderFor(store: PlannerService, plan: PlanItem, clock: Clock): Outgoing
    reads store`userTimezones, plan`chatId, plan`dateTime, plan`description, plan`recurrence, plan`notificationMinutes
  {
    var userTime := store.GetUserCurrentTime(plan.chatId, clock);
    Outgoing(plan.chatId, Reminder(ViewOf(plan), MinutesLeft(Ticks(plan.dateTime) - Ticks(userTime))), Option.None)
  }

  /** The reminders of the plans `plans`, in order. */
  function Reminders(store: PlannerService, plans: seq<PlanItem>, clock: Clock): seq<Outgoing>
    reads store`userTimezones, plans`chatId, plans`dateTime, plans`description, plans`recurrence, plans`notificationMinutes
    decreases |plans|
  {
    if |plans| == 0 then []
    else
      var k := |plans| - 1;
      Reminders(store, plans[..k], clock) + [ReminderFor(store, plans[k], clock)]
  }

  /** One reminder per plan, to the plan's chat. */
  lemma {:induction false} RemindersPerPlan(store: PlannerService, plans: seq<PlanItem>, clock: Clock)
    ensures var r := Reminders(store, plans, clock);
      |r| == |plans| && forall i :: 0 <= i < |plans| ==> r[i].chatId == plans[i].chatId && r[i].reply.Reminder? && r[i].reply.plan == ViewOf(plans[i])
    decreases |plans|
  {
    if |plans| > 0 {
      RemindersPerPlan(store, plans[..|plans| - 1], clock);
    }
  }

  /** The plan `MarkAsNotified(id)` flags, the first with that id, is flagged. */
  predicate IdNotified(s: seq<PlanItem>, id: PlanId)
    reads s`isNotified
  {
    match FindId(s, id)
    case Some(k) => s[k].isNotified
    case None => true
  }

  /** `s[k]` is a plan that `MarkAsNotified` flags for one of `pending`:
      the first stored plan with that plan's id. */
  predicate FlaggedFor(s: seq<PlanItem>, k: int, pending: seq<PlanItem>) {
    0 <= k < |s| &&
    exists j :: 0 <= j < |pending| && FindId(s, pending[j].id).Some? && s[FindId(s, pending[j].id).value] == s[k]
  }

  /** One more pending plan flags what it flags alone, besides the earlier ones. */
  lemma FlaggedForSnoc(s: seq<PlanItem>, k: int, pending: seq<PlanItem>, i: nat)
    requires i < |pending|
    ensures FlaggedFor(s, k, pending[..i + 1]) <==> FlaggedFor(s, k, pending[..i]) || FlaggedFor(s, k, [pending[i]])
  {
    assert pending[..i + 1] == pending[..i] + [pending[i]];
    FlaggedForAppend(s, k, pending[..i], pending[i]);
  }

  /** The plans flagged for `pending + [p]` are those flagged for `pending` and for `p`. */
  lemma FlaggedForAppend(s: seq<PlanItem>, k: int, pending: seq<PlanItem>, p: PlanItem)
    ensures FlaggedFor(s, k, pending + [p]) <==> FlaggedFor(s, k, pending) || FlaggedFor(s, k, [p])
  {
    var q := pending + [p];
    if FlaggedFor(s, k, q) {
      var j :| 0 <= j < |q| && FindId(s, q[j].id).Some? && s[FindId(s, q[j].id).value] == s[k];
      if j == |pending| {
        assert [p][0] == p;
      } else {
        assert q[j] == pending[j];
      }
    }
    if FlaggedFor(s, k, pending) {
      var j :| 0 <= j < |pending| && FindId(s, pending[j].id).Some? && s[FindId(s, pending[j].id).value] == s[k];
      assert q[j] == pending[j];
    }
    if FlaggedFor(s, k, [p]) {
      assert q[|pending|] == [p][0];
    }
  }

  /** The `IsNotified` flags of the plans, in store order. */
  ghost function Flags(s: seq<PlanItem>): (f: seq<bool>)
    reads s
    ensures |f| == |s| && forall k :: 0 <= k < |s| ==> f[k] == s[k].isNotified
  {
    seq(|s|, k requires 0 <= k < |s| reads s => s[k].isNotified)
  }

  /** Once the plans of `pending` are marked, the plan `MarkAsNotified`
      would flag for each of them is flagged. */
  lemma FlaggedNotified(s: seq<PlanItem>, before: seq<bool>, pending: seq<PlanItem>)
    requires |before| == |s|
    requires forall k :: 0 <= k < |s| ==> (s[k].isNotified <==> before[k] || FlaggedFor(s, k, pending))
    ensures forall p :: p in pending ==> IdNotified(s, p.id)
  {
    forall p | p in pending
      ensures IdNotified(s, p.id)
    {
      var j :| 0 <= j < |pending| && pending[j] == p;
      if FindId(s, p.id).Some? {
        assert FlaggedFor(s, FindId(s, p.id).value, pending);
      }
    }
  }

  /** `p` has kept every field since the method began, except that
      `IsNotified` may have been set. */
  twostate predicate KeptButFlag(p: PlanItem)
    reads p
  {
    && p.chatId == old(p.chatId) && p.dateTime == old(p.dateTime)
    && p.description == old(p.description) && p.recurrence == old(p.recurrence)
    && p.notificationMinutes == old(p.notificationMinutes) && p.recurrenceEndDate == old(p.recurrenceEndDate)
    && p.parentRecurrenceId == old(p.parentRecurrenceId) && (old(p.isNotified) ==> p.isNotified)
  }

  // ---------------------------------------------------------------------
  // The service

  class TelegramBotService {
    const bot: BotClient
    const planner: PlannerService
    var sessions: map<int, UserSession>
    var lastCommandTime: map<int, DateTime>
    const creationHandler: SimplePlanCreationHandler
    const editHandler: PlanEditHandler
    const commandHandler: CommandHandler
    const deleteHandler: DeleteHandler

    constructor (bot: BotClient, planner: PlannerService)
      ensures this.bot == bot && this.planner == planner
      ensures sessions == map[] && lastCommandTime == map[]
      ensures Valid()
    {
      this.bot := bot;
      this.planner := planner;
      sessions := map[];
      lastCommandTime := map[];
      creationHandler := new SimplePlanCreationHandler(planner);
      editHandler := new PlanEditHandler(planner);
      commandHandler := new CommandHandler(planner);
      deleteHandler := new DeleteHandler(planner);
    }

    /** The handlers work on the service's store. */
    predicate Wired() {
      && creationHandler.planner == planner && editHandler.planner == planner
      && commandHandler.planner == planner && deleteHandler.planner == planner
    }

    /** The handlers work on the service's store, and every session is in a
        state its handler can work in. */
    predicate Valid()
      reads this`sessions, sessions.Values
    {
      Wired() && forall c :: c in sessions ==> sessions[c].Valid()
    }

    /** The current plans of the sessions. */
    function CurrentPlans(): set<PlanItem?>
      reads this`sessions, sessions.Values
    {
      set c | c in sessions :: sessions[c].currentPlan
    }

    method GetSession(chatId: int) returns (session: UserSession)
      requires Valid()
      modifies this`sessions
      ensures Valid()
      ensures chatId in sessions && session == sessions[chatId]
      ensures chatId in old(sessions) ==> sessions == old(sessions)
      ensures chatId !in old(sessions) ==>
        && fresh(session) && sessions == old(sessions)[chatId := session]
        && session.state == UserState.None && session.currentPlan == null && session.tempPlansList == []
    {
      if chatId in sessions {
        session := sessions[chatId];
      } else {
        session := new UserSession();
        sessions := sessions[chatId := session];
      }
    }

    method CheckRateLimit(chatId: int, utcNow: DateTime) returns (accepted: bool)
      modifies this`lastCommandTime
      ensures accepted == Accepts(old(lastCommandTime), chatId, utcNow)
      ensures lastCommandTime == AfterCheck(old(lastCommandTime), chatId, utcNow)
    {
      var lastTime;
      if chatId in lastCommandTime {
        lastTime := lastCommandTime[chatId];
      } else {
        lastTime := utcNow;
        lastCommandTime := lastCommandTime[chatId := utcNow];
      }
      if Ticks(utcNow) - Ticks(lastTime) < CommandCooldown {
        return false;
      }
      lastCommandTime := lastCommandTime[chatId := utcNow];
      return true;
    }

    /** One update: nothing without a message; a message the rate limit
        drops is ignored; a voice message gets a refusal; a text goes to
        `HandleState` with the chat's session. */
    method HandleUpdate(update: Option<Message>, clock: Clock)
      requires Valid()
      modifies this`sessions, this`lastCommandTime, bot, planner, sessions.Values, CurrentPlans()
      ensures Valid()
      ensures update.None? ==>
        sessions == old(sessions) && lastCommandTime == old(lastCommandTime) && bot.sent == old(bot.sent)
      ensures update.Some? ==>
        lastCommandTime == AfterCheck(old(lastCommandTime), update.value.chatId, clock.utcNow)
      ensures update.Some? && !Accepts(old(lastCommandTime), update.value.chatId, clock.utcNow) ==>
        sessions == old(sessions) && bot.sent == old(bot.sent)
      ensures Passes(update, old(lastCommandTime), clock.utcNow) ==>
        var chatId := update.value.chatId;
        && chatId in sessions && sessions.Keys == old(sessions).Keys + {chatId}
        && (forall c :: c in old(sessions) ==> sessions[c] == old(sessions[c]))
      ensures Passes(update, old(lastCommandTime), clock.utcNow) && update.value.hasVoice ==>
        bot.sent == old(bot.sent) + [Outgoing(update.value.chatId, VoiceNotSupported, Some(MainKeyboard))]
      ensures Passes(update, old(lastCommandTime), clock.utcNow) && !update.value.hasVoice && update.value.text.None? ==>
        bot.sent == old(bot.sent)
    {
      if update.None? {
        return;
      }
      HandleIncoming(update.value, clock);
    }

    /** The body of `HandleUpdateAsync` once the update holds a message
        (TelegramBotService.cs:123-147): the rate limit, then `HandleMessage`
        if it lets the message through. */
    method HandleIncoming(message: Message, clock: Clock)
      requires Valid()
      modifies this`sessions, this`lastCommandTime, bot, planner, sessions.Values, CurrentPlans()
      ensures Valid()
      ensures lastCommandTime == AfterCheck(old(lastCommandTime), message.chatId, clock.utcNow)
      ensures !Accepts(old(lastCommandTime), message.chatId, clock.utcNow) ==>
        sessions == old(sessions) && bot.sent == old(bot.sent)
      ensures Accepts(old(lastCommandTime), message.chatId, clock.utcNow) ==>
        && message.chatId in sessions && sessions.Keys == old(sessions).Keys + {message.chatId}
        && (forall c :: c in old(sessions) ==> sessions[c] == old(sessions[c]))
      ensures Accepts(old(lastCommandTime), message.chatId, clock.utcNow) && message.hasVoice ==>
        bot.sent == old(bot.sent) + [Outgoing(message.chatId, VoiceNotSupported, Some(MainKeyboard))]
      ensures Accepts(old(lastCommandTime), message.chatId, clock.utcNow) && !message.hasVoice && message.text.None? ==>
        bot.sent == old(bot.sent)
    {
      var accepted := CheckRateLimit(message.chatId, clock.utcNow);
      if accepted {
        HandleMessage(message, clock);
      }
    }

    /** A message the rate limit let through. */
    method HandleMessage(message: Message, clock: Clock)
      requires Valid()
      modifies this`sessions, bot, planner, sessions.Values, CurrentPlans()
      ensures Valid()
      ensures message.chatId in sessions && sessions.Keys == old(sessions).Keys + {message.chatId}
      ensures forall c :: c in old(sessions) ==> sessions[c] == old(sessions[c])
      ensures message.hasVoice ==>
        bot.sent == old(bot.sent) + [Outgoing(message.chatId, VoiceNotSupported, Some(MainKeyboard))]
      ensures !message.hasVoice && message.text.None? ==> bot.sent == old(bot.sent)
    {
      var chatId := message.chatId;
      var session := GetSession(chatId);
      if message.hasVoice {
        bot.SendMessage(chatId, VoiceNotSupported, Some(MainKeyboard));
        return;
      }
      if message.text.Some? {
        HandleText(chatId, message.text.value, clock);
      }
    }

    /** A text of a chat that has a session. */
    method HandleText(chatId: int, text: string, clock: Clock)
      requires Valid() && chatId in sessions
      modifies bot, planner, sessions.Values, CurrentPlans()
      ensures Valid()
    {
      var session := sessions[chatId];
      assert session.currentPlan in CurrentPlans();
      var _, _ := HandleState(chatId, text, session, clock);
    }

    /** `HandleStateAsync`. `route` is the handler the text went to and
        `failed` that it threw, in which case the dialogue is reset with an
        error message; a handler throws only before sending anything. */
    method HandleState(chatId: int, text: string, session: UserSession, clock: Clock) returns (route: Route, failed: bool)
      requires Wired() && session.Valid()
      modifies bot, planner, session, session.currentPlan
      ensures session.Valid()
      ensures route == RouteOf(text, old(session.state), old(|planner.GetAllUpcomingPlans(chatId, clock.serverNow)|))
      ensures route == ToMenu ==>
        && session.currentPlan == null && session.tempPlansList == []
        && session.state == (if old(IsFirstRun(planner, chatId)) then UserState.WaitingForTimezone else UserState.None)
        && bot.sent == old(bot.sent) + [old(StartReply(planner, chatId, clock))]
      ensures route == ToLongDescription ==>
        && session.state == old(session.state) && session.currentPlan == old(session.currentPlan)
        && bot.sent == old(bot.sent) + [Outgoing(chatId, DescriptionTooLong(Utf16Length(text)), Some(CancelKeyboard))]
      ensures route == ToPlanLimit ==>
        && session.state == UserState.None && session.currentPlan == null
        && bot.sent == old(bot.sent) + [Outgoing(chatId, LimitAtSave, Some(MainKeyboard))]
      ensures failed ==>
        && (route == ToDate || route == ToRecurrence)
        && session.state == UserState.None && session.currentPlan == null
        && bot.sent == old(bot.sent) + [Outgoing(chatId, StateError, Some(MainKeyboard))]
      ensures route == ToDate ==> (failed <==> ReadDate(text, old(planner.GetUserCurrentTime(chatId, clock))).DateOverflow?)
      ensures route == ToRecurrence && IsCancel(text) ==> !failed
    {
      ghost var count := |planner.GetAllUpcomingPlans(chatId, clock.serverNow)|;
      var upcoming := 0;
      if session.state == UserState.WaitingForRecurrence {
        upcoming := |planner.GetAllUpcomingPlans(chatId, clock.serverNow)|;
      }
      route := RouteOf(text, session.state, upcoming);
      assert route == RouteOf(text, session.state, count) by {
        RouteIgnoresCount(text, session.state, upcoming, count);
      }
      failed := RunRoute(route, chatId, text, session, clock, upcoming);
    }

    /** The `switch (session.State)` of `HandleStateAsync`
        (TelegramBotService.cs:170-248), with its outer `catch` (:250-260),
        once the route is known. */
    method RunRoute(route: Route, chatId: int, text: string, session: UserSession, clock: Clock, ghost upcoming: nat)
      returns (failed: bool)
      requires Wired() && session.Valid() && route == RouteOf(text, session.state, upcoming)
      modifies bot, planner, session, session.currentPlan
      ensures session.Valid()
      ensures route == ToMenu ==>
        && session.currentPlan == null && session.tempPlansList == []
        && session.state == (if old(IsFirstRun(planner, chatId)) then UserState.WaitingForTimezone else UserState.None)
        && bot.sent == old(bot.sent) + [old(StartReply(planner, chatId, clock))]
      ensures route == ToLongDescription ==>
        && session.state == old(session.state) && session.currentPlan == old(session.currentPlan)
        && bot.sent == old(bot.sent) + [Outgoing(chatId, DescriptionTooLong(Utf16Length(text)), Some(CancelKeyboard))]
      ensures route == ToPlanLimit ==>
        && session.state == UserState.None && session.currentPlan == null
        && bot.sent == old(bot.sent) + [Outgoing(chatId, LimitAtSave, Some(MainKeyboard))]
      ensures failed ==>
        && (route == ToDate || route == ToRecurrence)
        && session.state == UserState.None && session.currentPlan == null
        && bot.sent == old(bot.sent) + [Outgoing(chatId, StateError, Some(MainKeyboard))]
      ensures route == ToDate ==> (failed <==> ReadDate(text, old(planner.GetUserCurrentTime(chatId, clock))).DateOverflow?)
      ensures route == ToRecurrence && IsCancel(text) ==> !failed
    {
      failed := false;
      if route == ToMenu {
        ReturnToMenu(chatId, session, clock);
      } else if route == ToCommand {
        CommandStep(chatId, text, session, clock);
      } else if route.IsCreationStep() {
        failed := CreationStep(route, chatId, text, session, clock);
        if failed {
          ReportStateError(chatId, session);
        }
      } else {
        DialogueStep(route, chatId, text, session);
      }
    }

    /** The fall-through of `HandleStateAsync` to `HandleCommandAsync`
        (TelegramBotService.cs:248) for a state without a case of its own;
        `HandleCommand` states what the commands do. */
    method CommandStep(chatId: int, text: string, session: UserSession, clock: Clock)
      requires Wired() && session.Valid()
      modifies bot, session`state, session`currentPlan, session`tempPlansList, planner`nextId
      ensures session.Valid()
    {
      HandleCommand(chatId, text, session, clock);
    }

    /** The outer `catch` of `HandleStateAsync`: the dialogue is dropped and
        the error reported. */
    method ReportStateError(chatId: int, session: UserSession)
      modifies bot, session`state, session`currentPlan
      ensures session.state == UserState.None && session.currentPlan == null && session.Valid()
      ensures bot.sent == old(bot.sent) + [Outgoing(chatId, StateError, Some(MainKeyboard))]
    {
      session.state := UserState.None;
      session.currentPlan := null;
      bot.SendMessage(chatId, StateError, Some(MainKeyboard));
    }

    /** The global return to the menu: the dialogue is dropped and the start
        screen shown. */
    method ReturnToMenu(chatId: int, session: UserSession, clock: Clock)
      modifies bot, session`state, session`currentPlan, session`tempPlansList
      ensures session.currentPlan == null && session.tempPlansList == []
      ensures session.state == if old(IsFirstRun(planner, chatId)) then UserState.WaitingForTimezone else UserState.None
      ensures bot.sent == old(bot.sent) + [old(StartReply(planner, chatId, clock))]
    {
      session.state := UserState.None;
      session.currentPlan := null;
      session.tempPlansList := [];
      HandleStart(chatId, session, clock);
    }

    /** The states of creating a plan, with the two checks `HandleStateAsync`
        makes before passing the text on. */
    method CreationStep(route: Route, chatId: int, text: string, session: UserSession, clock: Clock) returns (threw: bool)
      requires Wired() && session.Valid() && route.IsCreationStep()
      requires route == RouteOf(text, session.state, if route == ToPlanLimit then MaxPlansPerUser else 0)
      modifies bot, planner, session, session.currentPlan
      ensures session.Valid()
      ensures threw ==> (route == ToDate || route == ToRecurrence) && bot.sent == old(bot.sent)
      ensures route == ToDate ==> (threw <==> ReadDate(text, old(planner.GetUserCurrentTime(chatId, clock))).DateOverflow?)
      ensures route == ToRecurrence && IsCancel(text) ==> !threw
      ensures route == ToLongDescription ==>
        && session.state == old(session.state) && session.currentPlan == old(session.currentPlan)
        && bot.sent == old(bot.sent) + [Outgoing(chatId, DescriptionTooLong(Utf16Length(text)), Some(CancelKeyboard))]
      ensures route == ToPlanLimit ==>
        && session.state == UserState.None && session.currentPlan == null
        && bot.sent == old(bot.sent) + [Outgoing(chatId, LimitAtSave, Some(MainKeyboard))]
    {
      threw := false;
      match route
      case ToDate =>
        threw := creationHandler.HandleDateTimeSelection(bot, chatId, text, session, clock);
      case ToTime =>
        creationHandler.HandleTimeSelection(bot, chatId, text, session);
      case ToLongDescription =>
        bot.SendMessage(chatId, DescriptionTooLong(Utf16Length(text)), Some(CancelKeyboard));
      case ToDescription =>
        creationHandler.HandleDescription(bot, chatId, text, session);
      case ToNotification =>
        creationHandler.HandleNotificationTime(bot, chatId, text, session);
      case ToPlanLimit =>
        bot.SendMessage(chatId, LimitAtSave, Some(MainKeyboard));
        session.state := UserState.None;
        session.currentPlan := null;
      case ToRecurrence =>
        threw := creationHandler.HandleRecurrence(bot, chatId, text, session);
    }

    /** The cases of `HandleStateAsync` for the time-zone, edit, delete and
        search dialogues (TelegramBotService.cs:183-185 and :226-244); none of
        their handlers throws. */
    method DialogueStep(route: Route, chatId: int, text: string, session: UserSession)
      requires Wired() && session.Valid()
      requires route == ToTimezone || route == ToEditSelection || route == ToEditChoice
        || route == ToEditValue || route == ToDelete || route == ToSearch
      requires route == RouteOf(text, session.state, 0)
      modifies bot, planner, session, session.currentPlan
      ensures session.Valid()
    {
      match route
      case ToTimezone =>
        HandleTimezoneSelection(chatId, text, session);
      case ToDelete =>
        DeleteStep(chatId, text, session);
      case ToSearch =>
        commandHandler.HandleSearch(bot, chatId, text, session);
      case ToEditSelection | ToEditChoice | ToEditValue =>
        EditStep(route, chatId, text, session);
    }

    /** The `WaitingForDeleteConfirmation` case of `HandleStateAsync`
        (TelegramBotService.cs:238-240). */
    method DeleteStep(chatId: int, text: string, session: UserSession)
      requires Wired() && session.Valid()
      modifies bot, planner, session
      ensures session.Valid()
    {
      deleteHandler.HandleDeleteChoice(bot, chatId, text, session);
    }

    /** The `WaitingForEditSelection`, `WaitingForEditChoice` and
        `WaitingForEditValue` cases of `HandleStateAsync`
        (TelegramBotService.cs:226-236). */
    method EditStep(route: Route, chatId: int, text: string, session: UserSession)
      requires Wired() && session.Valid()
      requires route == ToEditSelection || route == ToEditChoice || route == ToEditValue
      requires route == RouteOf(text, session.state, 0)
      modifies bot, planner, session, session.currentPlan
      ensures session.Valid()
    {
      assert route != ToEditSelection ==> session.currentPlan != null;
      match route
      case ToEditSelection =>
        editHandler.HandlePlanSelection(bot, chatId, text, session);
      case ToEditChoice =>
        editHandler.HandleFieldChoice(bot, chatId, text, session);
      case ToEditValue =>
        editHandler.HandleNewValue(bot, chatId, text, session);
    }

    /** `HandleCommandAsync`; an exception of a handler is answered with an
        error message and leaves the session as the handler left it. */
    method HandleCommand(chatId: int, text: string, session: UserSession, clock: Clock)
      requires Wired() && session.Valid()
      modifies bot, session`state, session`currentPlan, session`tempPlansList, planner`nextId
      ensures session.Valid()
      ensures var c := CommandOf(text);
        c != StartCommand && c != AddCommand && c != EditCommand && c != DeleteCommand
        && c != SearchCommand && c != TimezoneCommand ==>
          unchanged(session) && planner.nextId == old(planner.nextId)
      ensures CommandOf(text) == StartCommand ==>
        && session.state == (if old(IsFirstRun(planner, chatId)) then UserState.WaitingForTimezone else old(session.state))
        && bot.sent == old(bot.sent) + [old(StartReply(planner, chatId, clock))]
      ensures CommandOf(text) == AddCommand ==>
        StartedCreation(bot, chatId, session, planner,
          old(|planner.GetAllUpcomingPlans(chatId, clock.serverNow)|), old(planner.GetUserCurrentTime(chatId, clock)))
      ensures CommandOf(text) == PlansCommand ==>
        var now := old(planner.GetUserCurrentTime(chatId, clock));
        var dates := old(planner.GetDatesWithPlans(chatId, now));
        if |dates| > 0 && DatesRows(dates, now).None? then
          bot.sent == old(bot.sent) + [Outgoing(chatId, CommandError, Some(MainKeyboard))]
        else OfferedDates(bot, chatId, dates, now, false)
      ensures CommandOf(text) in {EditCommand, DeleteCommand, SearchCommand} ==>
        OpenedDialogue(CommandOf(text), bot, chatId, session,
          old(planner.GetAllUpcomingPlans(chatId, planner.GetUserCurrentTime(chatId, clock))))
      ensures CommandOf(text) == SettingsCommand ==>
        bot.sent == old(bot.sent) + [Outgoing(chatId, Settings, Some(SettingsKeyboard))]
      ensures CommandOf(text) == HelpCommand ==>
        bot.sent == old(bot.sent) + [Outgoing(chatId, Help, Some(MainKeyboard))]
      ensures CommandOf(text) == TimezoneCommand ==>
        session.state == UserState.WaitingForTimezone
        && bot.sent == old(bot.sent) + [Outgoing(chatId, ChooseTimezone, Some(TimezoneKeyboard))]
      ensures CommandOf(text) == DateCommand ==>
        match SelectedDate(text, old(planner.GetUserCurrentTime(chatId, clock)), clock.serverNow)
        case TargetThrew => bot.sent == old(bot.sent) + [Outgoing(chatId, CommandError, Some(MainKeyboard))]
        case Unrecognized => bot.sent == old(bot.sent) + [Outgoing(chatId, UnknownDate, Some(MainKeyboard))]
        case Target(date) => ShownDate(bot, chatId, date, old(planner.GetPlansForDate(chatId, date)))
      ensures CommandOf(text) == NotACommand ==>
        bot.sent == old(bot.sent) + [Outgoing(chatId, UnknownCommand, Some(MainKeyboard))]
    {
      var command := CommandOf(text);
      if command in {StartCommand, AddCommand, TimezoneCommand} {
        SetupCommand(chatId, text, session, clock);
      } else if command in {EditCommand, DeleteCommand, SearchCommand} {
        DialogueCommand(command, chatId, session, clock);
      } else {
        QueryCommand(chatId, text, clock);
      }
    }

    /** The `/start`, "➕ Добавить"/`/add` and "🌍 Часовой пояс" cases of
        `HandleCommandAsync` (TelegramBotService.cs:270-277 and :309-311):
        the start screen, or the creation or time-zone dialogue. */
    method SetupCommand(chatId: int, text: string, session: UserSession, clock: Clock)
      requires Wired() && session.Valid()
      requires CommandOf(text) in {StartCommand, AddCommand, TimezoneCommand}
      modifies bot, session`state, session`currentPlan, session`tempPlansList, planner`nextId
      ensures session.Valid()
      ensures CommandOf(text) == StartCommand ==>
        && session.state == (if old(IsFirstRun(planner, chatId)) then UserState.WaitingForTimezone else old(session.state))
        && bot.sent == old(bot.sent) + [old(StartReply(planner, chatId, clock))]
      ensures CommandOf(text) == AddCommand ==>
        StartedCreation(bot, chatId, session, planner,
          old(|planner.GetAllUpcomingPlans(chatId, clock.serverNow)|), old(planner.GetUserCurrentTime(chatId, clock)))
      ensures CommandOf(text) == TimezoneCommand ==>
        session.state == UserState.WaitingForTimezone
        && bot.sent == old(bot.sent) + [Outgoing(chatId, ChooseTimezone, Some(TimezoneKeyboard))]

    {
      match CommandOf(text)
      case StartCommand =>
        HandleStart(chatId, session, clock);
      case AddCommand =>
        StartPlanCreation(chatId, session, clock);
      case TimezoneCommand =>
        StartTimezoneSelection(chatId, session);
    }

    /** The edit, delete and search cases of `HandleCommandAsync`
        (TelegramBotService.cs:284-297), which open their dialogues. */
    method DialogueCommand(command: Command, chatId: int, session: UserSession, clock: Clock)
      requires command in {EditCommand, DeleteCommand, SearchCommand}
      requires Wired() && session.Valid()
      modifies bot, session`state, session`tempPlansList
      ensures session.Valid()
      ensures OpenedDialogue(command, bot, chatId, session,
        old(planner.GetAllUpcomingPlans(chatId, planner.GetUserCurrentTime(chatId, clock))))
    {
      if command == EditCommand {
        OpenEdit(chatId, session, clock);
      } else if command == DeleteCommand {
        OpenDelete(chatId, session, clock);
      } else {
        commandHandler.StartSearch(bot, chatId, session);
      }
    }

    /** The "✏️ Редактировать"/`/edit` case of `HandleCommandAsync`
        (TelegramBotService.cs:284-287). */
    method OpenEdit(chatId: int, session: UserSession, clock: Clock)
      requires Wired() && session.Valid()
      modifies bot, session`state, session`tempPlansList
      ensures session.Valid()
      ensures OpenedDialogue(EditCommand, bot, chatId, session,
        old(planner.GetAllUpcomingPlans(chatId, planner.GetUserCurrentTime(chatId, clock))))
    {
      editHandler.StartEdit(bot, chatId, session, clock);
    }

    /** The "🗑 Удалить"/`/delete` case of `HandleCommandAsync`
        (TelegramBotService.cs:289-292). */
    method OpenDelete(chatId: int, session: UserSession, clock: Clock)
      requires Wired() && session.Valid()
      modifies bot, session`state, session`tempPlansList
      ensures session.Valid()
      ensures OpenedDialogue(DeleteCommand, bot, chatId, session,
        old(planner.GetAllUpcomingPlans(chatId, planner.GetUserCurrentTime(chatId, clock))))
    {
      deleteHandler.StartDelete(bot, chatId, session, clock);
    }

    /** The cases of `HandleCommandAsync` that only answer
        (TelegramBotService.cs:279-282, :299-307 and :315-326), with its
        `catch` (:328-334) for a handler that throws. */
    method QueryCommand(chatId: int, text: string, clock: Clock)
      requires Wired()
      requires CommandOf(text) in {PlansCommand, SettingsCommand, HelpCommand, DateCommand, NotACommand}
      modifies bot
      ensures CommandOf(text) == PlansCommand ==>
        var now := old(planner.GetUserCurrentTime(chatId, clock));
        var dates := old(planner.GetDatesWithPlans(chatId, now));
        if |dates| > 0 && DatesRows(dates, now).None? then
          bot.sent == old(bot.sent) + [Outgoing(chatId, CommandError, Some(MainKeyboard))]
        else OfferedDates(bot, chatId, dates, now, false)
      ensures CommandOf(text) == SettingsCommand ==>
        bot.sent == old(bot.sent) + [Outgoing(chatId, Settings, Some(SettingsKeyboard))]
      ensures CommandOf(text) == HelpCommand ==>
        bot.sent == old(bot.sent) + [Outgoing(chatId, Help, Some(MainKeyboard))]
      ensures CommandOf(text) == DateCommand ==>
        match SelectedDate(text, old(planner.GetUserCurrentTime(chatId, clock)), clock.serverNow)
        case TargetThrew => bot.sent == old(bot.sent) + [Outgoing(chatId, CommandError, Some(MainKeyboard))]
        case Unrecognized => bot.sent == old(bot.sent) + [Outgoing(chatId, UnknownDate, Some(MainKeyboard))]
        case Target(date) => ShownDate(bot, chatId, date, old(planner.GetPlansForDate(chatId, date)))
      ensures CommandOf(text) == NotACommand ==>
        bot.sent == old(bot.sent) + [Outgoing(chatId, UnknownCommand, Some(MainKeyboard))]

    {
      match CommandOf(text)
      case PlansCommand =>
        var threw := commandHandler.HandleViewPlans(bot, chatId, clock);
        if threw {
          bot.SendMessage(chatId, CommandError, Some(MainKeyboard));
        }
      case SettingsCommand =>
        HandleSettings(chatId);
      case HelpCommand =>
        commandHandler.HandleHelp(bot, chatId);
      case DateCommand =>
        var threw := commandHandler.HandleDateSelection(bot, chatId, text, clock);
        if threw {
          bot.SendMessage(chatId, CommandError, Some(MainKeyboard));
        }
      case NotACommand =>
        bot.SendMessage(chatId, UnknownCommand, Some(MainKeyboard));
    }

    method HandleStart(chatId: int, session: UserSession, clock: Clock)
      modifies bot, session`state
      ensures session.state == if old(IsFirstRun(planner, chatId)) then UserState.WaitingForTimezone else old(session.state)
      ensures bot.sent == old(bot.sent) + [old(StartReply(planner, chatId, clock))]
    {
      var timezone := planner.GetUserTimezone(chatId);
      var isFirstRun := timezone == DefaultTimeZoneId && !planner.timezonesFileExists;
      if isFirstRun {
        session.state := UserState.WaitingForTimezone;
        bot.SendMessage(chatId, Welcome, Some(TimezoneKeyboard));
      } else {
        var now := planner.GetUserCurrentTime(chatId, clock);
        bot.SendMessage(chatId, MainMenu(now), Some(MainKeyboard));
      }
    }

    /** The answer to the zone keyboard: a city it names sets the chat's zone
        (and writes timezones.json); the dialogue ends either way. */
    method HandleTimezoneSelection(chatId: int, text: string, session: UserSession)
      modifies bot, session`state, planner`userTimezones, planner`timezonesFileExists
      ensures session.state == UserState.None
      ensures match ChosenZone(text)
        case Some(z) =>
          && planner.userTimezones == old(planner.userTimezones)[chatId := z] && planner.timezonesFileExists
          && bot.sent == old(bot.sent) + [Outgoing(chatId, TimezoneSet(z), Some(MainKeyboard))]
        case None =>
          && planner.userTimezones == old(planner.userTimezones)
          && planner.timezonesFileExists == old(planner.timezonesFileExists)
          && bot.sent == old(bot.sent)
    {
      if Contains(text, "Москва") {
        planner.SetUserTimezone(chatId, DefaultTimeZoneId);
        bot.SendMessage(chatId, TimezoneSet(DefaultTimeZoneId), Some(MainKeyboard));
      } else if Contains(text, "Екатеринбург") {
        planner.SetUserTimezone(chatId, EkaterinburgTimeZoneId);
        bot.SendMessage(chatId, TimezoneSet(EkaterinburgTimeZoneId), Some(MainKeyboard));
      }
      session.state := UserState.None;
    }

    method StartTimezoneSelection(chatId: int, session: UserSession)
      modifies bot, session`state
      ensures session.state == UserState.WaitingForTimezone
      ensures bot.sent == old(bot.sent) + [Outgoing(chatId, ChooseTimezone, Some(TimezoneKeyboard))]
    {
      session.state := UserState.WaitingForTimezone;
      bot.SendMessage(chatId, ChooseTimezone, Some(TimezoneKeyboard));
    }

    /** Opens the creation dialogue unless the chat is at the limit. */
    method StartPlanCreation(chatId: int, session: UserSession, clock: Clock)
      modifies bot, session`state, session`currentPlan, planner`nextId
      ensures StartedCreation(bot, chatId, session, planner,
        old(|planner.GetAllUpcomingPlans(chatId, clock.serverNow)|), old(planner.GetUserCurrentTime(chatId, clock)))
    {
      var upcoming := |planner.GetAllUpcomingPlans(chatId, clock.serverNow)|;
      BeginPlan(chatId, session, upcoming, clock);
    }

    /** The part of `StartPlanCreation` after counting the plans
        (TelegramBotService.cs:405-418): the limit message, or a new plan and
        the date step. */
    method BeginPlan(chatId: int, session: UserSession, upcoming: nat, clock: Clock)
      modifies bot, session`state, session`currentPlan, planner`nextId
      ensures StartedCreation(bot, chatId, session, planner, upcoming, old(planner.GetUserCurrentTime(chatId, clock)))
    {
      if upcoming >= MaxPlansPerUser {
        bot.SendMessage(chatId, LimitAtStart, Some(MainKeyboard));
        return;
      }
      session.state := UserState.WaitingForDateTime;
      var id := planner.NewId();
      session.currentPlan := new PlanItem(id, chatId, MinValue);
      var now := planner.GetUserCurrentTime(chatId, clock);
      var keyboard := DateQuickSelectKeyboard(now);
      if keyboard.Some? {
        bot.SendMessage(chatId, NewPlan, keyboard);
      }
    }

    method HandleSettings(chatId: int)
      modifies bot
      ensures bot.sent == old(bot.sent) + [Outgoing(chatId, Settings, Some(SettingsKeyboard))]
    {
      bot.SendMessage(chatId, Settings, Some(SettingsKeyboard));
    }

    /** One pass of `DailyNotificationTask`: every chat with plans whose
        local time is 08:00 gets its digest. */
    method DailyNotificationTick(clock: Clock)
      modifies bot
      ensures bot.sent == old(bot.sent) + old(Digests(planner, planner.GetAllChatIds(), clock))
    {
      var chatIds := planner.GetAllChatIds();
      SendDigests(chatIds, clock);
    }

    /** The digest loop over the chats `chatIds`. */
    method SendDigests(chatIds: seq<int>, clock: Clock)
      modifies bot
      ensures bot.sent == old(bot.sent) + Digests(planner, chatIds, clock)
    {
      var i := 0;
      while i < |chatIds|
        invariant 0 <= i <= |chatIds|
        invariant bot.sent == old(bot.sent) + Digests(planner, chatIds[..i], clock)
      {
        DigestsSnoc(planner, chatIds, i, clock);
        AppendAssoc(old(bot.sent), Digests(planner, chatIds[..i], clock),
          if DigestDue(planner, chatIds[i], clock) then [Digest(planner, chatIds[i], clock)] else []);
        SendDigest(chatIds[i], clock);
        i := i + 1;
      }
      assert chatIds[..i] == chatIds;
    }

    /** The body of the digest loop for one chat. */
    method SendDigest(chatId: int, clock: Clock)
      modifies bot
      ensures bot.sent == old(bot.sent) + old(if DigestDue(planner, chatId, clock) then [Digest(planner, chatId, clock)] else [])
    {
      var now := planner.GetUserCurrentTime(chatId, clock);
      if Hour(now) == 8 && Minute(now) == 0 {
        var plans := planner.GetPlansForDate(chatId, now);
        bot.SendMessage(chatId, MorningDigest(now, Views(plans)), Option.None);
      }
    }

    /** One pass of `EventNotificationTask`: every plan whose reminder is due
        at the UTC time gets its reminder, then is flagged as notified. */
    method EventNotificationTick(clock: Clock)
      modifies bot, planner.plans, planner`planSaves
      ensures planner.plans == old(planner.plans)
      ensures forall k :: 0 <= k < |planner.plans| ==> KeptButFlag(planner.plans[k])
      ensures bot.sent == old(bot.sent)
        + old(Reminders(planner, Keep(planner.plans, PendingPlans(planner.plans, clock.utcNow)), clock))
      ensures forall p :: p in old(Keep(planner.plans, PendingPlans(planner.plans, clock.utcNow))) ==>
        IdNotified(planner.plans, p.id)
      ensures var pending := old(Keep(planner.plans, PendingPlans(planner.plans, clock.utcNow)));
        forall k :: 0 <= k < |planner.plans| ==>
          (planner.plans[k].isNotified <==> old(planner.plans[k].isNotified) || FlaggedFor(planner.plans, k, pending))
      ensures planner.planSaves == old(planner.planSaves) + old(|Keep(planner.plans, PendingPlans(planner.plans, clock.utcNow))|)
    {
      var pending := planner.GetPendingNotifications(clock.utcNow);
      assert Reminders(planner, pending, clock) == old(Reminders(planner, pending, clock));
      SendReminders(pending, clock);
    }

    /** The reminder loop over the plans `pending`. */
    method SendReminders(pending: seq<PlanItem>, clock: Clock)
      requires forall k :: 0 <= k < |pending| ==> pending[k] in planner.plans
      modifies bot, planner.plans, planner`planSaves
      ensures planner.plans == old(planner.plans) && planner.userTimezones == old(planner.userTimezones)
      ensures forall k :: 0 <= k < |planner.plans| ==> KeptButFlag(planner.plans[k])
      ensures bot.sent == old(bot.sent) + old(Reminders(planner, pending, clock))
      ensures forall p :: p in pending ==> IdNotified(planner.plans, p.id)
      ensures forall k :: 0 <= k < |planner.plans| ==>
        (planner.plans[k].isNotified <==> old(planner.plans[k].isNotified) || FlaggedFor(planner.plans, k, pending))
      ensures planner.planSaves == old(planner.planSaves) + |pending|
    {
      ghost var before := Flags(planner.plans);
      var i := 0;
      while i < |pending|
        invariant 0 <= i <= |pending|
        invariant planner.plans == old(planner.plans) && planner.userTimezones == old(planner.userTimezones)
        invariant forall k :: 0 <= k < |planner.plans| ==> KeptButFlag(planner.plans[k])
        invariant bot.sent == old(bot.sent) + old(Reminders(planner, pending[..i], clock))
        invariant |before| == |planner.plans|
        invariant forall k :: 0 <= k < |planner.plans| ==>
          (planner.plans[k].isNotified <==> before[k] || FlaggedFor(planner.plans, k, pending[..i]))
        invariant planner.planSaves == old(planner.planSaves) + i
      {
        assert pending[..i + 1][..i] == pending[..i];
        AppendAssoc(old(bot.sent), old(Reminders(planner, pending[..i], clock)), [old(ReminderFor(planner, pending[i], clock))]);
        RemindNext(pending, i, before, clock);
        i := i + 1;
      }
      assert pending[..i] == pending;
      FlaggedNotified(planner.plans, before, pending);
    }

    /** One turn of the reminder loop: the reminder for `pending[i]`, after
        which the first `i + 1` pending plans are marked since `before`. */
    method RemindNext(pending: seq<PlanItem>, i: nat, ghost before: seq<bool>, clock: Clock)
      requires i < |pending| && pending[i] in planner.plans && |before| == |planner.plans|
      requires forall k :: 0 <= k < |planner.plans| ==>
        (planner.plans[k].isNotified <==> before[k] || FlaggedFor(planner.plans, k, pending[..i]))
      modifies bot, planner.plans`isNotified, planner`planSaves
      ensures planner.plans == old(planner.plans) && planner.userTimezones == old(planner.userTimezones)
      ensures forall k :: 0 <= k < |planner.plans| ==> KeptButFlag(planner.plans[k])
      ensures bot.sent == old(bot.sent) + [old(ReminderFor(planner, pending[i], clock))]
      ensures forall k :: 0 <= k < |planner.plans| ==>
        (planner.plans[k].isNotified <==> before[k] || FlaggedFor(planner.plans, k, pending[..i + 1]))
      ensures planner.planSaves == old(planner.planSaves) + 1
    {
      NotifyOne(pending[i], clock);
      forall k | 0 <= k < |planner.plans|
        ensures FlaggedFor(planner.plans, k, pending[..i + 1]) <==> FlaggedFor(planner.plans, k, pending[..i]) || FlaggedFor(planner.plans, k, [pending[i]])
      {
        FlaggedForSnoc(planner.plans, k, pending, i);
      }
    }

    /** The body of the reminder loop for one plan. */
    method NotifyOne(plan: PlanItem, clock: Clock)
      requires plan in planner.plans
      modifies bot, planner.plans`isNotified, planner`planSaves
      ensures planner.plans == old(planner.plans) && planner.userTimezones == old(planner.userTimezones)
      ensures forall k :: 0 <= k < |planner.plans| ==> KeptButFlag(planner.plans[k])
      ensures bot.sent == old(bot.sent) + [old(ReminderFor(planner, plan, clock))]
      ensures IdNotified(planner.plans, plan.id)
      ensures forall k :: 0 <= k < |planner.plans| ==>
        (planner.plans[k].isNotified <==> old(planner.plans[k].isNotified) || FlaggedFor(planner.plans, k, [plan]))
      ensures planner.planSaves == old(planner.planSaves) + 1
    {
      var userTime := planner.GetUserCurrentTime(plan.chatId, clock);
      var minutesLeft := MinutesLeft(Ticks(plan.dateTime) - Ticks(userTime));
      bot.SendMessage(plan.chatId, Reminder(ViewOf(plan), minutesLeft), Option.None);
      planner.MarkAsNotified(plan.id);
      assert FindId(planner.plans, plan.id).Some?;
      var m := FindId(planner.plans, plan.id).value;
      forall k | 0 <= k < |planner.plans|
        ensures planner.plans[k].isNotified <==> old(planner.plans[k].isNotified) || FlaggedFor(planner.plans, k, [plan])
      {
        assert [plan][0] == plan;
        if planner.plans[k] == planner.plans[m] {
          assert FlaggedFor(planner.plans, k, [plan]);
        } else {
          assert !FlaggedFor(planner.plans, k, [plan]);
        }
      }
    }
  }
}
