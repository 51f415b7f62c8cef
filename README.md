# dailyNotifBot planner core, in Dafny

dailyNotifBot is a Telegram bot for keeping a personal planner. Each chat
owns plans: a date and time, a description, a reminder lead time and an
optional daily, weekly or monthly recurrence, which expands into separate
occurrences up to an end date. This project models the bot's core and
proves properties of it:

- the plan store (`PlannerService`);
- the dialogues that create, edit and delete plans;
- the command router and the per-chat session state machine;
- the rate limiter;
- the two notification passes (the 08:00 morning digest and the reminders
  before a plan starts);
- the reply keyboards and the parsers of their labels;
- the voice-command text parser.

The modules follow the source's files:

| module | file | what it holds |
|---|---|---|
| `Wrappers`, `Seqs`, `Text` | — | `Option`; generic sequence lemmas; .NET string operations the source calls |
| `Calendar` | — | the slice of `System.DateTime` the bot uses |
| `Models` | `Models/*.cs` | `PlanItem`, `UserSession`, the enums |
| `Planner` | `Services/PlannerService.cs` | the store as a class over a sequence of plan objects |
| `Keyboard` | `UI/Keyboardhelper.cs` | the keyboards and their parsers |
| `Messages` | — | the replies a handler sends, and the client as a log of them |
| `Creation` | `Handlers/SimplePlanCreationHandler.cs` | the creation dialogue |
| `Editing` | `Handlers/PlanEditHandler.cs` | the edit dialogue |
| `Deletion` | `Handlers/DeleteHandler.cs` | the delete dialogue |
| `Commands` | `Handlers/CommandHandler.cs` | viewing plans by date, search, help |
| `BotService` | `Bot/TelegramBotService.cs` | routing, sessions, rate limit, notification passes |
| `VoiceCommandParser` | `Services/Voicecommandparser.cs` | the free-text parser |

## How the model is built

Plans and sessions are heap objects, as in the source. A session's
`CurrentPlan` and `TempPlansList` hold the store's own plan objects, so an
edit writes into the stored plan before `UpdatePlan` is called.

- `UserSession.Valid()` says that every state whose handler dereferences
  `CurrentPlan!` has a current plan. Every handler keeps it.
- The store is a class whose `plans` field is a sequence of plan
  references. `planSaves` counts the writes of `plans.json`, and
  `timezonesFileExists` records whether `timezones.json` exists. The file
  contents are not modelled.
- Plan ids are numbers drawn from a counter that starts above every loaded
  id. The source uses `Guid.NewGuid()`, and this stands in for it.
- The bot client is a log of the messages sent. Each message records its
  chat, a structured reply and the keyboard. The exact message texts are
  not modelled, except where the code reads a text back: keyboard labels,
  dates and times.
- Clocks are parameters, since time zones are not modelled:
  - a `Clock` value carries `utcNow` (`DateTime.UtcNow`), `serverNow`
    (`DateTime.Now`) and the local time in each zone, from which
    `GetUserCurrentTime` reads the chat's local now.
- `DateTime` is a calendar date with a time of day in milliseconds,
  ordered by ticks. An operation that would throw
  `ArgumentOutOfRangeException` past 9999-12-31 returns `None`. The model
  then follows the source's `try`/`catch` on that path.

The model follows the code where the code does something its authors may
not have meant:

- The rate limiter drops the first message of every chat.
  `GetOrAdd(chatId, now)` stores the arrival time of that first message, so
  the message is compared against itself.
- Pending reminders compare each plan's local wall-clock time against
  `DateTime.UtcNow`.
- "15 минут" is read as 5 minutes. The test for "5" comes first.
- In the time-zone answer, "Москва" is checked before "Екатеринбург". An
  answer naming neither city ends the dialogue silently, and the chat stays
  a first run.
- "Послезавтра" contains "завтра". The day-after-tomorrow branch of the
  voice parser is therefore never taken.
- In the date selection, a "dd.MM" text is parsed in the year of the
  machine's clock (`TryParseExact`). The plan date is then rebuilt in the
  chat's year.
- The 200-plan limit counts upcoming plans from `DateTime.Now`, not from
  the chat's local time.
- If building the date keyboard throws, `StartPlanCreation` leaves the
  state set and sends no message.
- The delete dialogue's `TempValue` mark survives a cancel. The next
  delete dialogue reads it.
- The menu label that `HandleSearch` and `HandleNumbersInput` test for is
  already caught by the global menu check, before they run.
- `GetTodayPlans` is `GetPlansForDate` on the given date.
- `GetPlanById` is the lookup that the model's `FindPlan` states.

## Model

| member | source | states |
|---|---|---|
| Planner.Step | dailyNotifBot/Services/PlannerService.cs:115-121 | one step of a series is strictly later and keeps the time of day: a daily step adds exactly one day, a weekly step seven, a monthly step moves to the next calendar month; no step exists past 9999-12-31 |
| Planner.SeriesOfPrefix | dailyNotifBot/Services/PlannerService.cs:113-137 | any chain of successive steps from the start, all before the end, that stops where the loop stops (next step at or past the end, or no next step) is exactly the expansion of the series |
| Planner.PrefixOfSeries | dailyNotifBot/Services/PlannerService.cs:113-137 | conversely, the expansion of a series is such a chain of steps, stopped where the loop stops, and it overflowed only when a step before the end had no successor |
| Planner.PrefixIncreasing | dailyNotifBot/Services/PlannerService.cs:113-123 | the generated occurrence dates are all after the original's date and strictly increasing |
| Planner.OccurrenceDates | dailyNotifBot/Services/PlannerService.cs:110-137 | the `while (currentDate < endDate)` loop produces exactly the dates of the series and reports whether a step ran off the calendar |
| Planner.EndDate | dailyNotifBot/Services/PlannerService.cs:110 | the end of a series is the plan's RecurrenceEndDate when set, otherwise a date later than the plan's own (three months on) |
| Planner.FindPlan | dailyNotifBot/Services/PlannerService.cs:165-168 | `FirstOrDefault(p => p.Id == id && p.ChatId == chatId)`: the index of the first plan with that id and chat, and none before it; None exactly when no plan matches |
| Planner.FindId | dailyNotifBot/Services/PlannerService.cs:276 | `FirstOrDefault(p => p.Id == planId)`: the first plan with that id, whichever its chat; None exactly when no plan has it |
| Planner.SameDayByTime | dailyNotifBot/Services/PlannerService.cs:174-180 | plans of one calendar day ordered by time of day are ordered by date and time |
| Planner.SortBy | dailyNotifBot/Services/PlannerService.cs:189-192 | `OrderBy` returns a permutation of its input in ascending key order, and is stable: for every key value, the plans with that key keep their input order |
| Seqs.SortByKeyStable | dailyNotifBot/Services/PlannerService.cs:189-192 | the insertion sort behind `OrderBy` keeps, for every key value, the input order of the elements with that key |
| Planner.SortDates | dailyNotifBot/Services/PlannerService.cs:210 | `OrderBy(d => d)` on dates is an ascending permutation |
| Planner.DatesOf | dailyNotifBot/Services/PlannerService.cs:208 | `Select(p => p.DateTime.Date)` maps each plan to its calendar date, position by position |
| Planner.ChatIdsOf | dailyNotifBot/Services/PlannerService.cs:286 | `Select(p => p.ChatId)` maps each plan to its chat, position by position |
| Planner.MaxId | dailyNotifBot/Services/PlannerService.cs:66 | every loaded plan's id is at most the returned bound, so ids drawn above it are new (the GUID uniqueness the source relies on) |
| Planner.DeleteIdsStep | dailyNotifBot/Services/PlannerService.cs:241-249 | one iteration of the `foreach (var id in planIds)` loop: an id with no plan of the chat is skipped, otherwise its first plan goes and the count rises by one |
| Planner.DeleteIdsRemoves | dailyNotifBot/Services/PlannerService.cs:238-252 | deleting by ids removes at most one plan per id, removes only plans of that chat, removes only plans that were there, and the count equals the number removed |
| Planner.GetRecurrenceName | dailyNotifBot/Services/PlannerService.cs:293-302 | the name is "Не повторяется" exactly for a plan that does not recur |
| Planner.NotifText | dailyNotifBot/Services/PlannerService.cs:311 | the lead-time text is exactly "1 час" for 60 minutes; any other lead time ends in " мин", preceded (for a non-negative count) by digits that read back as the minutes |
| Planner.FormatPlan | dailyNotifBot/Services/PlannerService.cs:304-322 | the short form starts with the clock icon and an "HH:mm" that reads back as the plan's hour and minute, and ends with " - " and the description; the detailed form starts with the description line and ends with the "⏰ Напомнить за" line of the lead-time text, and the "🔄" recurrence-name line stands just before that last line exactly when the plan recurs |
| Planner.PlannerService.constructor | dailyNotifBot/Services/PlannerService.cs:17-49 | the store starts with the plans and the time-zone map the files held, no save done, and an id counter above every loaded id (IdsBelowCounter) |
| Planner.PlannerService.NewId | dailyNotifBot/Models/PlanItem.cs:7 | each new plan id is the counter's value and the counter moves on, so no id is handed out twice; while every stored id is below the counter, the new id is held by no stored plan |
| Planner.PlannerService.SetUserTimezone | dailyNotifBot/Services/PlannerService.cs:67-71 | the chat's zone becomes the given id, every other chat's zone is unchanged, and the time-zone file now exists |
| Planner.PlannerService.AddPlan | dailyNotifBot/Services/PlannerService.cs:96-106 | the plan is appended; a one-off plan alone; a recurring plan followed by exactly the fresh occurrences of its series, in date order, with fresh ids; the list is saved unless the series threw, in which case the plans added so far stay; when every stored id and the plan's own are below the counter, so is every id afterwards, and each appended occurrence's id differs from every plan before it |
| Planner.PlannerService.CreateRecurringPlans | dailyNotifBot/Services/PlannerService.cs:108-138 | appends one occurrence per series date, each copying ChatId, Description, NotificationMinutes, Recurrence and RecurrenceEndDate, pointing at the original's id, not notified; nothing before the appended part changes; the appended ids are new and pairwise distinct, and every id stays below the counter |
| Planner.PlannerService.AppendOccurrences | dailyNotifBot/Services/PlannerService.cs:125-136 | appends, in order, one fresh occurrence per date with consecutive fresh ids, leaving the existing list as it was |
| Planner.FreshAppend | dailyNotifBot/Models/PlanItem.cs:7 | ids below the counter followed by consecutive ids from the counter: each appended id is held by no earlier plan and by no other appended plan |
| Planner.PlannerService.NewOccurrence | dailyNotifBot/Services/PlannerService.cs:125-134 | the object initializer of an occurrence: a fresh plan on the date with the original's fields and the original's id as parent |
| Planner.PlannerService.UpdatePlan | dailyNotifBot/Services/PlannerService.cs:140-151 | returns true exactly when a plan with the same Id and ChatId exists, and then replaces the first such plan in place and saves; otherwise nothing changes; ids stay below the counter |
| Planner.PlannerService.DeletePlan | dailyNotifBot/Services/PlannerService.cs:153-163 | returns true exactly when the chat has a plan with that id; the first such plan, and only it, is removed, and the list is saved only then; ids stay below the counter |
| Planner.PlannerService.GetPlansForDate | dailyNotifBot/Services/PlannerService.cs:174-185 | exactly the chat's plans on that calendar date, as a permutation of them, ordered by time of day (and so by date and time), plans of equal time of day in store order |
| Planner.PlannerService.GetAllUpcomingPlans | dailyNotifBot/Services/PlannerService.cs:187-193 | exactly the chat's plans at or after `fromDate`, as a permutation of them, ordered by date and time, plans of equal date and time in store order |
| Planner.PlannerService.SearchPlans | dailyNotifBot/Services/PlannerService.cs:195-202 | exactly the chat's plans whose lower-cased description contains the lower-cased query, past ones included, ordered by date and time, plans of equal date and time in store order |
| Planner.PlannerService.GetDatesWithPlans | dailyNotifBot/Services/PlannerService.cs:204-213 | at most ten dates, strictly ascending, each the date of an upcoming plan of the chat; every upcoming plan's date is listed unless ten earlier dates fill the list |
| Planner.PlannerService.GetAllChatIds | dailyNotifBot/Services/PlannerService.cs:284-287 | every chat that owns a plan, each exactly once, and no other, in the order the chats first appear in the store |
| Seqs.DistinctFirstOrder | dailyNotifBot/Services/PlannerService.cs:284-287 | `Distinct` lists the elements in the order they first appear |
| Planner.PlannerService.RemoveEach | dailyNotifBot/Services/PlannerService.cs:218-221 | the `foreach ... _plans.Remove(plan)` loop removes the first occurrence of each listed object in turn |
| Planner.PlannerService.DeletePlansByDate | dailyNotifBot/Services/PlannerService.cs:215-224 | removes exactly the chat's plans on that date, keeping the others in order; returns how many went; other chats' plans all stay; the list is saved; ids stay below the counter |
| Planner.PlannerService.DeleteRecurringPlans | dailyNotifBot/Services/PlannerService.cs:226-236 | removes exactly the chat's plans whose Id or ParentRecurrenceId is the given id, keeping the others in order; returns how many went; the list is saved; ids stay below the counter |
| Planner.PlannerService.DeleteMultiplePlans | dailyNotifBot/Services/PlannerService.cs:238-252 | the list and the count are those of removing, id by id, the chat's first plan with that id; the count is at most the number of ids and other chats' plans all stay; ids stay below the counter |
| Planner.PlannerService.GetPendingNotifications | dailyNotifBot/Services/PlannerService.cs:258-272 | exactly the plans, in store order, that are not yet notified and start between `currentTime` and their lead time after it, both ends included |
| Planner.PlannerService.MarkAsNotified | dailyNotifBot/Services/PlannerService.cs:274-282 | the first plan with that id, of any chat, becomes notified and nothing else about it or any other plan changes; a missing id changes nothing and saves nothing |
| Planner.FirstDistinctDates | dailyNotifBot/Services/PlannerService.cs:209-211 | `Distinct().OrderBy(d => d).Take(n)` yields at most n strictly ascending dates from the input, and every input date is kept unless n smaller ones fill the list |
| Planner.UpcomingDates | dailyNotifBot/Services/PlannerService.cs:206-208 | the dates selected are exactly the dates of the chat's upcoming plans |
| Planner.SeriesNext | dailyNotifBot/Services/PlannerService.cs:113-123 | one turn of the loop: no next date ends the series with an exception, a next date at or past the end ends it, and an earlier one is the first occurrence followed by the series from it |
| Planner.DatesWithPlans | dailyNotifBot/Services/PlannerService.cs:204-213 | the dates offered are at most ten, strictly ascending, each the day of an upcoming plan of the chat, and every upcoming plan's day is among them unless ten earlier days fill the list |
| Keyboard.DateQuickSelectKeyboard | dailyNotifBot/UI/Keyboardhelper.cs:49-72 | today and tomorrow in the first row, the day after in the second, "enter date" and cancel in the third; it throws exactly when the day after tomorrow is past the calendar |
| Keyboard.AddDaysPrefix | dailyNotifBot/UI/Keyboardhelper.cs:52-53 | when two days can be added, one can too, so the tomorrow button exists whenever the keyboard does |
| Keyboard.OtherDates | dailyNotifBot/UI/Keyboardhelper.cs:156 | the dates kept are dates of the list on neither today nor tomorrow |
| Keyboard.DateLabels | dailyNotifBot/UI/Keyboardhelper.cs:160-162 | one "📅 dd.MM.yyyy" label per date, in order |
| Keyboard.GetDatesKeyboard | dailyNotifBot/UI/Keyboardhelper.cs:141-173 | the keyboard is the layout of the dates, one-time; it throws exactly when the list is not empty and today is the last day of the calendar |
| Keyboard.PairUp | dailyNotifBot/UI/Keyboardhelper.cs:157-164 | the `i += 2` loop builds exactly the rows of two labels, the last holding one when their number is odd |
| Keyboard.PairRowsSnoc | dailyNotifBot/UI/Keyboardhelper.cs:157-164 | one more step of that loop adds one more row |
| Keyboard.PairRowsLayout | dailyNotifBot/UI/Keyboardhelper.cs:157-164 | the rows hold every label once, in order, one or two to a row, in (n + 1) / 2 rows |
| Keyboard.OtherDatesExact | dailyNotifBot/UI/Keyboardhelper.cs:156 | every date of the list on neither today nor tomorrow is kept |
| Keyboard.DatesKeyboardLayout | dailyNotifBot/UI/Keyboardhelper.cs:141-173 | the first row holds the today and tomorrow buttons exactly when plans fall on those days; every other date gets exactly one button, in order, at most two to a row; the last row is the menu button |
| Keyboard.TodayTomorrowLabelsDiffer | dailyNotifBot/UI/Keyboardhelper.cs:148-150 | the today and tomorrow buttons are different labels |
| Keyboard.ParseNotificationMinutes | dailyNotifBot/UI/Keyboardhelper.cs:190-197 | the result is 5, 10, 30 or 60 (never 15); 5 exactly when the text contains "5"; 30 exactly when it contains "30" but no "5"; 60 exactly when it contains "час" but neither "5" nor "30"; 10 exactly when it contains none of "5", "30", "час" |
| Keyboard.FifteenGivesFive | dailyNotifBot/UI/Keyboardhelper.cs:192-193 | any text with "15" contains "5", which is checked first, so it gives 5 |
| Keyboard.ParseRecurrence | dailyNotifBot/UI/Keyboardhelper.cs:199-205 | daily exactly when the text contains "день", weekly when it has "неделю" but not "день", monthly when it has "месяц" and neither of those |
| Keyboard.RecurrenceLabelsParse | dailyNotifBot/UI/Keyboardhelper.cs:102-113 | the four recurrence buttons give daily, weekly, monthly and none |
| Keyboard.NotificationLabelsParse | dailyNotifBot/UI/Keyboardhelper.cs:88-100 | the five lead-time buttons give 5, 10, 5 (not 15), 30 and 60 minutes |
| Keyboard.FifteenHasFive | dailyNotifBot/UI/Keyboardhelper.cs:192-193 | a text holding "15" holds "5" |
| Messages.Views | dailyNotifBot/Handlers/PlanEditHandler.cs:40-43 | a listing shows every plan it is given, in order, line `i` built from plan `i` |
| Messages.PlanNumber | dailyNotifBot/Handlers/PlanEditHandler.cs:51 | a number is accepted exactly when the text parses as a 32-bit number from 1 to the listing's length |
| Messages.ListedNumber | dailyNotifBot/Handlers/PlanEditHandler.cs:40-53 | typing the number shown in front of a listed line picks that line |
| Messages.BotClient.constructor | dailyNotifBot/Bot/TelegramBotService.cs:37-48 | nothing has been sent yet |
| Messages.BotClient.SendMessage | dailyNotifBot/Handlers/PlanEditHandler.cs:31-32 | the message is appended to what was sent, with its chat and keyboard |
| Models.PlanItem.constructor | dailyNotifBot/Models/PlanItem.cs:5-18 | a new plan has an empty description, is not notified, does not repeat, has no end date and no parent, and reminds 10 minutes ahead |
| Models.UserSession.constructor | dailyNotifBot/Models/UserSession.cs:5-15 | a new session is idle with no current plan, an empty list, an empty field and mark, and the default time zone |
| Creation.DaysAhead | dailyNotifBot/Handlers/SimplePlanCreationHandler.cs:36-39 | `Date.AddDays(n)`: the date n days after today, or the exception when that is past the calendar |
| Creation.ReadDate | dailyNotifBot/Handlers/SimplePlanCreationHandler.cs:21-53 | cancelling exactly for "❌ Отмена" and "🏠 В меню"; a chosen date is a whole day; the prompt only for "✏️ Ввести дату" |
| Creation.ReadTime | dailyNotifBot/Handlers/SimplePlanCreationHandler.cs:62-93 | cancelling exactly for the two cancel labels; a chosen time is a whole number of minutes within one day; the prompt only for "✏️ Ввести время" |
| Creation.ChosenRecurrence | dailyNotifBot/Handlers/SimplePlanCreationHandler.cs:145-148 | "⏭ Не повторять" keeps the plan's recurrence; any other answer sets it, to a repeating one only when the text names a day, a week or a month |
| Creation.ChosenEndDate | dailyNotifBot/Handlers/SimplePlanCreationHandler.cs:148-151 | a repeating plan gets an end date three calendar months after its own date; otherwise the end date is kept |
| Creation.SimplePlanCreationHandler.constructor | dailyNotifBot/Handlers/SimplePlanCreationHandler.cs:16-19 | the handler works on the given store |
| Creation.SimplePlanCreationHandler.HandleDateTimeSelection | dailyNotifBot/Handlers/SimplePlanCreationHandler.cs:21-60 | cancelling drops the plan; a chosen date starts a fresh plan of the chat on that date at midnight and asks for the time; the prompt and a bad date answer and change nothing; a day past the calendar throws before any change |
| Creation.SimplePlanCreationHandler.HandleTimeSelection | dailyNotifBot/Handlers/SimplePlanCreationHandler.cs:62-102 | cancelling drops the plan; a chosen time replaces the plan's time of day on the same date and asks for the description; the prompt and a bad time answer and change nothing |
| Creation.SimplePlanCreationHandler.HandleDescription | dailyNotifBot/Handlers/SimplePlanCreationHandler.cs:104-118 | cancelling ends the dialogue but keeps the current plan; any other text becomes the description verbatim and the lead time is asked |
| Creation.SimplePlanCreationHandler.HandleNotificationTime | dailyNotifBot/Handlers/SimplePlanCreationHandler.cs:120-134 | cancelling ends the dialogue; otherwise the lead time is what the parser reads and the recurrence is asked |
| Creation.SimplePlanCreationHandler.HandleRecurrence | dailyNotifBot/Handlers/SimplePlanCreationHandler.cs:136-174 | cancelling saves nothing; otherwise the recurrence and end date are set, the plan is added to the store with its occurrences, the summary is sent and the dialogue ends; an end date past the calendar throws after the recurrence was set, with nothing saved |
| Creation.SetRecurrence | dailyNotifBot/Handlers/SimplePlanCreationHandler.cs:145-152 | sets the recurrence and, for a repeating plan, the end date; reports the exception when the end date is past the calendar |
| Creation.QuickDateButtons | dailyNotifBot/UI/Keyboardhelper.cs:49-72 | the quick date keyboard's buttons read back as today, tomorrow, the day after, the date prompt and cancelling |
| Creation.PromptButton | dailyNotifBot/Handlers/SimplePlanCreationHandler.cs:40-44 | "✏️ Ввести дату" names no day, so it reaches the prompt |
| Creation.TodayButton | dailyNotifBot/Handlers/SimplePlanCreationHandler.cs:34-35 | the today button picks the chat's today |
| Creation.TomorrowButton | dailyNotifBot/Handlers/SimplePlanCreationHandler.cs:36-37 | the tomorrow button picks the chat's tomorrow |
| Creation.DayAfterButton | dailyNotifBot/Handlers/SimplePlanCreationHandler.cs:38-39 | the day-after button names neither today nor tomorrow, so it picks the day after tomorrow |
| Creation.TypedDate | dailyNotifBot/Handlers/SimplePlanCreationHandler.cs:45-48 | a typed "dd.MM.yyyy" is read as exactly the date it parses to |
| Creation.TypedDateRoundTrip | dailyNotifBot/Handlers/SimplePlanCreationHandler.cs:45-58 | typing a date as the bot prints it gives that date back |
| Creation.QuickTimeButtons | dailyNotifBot/UI/Keyboardhelper.cs:74-86 | the six quick time buttons read back as their hours, and the last row as the prompt and cancelling |
| Creation.QuickTimeButton | dailyNotifBot/Handlers/SimplePlanCreationHandler.cs:74-79 | each quick time button reaches its own hour, none being caught by an earlier test |
| Creation.ParseWholeHour | dailyNotifBot/Handlers/SimplePlanCreationHandler.cs:85 | "hh:00" parses as hh whole hours |
| Creation.QuickAgrees | dailyNotifBot/Handlers/SimplePlanCreationHandler.cs:74-85 | the quick tests agree with the exact parse on a five-character text |
| Creation.TypedTime | dailyNotifBot/Handlers/SimplePlanCreationHandler.cs:74-88 | a typed "hh:mm" is read as exactly the time it parses to |
| Editing.ValueKeyboard | dailyNotifBot/Handlers/PlanEditHandler.cs:94-100 | the reminder keyboard exactly for "⏰ Уведомление", the cancel keyboard for every other modelled field |
| Editing.ApplyEdit | dailyNotifBot/Handlers/PlanEditHandler.cs:118-167 | a bad date or time is refused exactly when that field was chosen and the text does not parse; a new date keeps the time of day, a new time keeps the date; only the chosen field changes |
| Editing.ApplyEditIdempotent | dailyNotifBot/Handlers/PlanEditHandler.cs:118-167 | entering the same value a second time changes nothing more |
| Editing.SameDateAndTime | dailyNotifBot/Handlers/PlanEditHandler.cs:123-135 | a date and time is fixed by its calendar date and its time of day |
| Editing.EditDateRoundTrip | dailyNotifBot/Handlers/PlanEditHandler.cs:120-124 | entering a date as the bot prints it moves the plan to that day at the same time of day |
| Editing.EditTimeRoundTrip | dailyNotifBot/Handlers/PlanEditHandler.cs:132-136 | entering a time as the bot prints it moves the plan to that minute of the same day |
| Editing.PlanEditHandler.constructor | dailyNotifBot/Handlers/PlanEditHandler.cs:19-22 | the handler works on the given store |
| Editing.PlanEditHandler.StartEdit | dailyNotifBot/Handlers/PlanEditHandler.cs:24-47 | no upcoming plans: only a message; otherwise the whole upcoming list is kept in the session, the state waits for a number and the first ten plans are shown |
| Editing.PlanEditHandler.ListForEdit | dailyNotifBot/Handlers/PlanEditHandler.cs:29-46 | the same, for a given list of plans |
| Editing.PlanEditHandler.HandlePlanSelection | dailyNotifBot/Handlers/PlanEditHandler.cs:49-66 | a number from 1 to the list's length makes that plan (the store's own object) the current one and asks for the field; anything else only answers with the valid range |
| Editing.PlanEditHandler.HandleFieldChoice | dailyNotifBot/Handlers/PlanEditHandler.cs:68-103 | "❌ Отмена" ends the dialogue and drops the plan; any other text is kept as the field and its prompt is sent |
| Editing.PlanEditHandler.HandleNewValue | dailyNotifBot/Handlers/PlanEditHandler.cs:105-181 | cancelling ends the dialogue but keeps the current plan; a bad date or time answers and changes nothing; an accepted value is written into the plan, the store's entry is replaced, the plan is shown and the dialogue ends |
| Editing.PlanEditHandler.SaveEdit | dailyNotifBot/Handlers/PlanEditHandler.cs:169-175 | the new values are in the plan, the store holds it in place of the entry with its id, and the dialogue is over |
| Deletion.SeriesKey | dailyNotifBot/Handlers/DeleteHandler.cs:87 | an occurrence goes by its parent's id, an original by its own |
| Deletion.RecurringOf | dailyNotifBot/Handlers/DeleteHandler.cs:84-86 | exactly the plans of the listing that are occurrences or have an occurrence in the listing, each from the listing |
| Deletion.FirstPerSeries | dailyNotifBot/Handlers/DeleteHandler.cs:87-88 | one plan per series, each a plan of the input, the first of its series, and every series of the input is kept |
| Deletion.SeriesList | dailyNotifBot/Handlers/DeleteHandler.cs:84-90 | at most ten recurring plans of the listing, no two of one series; each is the plan that starts its series in the listing; the series are in the order they start; with ten shown, every recurring series starting before the tenth is among them, and with fewer every series of the listing is |
| Deletion.FirstPerSeriesStarts | dailyNotifBot/Handlers/DeleteHandler.cs:87-88 | `GroupBy(...).Select(g => g.First())` takes each series by the plan that starts it, in the order the series start |
| Deletion.RecurringStartOrder | dailyNotifBot/Handlers/DeleteHandler.cs:84-86 | the recurring filter keeps the order in which two recurring series start |
| Deletion.SeriesListStarts | dailyNotifBot/Handlers/DeleteHandler.cs:84-90 | the listed series are the first ten to start, each shown by its first plan, in start order |
| Deletion.TokenNumber | dailyNotifBot/Handlers/DeleteHandler.cs:167 | a word reads as a non-zero number only when it parses as that 32-bit number |
| Deletion.TokenNumbers | dailyNotifBot/Handlers/DeleteHandler.cs:167 | each word read as its number, in order |
| Deletion.InRange | dailyNotifBot/Handlers/DeleteHandler.cs:168 | every number kept is from 1 to the listing's length and was typed, and every typed number in that range is kept |
| Deletion.InRangeAppend | dailyNotifBot/Handlers/DeleteHandler.cs:168 | the filter goes piece by piece: what it keeps from a list is what it keeps from a first part followed by what it keeps from the rest; so the kept numbers come in typed order, each as often as typed |
| Deletion.InRangeOne | dailyNotifBot/Handlers/DeleteHandler.cs:168 | one number is kept exactly when it is from 1 to the listing's length |
| Deletion.SelectedNumbers | dailyNotifBot/Handlers/DeleteHandler.cs:166-170 | the positions picked are in the listing, each once, each typed, and every typed position of the listing is picked |
| Deletion.TypedNumbers | dailyNotifBot/Handlers/DeleteHandler.cs:166-170 | typing listed numbers separated by spaces picks exactly those positions in the order typed, repeats dropped |
| Deletion.SplitSpaced | dailyNotifBot/Handlers/DeleteHandler.cs:166 | splitting numbers typed with spaces gives back their numerals |
| Deletion.IdsAt | dailyNotifBot/Handlers/DeleteHandler.cs:178 | the ids of the plans at the positions picked, in order |
| Deletion.DeleteHandler.constructor | dailyNotifBot/Handlers/DeleteHandler.cs:18-21 | the handler works on the given store |
| Deletion.DeleteHandler.StartDelete | dailyNotifBot/Handlers/DeleteHandler.cs:23-52 | no upcoming plans: only a message; otherwise the first twenty are kept in the session and shown under the total, and the state waits for the way of deleting |
| Deletion.DeleteHandler.ListForDelete | dailyNotifBot/Handlers/DeleteHandler.cs:28-51 | the same, for a given list of plans |
| Deletion.DeleteHandler.HandleDeleteChoice | dailyNotifBot/Handlers/DeleteHandler.cs:54-113 | "🏠 В меню" ends the dialogue and clears the listing; "by numbers" only asks; "by date" asks and marks the next answer as a date; "all recurring" lists the series; any other text is an answer |
| Deletion.DeleteHandler.ListSeries | dailyNotifBot/Handlers/DeleteHandler.cs:81-108 | no series: the dialogue ends; otherwise the series list replaces the listing and the next answer is marked as a series number |
| Deletion.DeleteHandler.HandleNumbersInput | dailyNotifBot/Handlers/DeleteHandler.cs:115-186 | a cancel button ends the dialogue keeping the mark; otherwise the mark decides whether the text is a date, a series number or a list of numbers |
| Deletion.DeleteHandler.DeleteOnDate | dailyNotifBot/Handlers/DeleteHandler.cs:127-142 | a date removes exactly the chat's plans on that day, reports how many and ends the dialogue; a bad date changes nothing |
| Deletion.DeleteHandler.DeleteSeries | dailyNotifBot/Handlers/DeleteHandler.cs:145-163 | a listed number removes every plan of that series in the chat and ends the dialogue; any other answer changes nothing |
| Deletion.DeleteHandler.DeleteNumbers | dailyNotifBot/Handlers/DeleteHandler.cs:165-185 | no position picked: only a message; otherwise the plans at the positions picked are removed by id and the dialogue ends |
| Deletion.DeleteHandler.RemoveNumbered | dailyNotifBot/Handlers/DeleteHandler.cs:178-185 | the store loses exactly the chat's plans with the picked ids, the count is reported and the listing is cleared |
| Commands.SelectedDate | dailyNotifBot/Handlers/CommandHandler.cs:41-66 | "Сегодня" anywhere means the chat's today and "Завтра" its tomorrow (an exception past the calendar); otherwise the text without icons, trimmed, as "dd.MM.yyyy" and then as "dd.MM"; a shown date is a whole day; unrecognized only when both parses fail |
| Commands.TodayDateButton | dailyNotifBot/Handlers/CommandHandler.cs:44-47 | the today button shows the plans of the chat's today |
| Commands.TomorrowDateButton | dailyNotifBot/Handlers/CommandHandler.cs:48-51 | the tomorrow button, which does not say "Сегодня", shows the plans of the chat's tomorrow |
| Commands.DateButton | dailyNotifBot/Handlers/CommandHandler.cs:52-57 | a "📅 dd.MM.yyyy" button of the dates keyboard reads back as exactly its own date |
| Commands.ReplacePrefix | dailyNotifBot/Handlers/CommandHandler.cs:55 | `Replace("📅 ", "")` on a date button leaves the date text |
| Commands.PlainTrim | dailyNotifBot/Handlers/CommandHandler.cs:55 | trimming a text of digits and dots changes nothing |
| Commands.DayMonthText | dailyNotifBot/Handlers/CommandHandler.cs:58-64 | a "dd.MM" text names that day and month in the chat's year, and throws when that day does not exist in that year |
| Commands.CommandHandler.constructor | dailyNotifBot/Handlers/CommandHandler.cs:18-21 | the handler works on the given store |
| Commands.CommandHandler.HandleViewPlans | dailyNotifBot/Handlers/CommandHandler.cs:23-37 | the chat's dates with plans from its local now are offered: "no plans" when there are none, otherwise the dates keyboard, and nothing when building it throws |
| Commands.CommandHandler.OfferDates | dailyNotifBot/Handlers/CommandHandler.cs:28-36 | the same, for given dates |
| Commands.CommandHandler.HandleDateSelection | dailyNotifBot/Handlers/CommandHandler.cs:39-85 | throws exactly when the named date cannot be built, without sending; an unrecognized text gets the parse error; otherwise the plans of that date are shown, or that there are none |
| Commands.CommandHandler.ShowDate | dailyNotifBot/Handlers/CommandHandler.cs:68-84 | "no plans on the date" for an empty list, otherwise the listing of the plans in order, with the main keyboard |
| Commands.CommandHandler.StartSearch | dailyNotifBot/Handlers/CommandHandler.cs:87-92 | the state becomes the search question and the keyword prompt with the cancel keyboard is sent |
| Commands.CommandHandler.HandleSearch | dailyNotifBot/Handlers/CommandHandler.cs:94-125 | cancel or the menu label ends the dialogue with "Отменено."; otherwise "nothing found" or the total and the first fifteen matches; the dialogue ends either way |
| Commands.CommandHandler.ShowResults | dailyNotifBot/Handlers/CommandHandler.cs:105-122 | the total and the first fifteen results, or "nothing found" for the query |
| Commands.CommandHandler.HandleHelp | dailyNotifBot/Handlers/CommandHandler.cs:127-151 | the help text with the main keyboard |
| BotService.FirstMessageDropped | dailyNotifBot/Bot/TelegramBotService.cs:103-115 | the first message of a chat the limiter has not seen is always dropped: `GetOrAdd` records its own arrival time, so the difference is zero |
| BotService.NextAfterCooldown | dailyNotifBot/Bot/TelegramBotService.cs:103-115 | a message at least 500 ms after the previous one of its chat gets through when that previous one was recorded (accepted, or the chat's first) |
| BotService.OtherChatsKept | dailyNotifBot/Bot/TelegramBotService.cs:103-115 | messages of one chat never add or change another chat's recorded time |
| BotService.RecordedTimeGrows | dailyNotifBot/Bot/TelegramBotService.cs:103-115 | a chat's recorded time, once present, stays present and never moves back, however the arrival times are ordered |
| BotService.AcceptedSpaced | dailyNotifBot/Bot/TelegramBotService.cs:103-115 | any two messages of one chat that both get through arrived at least the 500 ms cooldown apart |
| BotService.KeyboardCommands | dailyNotifBot/UI/Keyboardhelper.cs:11-34 | each of the six main-menu buttons names a different command, and the settings keyboard's time-zone and help buttons name theirs |
| BotService.NotFixedCommand | dailyNotifBot/Bot/TelegramBotService.cs:268-321 | a text with the calendar icon other than "📅 Мои планы" is none of the fixed commands, so it is a date selection exactly when the date test holds |
| BotService.TodayButtonIsDate | dailyNotifBot/Bot/TelegramBotService.cs:315-320 | the "📅 Сегодня (dd.MM)" button reaches the date selection |
| BotService.TomorrowButtonIsDate | dailyNotifBot/Bot/TelegramBotService.cs:315-320 | the "📅 Завтра (dd.MM)" button reaches the date selection |
| BotService.DateButtonIsDate | dailyNotifBot/Bot/TelegramBotService.cs:315-320 | a "📅 dd.MM.yyyy" button has a dot and twelve code units, so it reaches the date selection |
| BotService.PairRowsMembers | dailyNotifBot/UI/Keyboardhelper.cs:157-164 | every button of the paired date rows is one of the date labels |
| BotService.FirstRowIsDates | dailyNotifBot/UI/Keyboardhelper.cs:146-153 | the buttons of the today/tomorrow row reach the date selection |
| BotService.RowsMembers | dailyNotifBot/UI/Keyboardhelper.cs:143-164 | every button above the menu row is in the today/tomorrow row or is one of the other dates' labels |
| BotService.DateButtonsAreDates | dailyNotifBot/UI/Keyboardhelper.cs:146-164 | each of those buttons reaches the date selection |
| BotService.DatesKeyboardRoutes | dailyNotifBot/UI/Keyboardhelper.cs:141-173 | every button of the dates keyboard but the last reaches the date selection, and the last is "🏠 В меню", which returns to the menu in any state |
| BotService.RouteOf | dailyNotifBot/Bot/TelegramBotService.cs:166-248 | a text goes to the menu exactly when it is one of the two menu labels; a step that works on CurrentPlan is taken only in a state that needs it; the commands are reached only from states that do not |
| BotService.RouteIgnoresCount | dailyNotifBot/Bot/TelegramBotService.cs:211-224 | the upcoming-plan count changes the route only in the recurrence state |
| BotService.StartReply | dailyNotifBot/Bot/TelegramBotService.cs:338-364 | the welcome with the zone keyboard goes out exactly on a first run (default zone and no timezones.json); otherwise the main menu with the chat's local time |
| BotService.MoscowButton | dailyNotifBot/Bot/TelegramBotService.cs:370-375 | the Moscow button of the zone keyboard sets "Russian Standard Time" |
| BotService.EkaterinburgButton | dailyNotifBot/Bot/TelegramBotService.cs:376-381 | the Ekaterinburg button does not name Moscow, so it sets "Ekaterinburg Standard Time" |
| BotService.TimezoneButtons | dailyNotifBot/UI/Keyboardhelper.cs:36-47 | the zone keyboard holds exactly the two city buttons and each picks its own zone |
| BotService.DigestsOncePerChat | dailyNotifBot/Bot/TelegramBotService.cs:455-489 | over the distinct chat ids of the store, one pass sends no chat two morning digests |
| BotService.DigestsSnoc | dailyNotifBot/Bot/TelegramBotService.cs:457-489 | one more chat in the loop adds its digest exactly when its local time is 08:00 |
| BotService.DigestsReachDueChats | dailyNotifBot/Bot/TelegramBotService.cs:455-489 | a pass sends each listed chat whose local time is 08:00 its digest of today's plans, and sends nothing else |
| BotService.MinutesLeft | dailyNotifBot/Bot/TelegramBotService.cs:523-531 | "Начнётся через N мин" is used exactly when more than a minute is left, N being the whole minutes left (truncated); otherwise "Начинается сейчас!" |
| BotService.RemindersPerPlan | dailyNotifBot/Bot/TelegramBotService.cs:518-542 | the reminder loop sends exactly one reminder per pending plan, in order, to the plan's own chat, showing that plan |
| BotService.TelegramBotService.constructor | dailyNotifBot/Bot/TelegramBotService.cs:37-48 | the service starts with no sessions and no recorded times, and every handler works on the service's one store |
| BotService.TelegramBotService.GetSession | dailyNotifBot/Bot/TelegramBotService.cs:98-101 | `GetOrAdd`: an existing session is returned unchanged; otherwise a fresh empty session is added for that chat only |
| BotService.TelegramBotService.CheckRateLimit | dailyNotifBot/Bot/TelegramBotService.cs:103-115 | a message gets through exactly when the chat has a recorded time at least 500 ms before now; the recorded times become those of the limiter's step |
| BotService.TelegramBotService.HandleUpdate | dailyNotifBot/Bot/TelegramBotService.cs:117-164 | an update without a message changes nothing; a dropped message changes no session and sends nothing; otherwise the chat gets a session and every chat that had one keeps the same session object (its fields are not promised unchanged), a voice message gets the refusal, a message without text gets nothing; every session stays in a state its handler can work in |
| BotService.TelegramBotService.HandleIncoming | dailyNotifBot/Bot/TelegramBotService.cs:123-147 | the same, for a message: the rate limit first, then the session, the voice refusal and the text |
| BotService.TelegramBotService.HandleMessage | dailyNotifBot/Bot/TelegramBotService.cs:131-147 | a message the limiter let through: the chat gets a session, a voice message the refusal with the main keyboard, a message without text nothing |
| BotService.TelegramBotService.HandleText | dailyNotifBot/Bot/TelegramBotService.cs:142-147 | a text goes to the state handling of the chat's session, and every session stays sound |
| BotService.TelegramBotService.HandleState | dailyNotifBot/Bot/TelegramBotService.cs:166-262 | the route is the one the state and the text select; the menu labels reset the dialogue and show the start screen; an over-long description is refused and kept in its state; at 200 upcoming plans the new plan is dropped; a throwing date or recurrence step resets the dialogue with the error message |
| BotService.TelegramBotService.RunRoute | dailyNotifBot/Bot/TelegramBotService.cs:170-261 | the same outcomes, once the route is known |
| BotService.TelegramBotService.CommandStep | dailyNotifBot/Bot/TelegramBotService.cs:247-248 | a state without a handler passes the text to the commands and keeps the session sound |
| BotService.TelegramBotService.ReportStateError | dailyNotifBot/Bot/TelegramBotService.cs:250-261 | the outer catch: no state, no current plan, and the error message with the main keyboard |
| BotService.TelegramBotService.ReturnToMenu | dailyNotifBot/Bot/TelegramBotService.cs:171-178 | the global menu labels clear the state, the current plan and the temporary list, then show the start screen (which may ask for the zone again) |
| BotService.TelegramBotService.CreationStep | dailyNotifBot/Bot/TelegramBotService.cs:187-224 | the creation states, with the 500-code-unit description limit and the 200-plan limit checked before the handler; only the date and recurrence steps can throw, and they throw before sending |
| BotService.TelegramBotService.DialogueStep | dailyNotifBot/Bot/TelegramBotService.cs:183-185 | the time-zone, edit, delete and search states keep the session sound |
| BotService.TelegramBotService.DeleteStep | dailyNotifBot/Bot/TelegramBotService.cs:238-240 | the delete state keeps the session sound |
| BotService.TelegramBotService.EditStep | dailyNotifBot/Bot/TelegramBotService.cs:226-236 | the edit states keep the session sound |
| BotService.TelegramBotService.HandleCommand | dailyNotifBot/Bot/TelegramBotService.cs:264-336 | each command does what its handler states: the start screen, the creation dialogue or the limit message, the dates offered, the edit/delete/search dialogues, settings, help, the zone keyboard, the plans of a selected date or the error for it, and "unknown command" for anything else; the commands that only answer leave the session alone |
| BotService.TelegramBotService.SetupCommand | dailyNotifBot/Bot/TelegramBotService.cs:270-277 | /start shows the start screen, the add command opens creation, the zone button opens the zone keyboard |
| BotService.TelegramBotService.DialogueCommand | dailyNotifBot/Bot/TelegramBotService.cs:284-297 | the edit and delete commands list the upcoming plans, the search command asks for a keyword |
| BotService.TelegramBotService.OpenEdit | dailyNotifBot/Bot/TelegramBotService.cs:284-287 | the edit command lists the chat's upcoming plans from its local now |
| BotService.TelegramBotService.OpenDelete | dailyNotifBot/Bot/TelegramBotService.cs:289-292 | the delete command lists the chat's upcoming plans from its local now |
| BotService.TelegramBotService.QueryCommand | dailyNotifBot/Bot/TelegramBotService.cs:279-335 | the commands that only answer: the dates offered, settings, help, the selected date's plans, "unknown command"; a throwing handler is answered with the command error |
| BotService.TelegramBotService.HandleStart | dailyNotifBot/Bot/TelegramBotService.cs:338-364 | on a first run the state becomes the zone question; the reply is the start reply of the store as it was |
| BotService.TelegramBotService.HandleTimezoneSelection | dailyNotifBot/Bot/TelegramBotService.cs:366-389 | a text naming Moscow (checked first) or Ekaterinburg sets that zone, writes the zone file and confirms; any other text changes nothing and sends nothing; the state ends either way |
| BotService.TelegramBotService.StartTimezoneSelection | dailyNotifBot/Bot/TelegramBotService.cs:391-396 | the state becomes the zone question and the zone keyboard is sent |
| BotService.TelegramBotService.StartPlanCreation | dailyNotifBot/Bot/TelegramBotService.cs:398-423 | at 200 upcoming plans (counted from the server's now) only the limit message; otherwise a new empty plan of the chat and the date step, whose message is lost when building the keyboard throws |
| BotService.TelegramBotService.BeginPlan | dailyNotifBot/Bot/TelegramBotService.cs:404-417 | the same, once the plans are counted |
| BotService.TelegramBotService.HandleSettings | dailyNotifBot/Bot/TelegramBotService.cs:425-429 | the settings message with the settings keyboard |
| BotService.TelegramBotService.DailyNotificationTick | dailyNotifBot/Bot/TelegramBotService.cs:449-500 | one pass sends exactly the digests of the store's chats whose local time is 08:00, in order |
| BotService.TelegramBotService.SendDigests | dailyNotifBot/Bot/TelegramBotService.cs:457-489 | the loop over the chats sends exactly their due digests, in order |
| BotService.TelegramBotService.SendDigest | dailyNotifBot/Bot/TelegramBotService.cs:461-483 | a chat gets its digest of today's plans, without a keyboard, exactly when its local time is 08:00 |
| BotService.TelegramBotService.EventNotificationTick | dailyNotifBot/Bot/TelegramBotService.cs:509-553 | one pass sends one reminder per plan due at the UTC time, in store order; a plan ends up flagged exactly when it was flagged before or it is the first stored plan with the id of a due plan (what `MarkAsNotified` flags), so no other plan's flag changes; one save per due plan; no other field changes and no plan is added or removed |
| BotService.TelegramBotService.SendReminders | dailyNotifBot/Bot/TelegramBotService.cs:518-542 | the loop over the pending plans sends their reminders in order; afterwards a plan is flagged exactly when it was before or it is the first stored plan with a pending plan's id; one save per pending plan; no other field changes |
| BotService.TelegramBotService.RemindNext | dailyNotifBot/Bot/TelegramBotService.cs:518-535 | one turn of the loop: one more reminder, and the flags grow from those of the first `i` pending plans to those of the first `i + 1`, with one more save |
| BotService.TelegramBotService.NotifyOne | dailyNotifBot/Bot/TelegramBotService.cs:522-534 | one plan's reminder, with the minutes left in its chat's local time; then only the first stored plan with its id becomes flagged, every other plan keeps its flag, and one save is made |
| BotService.Digest | dailyNotifBot/Bot/TelegramBotService.cs:461-483 | a chat's morning digest goes to that chat without a keyboard |
| Calendar.MakeDate | dailyNotifBot/Handlers/CommandHandler.cs:64 | `new DateTime(y, m, d)` succeeds exactly for a real calendar date between years 1 and 9999, at midnight |
| Calendar.TicksOrder | dailyNotifBot/Services/PlannerService.cs:178 | ordering by ticks is the order of (year, month, day, time of day), and equal ticks are the same date and time |
| Calendar.LexLessTicks | dailyNotifBot/Services/PlannerService.cs:190-191 | a date and time earlier in the calendar has fewer ticks |
| Calendar.DateOf | dailyNotifBot/Services/PlannerService.cs:177 | `.Date` is the same day at midnight, its ticks less the time of day |
| Calendar.TimeOfDay | dailyNotifBot/Services/PlannerService.cs:178 | `.TimeOfDay` is within one day and is what the ticks add to the day's midnight |
| Calendar.AtTime | dailyNotifBot/Handlers/PlanEditHandler.cs:123-135 | `d.Date + t` keeps the day of `d` and has time of day `t` |
| Calendar.NextDay | dailyNotifBot/Services/PlannerService.cs:117 | one day later throws exactly on 9999-12-31; otherwise it is one day of ticks later at the same time of day |
| Calendar.AddDays | dailyNotifBot/Services/PlannerService.cs:117-118 | `AddDays(n)`, when it does not throw, is n days of ticks later at the same time of day |
| Calendar.AddMonths | dailyNotifBot/Services/PlannerService.cs:119 | `AddMonths(n)` throws exactly past year 9999; otherwise it is n months later with the day clamped to the month's length and the time kept |
| Calendar.AddMonthsLater | dailyNotifBot/Services/PlannerService.cs:110-119 | adding one month or more always gives a later date and time |
| Calendar.Plus | dailyNotifBot/Handlers/SimplePlanCreationHandler.cs:95 | adding a span, when it does not throw, adds exactly that many ticks |
| Calendar.ParseDate | dailyNotifBot/Handlers/SimplePlanCreationHandler.cs:45 | "dd.MM.yyyy" parses only to a date at midnight |
| Calendar.ParseDayMonth | dailyNotifBot/Handlers/CommandHandler.cs:58 | "dd.MM" parses only to a date at midnight in the machine's current year |
| Calendar.ParseTime | dailyNotifBot/Handlers/SimplePlanCreationHandler.cs:85 | "hh\:mm" parses only to a whole number of minutes within one day |
| Calendar.FormatDate | dailyNotifBot/Handlers/SimplePlanCreationHandler.cs:58 | a date prints as ten characters |
| Calendar.FormatDayMonth | dailyNotifBot/UI/Keyboardhelper.cs:59-64 | a day and month print as five characters |
| Calendar.FormatTime | dailyNotifBot/Services/PlannerService.cs:308 | a time prints as five characters |
| Calendar.FormatChars | dailyNotifBot/UI/Keyboardhelper.cs:59-64 | the numeric date formats hold only digits and dots |
| Calendar.ParseFormatDate | dailyNotifBot/Handlers/DeleteHandler.cs:129-132 | printing a date as "dd.MM.yyyy" and parsing it back gives its day |
| Calendar.FormatParseDate | dailyNotifBot/Handlers/DeleteHandler.cs:129-132 | whatever "dd.MM.yyyy" accepts is the printed form of the date it returns |
| Calendar.ParseFormatTime | dailyNotifBot/Handlers/PlanEditHandler.cs:133-135 | printing a time as "HH:mm" and parsing it back gives the time to the minute |
| Calendar.FormatParseTime | dailyNotifBot/Handlers/PlanEditHandler.cs:133-135 | whatever "hh\:mm" accepts is the printed form of the time it returns |
| Text.ReplaceAll | dailyNotifBot/Handlers/CommandHandler.cs:55 | `string.Replace` leaves a text without the pattern as it is |
| Text.Trim | dailyNotifBot/Handlers/CommandHandler.cs:55 | `Trim()` leaves no white space at either end, keeps only characters of the text, and is empty exactly for an all-white text |
| Text.ToLower | dailyNotifBot/Services/PlannerService.cs:197 | `ToLower()` maps each character through LowerChar, keeping the length; LowerChar folds only ASCII and Cyrillic capitals |
| Text.Utf16Length | dailyNotifBot/Bot/TelegramBotService.cs:197 | `string.Length` counts UTF-16 units: at least one and at most two per character |
| Text.NatToString | dailyNotifBot/Handlers/PlanEditHandler.cs:42 | a number prints as a non-empty run of digits |
| Text.ParseNatToString | dailyNotifBot/Handlers/PlanEditHandler.cs:42-51 | a printed position reads back as that position with `int.TryParse` |
| Text.ParseInt32 | dailyNotifBot/Handlers/PlanEditHandler.cs:51 | `int.TryParse` succeeds only with a value that fits a 32-bit int |
| Text.Split | dailyNotifBot/Handlers/DeleteHandler.cs:166 | `Split(…, RemoveEmptyEntries)` gives non-empty words free of separators whose concatenation is the text without its separators |
| Text.TrimWords | dailyNotifBot/Services/Voicecommandparser.cs:82 | `Trim()` keeps the words of the text (its maximal runs of non-white characters), in the same order |
| VoiceCommandParser.TimeMatchAt | dailyNotifBot/Services/Voicecommandparser.cs:19-37 | a time match starts with "в" and ends within the text |
| VoiceCommandParser.ClockAt | dailyNotifBot/Services/Voicecommandparser.cs:19 | what follows `в\s+` matches within the text, the ":" form tried before the "час" form |
| VoiceCommandParser.MinutesAt | dailyNotifBot/Services/Voicecommandparser.cs:19 | `:(\d{2})` matches only at a ":" with room for two digits |
| VoiceCommandParser.HourWordAt | dailyNotifBot/Services/Voicecommandparser.cs:19 | `\s+час` ends within the text, after its start |
| VoiceCommandParser.DayMonthAt | dailyNotifBot/Services/Voicecommandparser.cs:58-63 | a day-month match ends within the text |
| VoiceCommandParser.FirstMatch | dailyNotifBot/Services/Voicecommandparser.cs:20 | the scan that `Regex.Match` makes: the leftmost position with a match and no match before it, or no match anywhere |
| VoiceCommandParser.FirstTimeMatch | dailyNotifBot/Services/Voicecommandparser.cs:20 | `Regex.Match` gives the leftmost time match (none starts earlier), and no match means there is none anywhere |
| VoiceCommandParser.FirstDayMonth | dailyNotifBot/Services/Voicecommandparser.cs:59 | the leftmost day-month match (none starts earlier), and no match means there is none anywhere |
| VoiceCommandParser.RemoveMatches | dailyNotifBot/Services/Voicecommandparser.cs:79-81 | `Regex.Replace(…, "")` keeps only characters of the text, does not lengthen it, and returns the text unchanged when no match starts in it |
| VoiceCommandParser.RemoveLeftmost | dailyNotifBot/Services/Voicecommandparser.cs:79-81 | with the leftmost match at `k`, ending at `e`, the text before `k` is kept, the match is deleted, and the replacement goes on from `e` |
| VoiceCommandParser.Description | dailyNotifBot/Services/Voicecommandparser.cs:78-85 | the description has the same words, in the same order, as the text with times, day-months and day words removed; the only white space is single spaces, none at either end; it is empty exactly when that text is blank |
| VoiceCommandParser.CollapseWhite | dailyNotifBot/Services/Voicecommandparser.cs:85 | the only white space left is single spaces, never two white characters in a row; the result is empty exactly when the text is, and starts and ends white exactly when the text does; it has the same words (maximal runs of non-white characters), in the same order, as the text — so each white-space run of the text is exactly one space between the same words |
| VoiceCommandParser.Capitalize | dailyNotifBot/Services/Voicecommandparser.cs:93-96 | only the first character changes, by UpperChar (ASCII and Cyrillic only) |
| VoiceCommandParser.TryParseVoiceCommand | dailyNotifBot/Services/Voicecommandparser.cs:9-105 | succeeds exactly when the day can be computed, the description is not blank and the day plus the time does not overflow; on failure the date is `DateTime.MinValue`; on success the result is the day's midnight plus the time named; whenever the day can be computed the description is `Description` of the lowered, trimmed text, with its first letter made upper case when it is not blank |
| VoiceCommandParser.DescriptionShape | dailyNotifBot/Services/Voicecommandparser.cs:78-96 | a successful description is not blank, has no white space at either end and only single spaces inside |
| VoiceCommandParser.DayAfterTomorrowIsTomorrow | dailyNotifBot/Services/Voicecommandparser.cs:43-54 | "послезавтра" contains "завтра", so the day-after-tomorrow branch is never reached |
| VoiceCommandParser.DayMonthNotInPast | dailyNotifBot/Services/Voicecommandparser.cs:60-73 | a day-month already past this year is read in the next year, so it is never before today |
| VoiceCommandParser.ImpossibleDayMonthFails | dailyNotifBot/Services/Voicecommandparser.cs:72-104 | a day-month that is no date makes the whole parse fail with `DateTime.MinValue` and an empty description |
| VoiceCommandParser.NoTimeMeansMidnight | dailyNotifBot/Services/Voicecommandparser.cs:22-98 | with no time in the text the result is midnight of the target day |
| VoiceCommandParser.TimeMatchVia | dailyNotifBot/Services/Voicecommandparser.cs:19 | after "в" and a white-space run, the match is decided by what follows the run |
| VoiceCommandParser.MinutesForm | dailyNotifBot/Services/Voicecommandparser.cs:19-31 | one or two digits, ":" and two digits give hours and minutes as the digit groups spell them |
| VoiceCommandParser.DayMonthForm | dailyNotifBot/Services/Voicecommandparser.cs:58-63 | one or two digits, "." and one or two digits (the second group as long as the digits go, up to two) match, with the first group as the day and the second as the month |
| VoiceCommandParser.HourWordForm | dailyNotifBot/Services/Voicecommandparser.cs:32-37 | one or two digits, white space and "час" give the hours the digits spell and no minutes |
| VoiceCommandParser.ClockFormAt | dailyNotifBot/Services/Voicecommandparser.cs:19-31 | "в", white space, one or two digits, ":" and two digits match, whatever follows, with the hours and minutes the two digit groups spell |
| VoiceCommandParser.HourFormAt | dailyNotifBot/Services/Voicecommandparser.cs:32-37 | "в", white space, one or two digits, white space and "час" match, whatever follows, with the hours the digits spell and no minutes |
| VoiceCommandParser.BareNumberNoTime | dailyNotifBot/Services/Voicecommandparser.cs:19 | "в", white space and one or two digits that end the text are no time match: neither ":" and two digits nor white space and "час" follows |

## Left out

- The Telegram transport, polling, `Task.Delay`, cancellation tokens and concurrency: the model handles one update or one notification pass at a time, with sends that never fail.
- `SafeSendMessage`'s swallowed send failures and the handlers' outer `catch` blocks around sends: sends cannot fail here, so those catches only guard the date overflows modelled as `None`.
- JSON serialization and file I/O: saving is counted, and the constructor takes the loaded plans and zones as parameters.
- `TimeZoneInfo` conversion: the chat's local time is a clock parameter; `GetUserTimezone` is the map lookup with its default.
- Culture-dependent formatting and the exact wording of messages: replies are structured values.
- Distinct plan ids: the store keeps IdsBelowCounter (every stored id is below the counter), so the ids it hands out are new and the occurrences it appends have distinct ids. It does not say that all stored ids are pairwise distinct: plans loaded from `plans.json` or handed to `AddPlan` are not checked for duplicates, and the bot does not check them either. That the bot hands `AddPlan` only plans whose id came from the counter is not stated as a bot-level invariant.
- Text.ToLower, Planner.PlannerService.SearchPlans, VoiceCommandParser.Normalize and VoiceCommandParser.Capitalize: case folding covers only ASCII letters and Cyrillic U+0400..U+045F, not every cased letter that the culture-aware `ToLower()`/`char.ToUpper` fold; so a plan "Café" is not found by the query "CAFÉ" in the model, though it is in the bot. A full Unicode case table is outside the model.
- Logging (`LogInfo`, `LogError`, console output).
- The category, priority, location, notes and template dialogues, `PlanTemplate` and `Program.cs`: their states are only enum values here, because `HandleStateAsync` never dispatches them and they fall through to the commands like `None`. `PlanCategory` and `PlanPriority` are declared as enums only.
- Editing.ApplyEdit: the category, priority, location and notes branches of `HandleNewValue` assign fields that `PlanItem` does not declare; the model treats those choices like any other unrecognised field ("🔄 Повторение" among them), so the plan is saved unchanged.
- Editing.ValueKeyboard: for "🏷 Категорию" and "⚡ Приоритет" `HandleFieldChoice` asks `KeyboardHelper` for `GetCategoryKeyboard` and `GetPriorityKeyboard`, which Keyboardhelper.cs does not define; the model offers the cancel keyboard for these two choices, as for every field other than "⏰ Уведомление".
- BotService.TelegramBotService.HandleUpdate (and HandleIncoming, HandleMessage): other chats keep the same session objects, but their fields are not promised unchanged; the session map is not required to hold distinct objects, so a frame on this chat's session alone cannot be stated.
- `VoiceCommandParser`: the bot never calls it; it is modelled on its own. `\d` is read as the ASCII digits only, not every Unicode decimal digit.
- `DeleteMultiplePlans` works on a local copy of the list and stores it once at the end; the result is the same as the source's in-place removals.
- BotService.TelegramBotService.HandleState: for the dialogue, edit, delete and command routes it states only that every session stays sound; what each route does is stated by the handler it calls.
- BotService.TelegramBotService.RunRoute: the same as HandleState.
- BotService.TelegramBotService.CommandStep: states only that every session stays sound; HandleCommand states what the command does.
- BotService.TelegramBotService.DialogueStep: states only that every session stays sound; the handlers it calls state the rest.
- BotService.TelegramBotService.DeleteStep: states only that every session stays sound; Deletion.DeleteHandler.HandleDeleteChoice states the rest.
- BotService.TelegramBotService.EditStep: states only that every session stays sound; the Editing handlers state the rest.
- BotService.TelegramBotService.HandleText: states only that every session stays sound; HandleState states what the text does.
- BotService.IsDateSelection: the prefix test for "📅 " is ordinal, while the source's `text.StartsWith("📅 ")` is culture-sensitive; a text whose start differs from "📅 " only by code points that collation ignores (a leading soft hyphen U+00AD, say) goes to date selection in the bot but is an unknown command in the model.
- BotService.TelegramBotService.HandleUpdate: the outer `catch` that logs an unexpected exception is not modelled.
