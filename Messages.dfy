/** What the bot sends. The Telegram client is reduced to a log of outgoing
    messages; each message is a `Reply` that names which of the bot's texts
    was sent and carries the values the text is built from, plus the reply
    keyboard attached to it (`None` when the call passes no markup). A plan
    is carried as its `PlanView`; the text of a plan is `FormatPlan` of it. */
module Messages {
  import opened Wrappers
  import opened Text
  import opened Calendar
  import opened Models
  import opened Keyboard
  import opened Planner

  datatype Reply =
    // TelegramBotService
    | VoiceNotSupported
    | Welcome
    | MainMenu(now: DateTime)
    | TimezoneSet(timezoneId: string)
    | ChooseTimezone
    | NewPlan
    | LimitAtStart
    | LimitAtSave
    | DescriptionTooLong(length: nat)
    | Settings
    | UnknownCommand
    | StateError
    | CommandError
    | MorningDigest(today: DateTime, plans: seq<PlanView>)
    /** `minutesLeft` is `None` for "Начинается сейчас!". */
    | Reminder(plan: PlanView, minutesLeft: Option<int>)
    // SimplePlanCreationHandler
    | Cancelled
    | EnterDate
    | BadDate
    | DateAccepted(date: DateTime)
    | EnterTime
    | BadTime
    | TimeAccepted(dateTime: DateTime)
    | AskNotification
    | AskRecurrence
    | PlanCreated(dateTime: DateTime, description: string, notificationMinutes: int, recurrence: RecurrenceType)
    // PlanEditHandler
    | NothingToEdit
    | ChoosePlanToEdit(plans: seq<PlanView>)
    | BadPlanNumber(count: nat)
    | CurrentPlanInfo(plan: PlanView)
    | EditCancelled
    | EnterValue(field: string)
    | BadEditDate
    | BadEditTime
    | PlanUpdated(plan: PlanView)
    // DeleteHandler
    | NothingToDelete
    | DeleteList(total: nat, plans: seq<PlanView>)
    | EnterNumbers
    | EnterDeleteDate
    | NoRecurringPlans
    | ChooseSeries(plans: seq<PlanView>)
    | DeletedOnDate(count: nat, date: DateTime)
    | BadDeleteDate
    | DeletedSeries(count: nat, description: string)
    | BadNumbers
    | Deleted(count: nat)
    // CommandHandler
    | NoPlans
    | ChooseDate
    | UnknownDate
    | NoPlansOn(date: DateTime)
    | PlansOn(date: DateTime, plans: seq<PlanView>)
    | EnterQuery
    | NothingFound(query: string)
    | Found(total: nat, plans: seq<PlanView>)
    | Help

  datatype Outgoing = Outgoing(chatId: int, reply: Reply, keyboard: Option<Markup>)

  /** The plans of a listing, as the values its lines are built from, in
      order; a numbered listing numbers line `i` as `i + 1`. */
  function Views(ps: seq<PlanItem>): (r: seq<PlanView>)
    reads ps
    ensures |r| == |ps| && forall i :: 0 <= i < |ps| ==> r[i] == ViewOf(ps[i])
  {
    seq(|ps|, i reads ps requires 0 <= i < |ps| => ViewOf(ps[i]))
  }

  /** The answer to a numbered listing of `count` plans: `int.TryParse`
      succeeding with a number from 1 to `count`. */
  function PlanNumber(text: string, count: nat): (r: Option<nat>)
    ensures r.Some? ==> 1 <= r.value <= count && ParseInt32(text) == Some(r.value as int)
    ensures r.None? ==> ParseInt32(text).None? || ParseInt32(text).value < 1 || ParseInt32(text).value > count
  {
    match ParseInt32(text)
    case Some(n) => if 0 < n <= count then var k: nat := n; Some(k) else Option.None
    case None => Option.None
  }

  /** Typing the number a listing shows in front of line `i` picks line `i`. */
  lemma ListedNumber(i: nat, count: nat)
    requires i < count <= Int32Max
    ensures PlanNumber(NatToString(i + 1), count) == Some(i + 1)
  {
    ParseNatToString(i + 1);
  }

  /** `ITelegramBotClient`, as the log of what was sent through it. Sending
      never fails here. */
  class BotClient {
    var sent: seq<Outgoing>

    constructor ()
      ensures sent == []
    {
      sent := [];
    }

    method SendMessage(chatId: int, reply: Reply, keyboard: Option<Markup>)
      modifies this
      ensures sent == old(sent) + [Outgoing(chatId, reply, keyboard)]
    {
      sent := sent + [Outgoing(chatId, reply, keyboard)];
    }
  }
}
