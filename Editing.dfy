/** `PlanEditHandler`: choosing one of the upcoming plans by its number,
    choosing the field to change, and entering the new value. The plans in
    the session's list are the store's own objects, so the new value is
    written straight into the stored plan; `UpdatePlan` then puts the same
    object back in its place. */
module Editing {
  import opened Wrappers
  import opened Text
  import opened Calendar
  import opened Models
  import opened Keyboard
  import opened Planner
  import opened Messages
  import opened Seqs

  /** How many plans the edit listing shows. */
  const EditListLength: nat := 10

  /** The keyboard offered with the prompt for a new value. */
  function ValueKeyboard(field: string): (k: Markup)
    ensures k == NotificationTimeKeyboard || k == CancelKeyboard
    ensures k == NotificationTimeKeyboard <==> field == EditNotificationLabel
  {
    if field == EditNotificationLabel then NotificationTimeKeyboard else CancelKeyboard
  }

  /** The outcome of entering a new value for `field`. */
  datatype EditOutcome =
    | BadDateValue
    | BadTimeValue
    | Applied(dateTime: DateTime, description: string, notificationMinutes: int)

  /** What entering `text` as the new value of `field` makes of a plan with
      these date, description and reminder: a new date keeps the time of day,
      a new time keeps the date, and only the chosen field changes. */
  function ApplyEdit(field: string, text: string, dateTime: DateTime, description: string, minutes: int): (r: EditOutcome)
    ensures r.BadDateValue? <==> field == EditDateLabel && ParseDate(text).None?
    ensures r.BadTimeValue? <==> field == EditTimeLabel && ParseTime(text).None?
    ensures r.Applied? && field == EditDateLabel ==>
      DateOf(r.dateTime) == ParseDate(text).value && TimeOfDay(r.dateTime) == TimeOfDay(dateTime)
    ensures r.Applied? && field == EditTimeLabel ==>
      DateOf(r.dateTime) == DateOf(dateTime) && TimeOfDay(r.dateTime) == ParseTime(text).value
    ensures r.Applied? && field != EditDateLabel && field != EditTimeLabel ==> r.dateTime == dateTime
    ensures r.Applied? ==> r.description == if field == EditDescriptionLabel then text else description
    ensures r.Applied? ==>
      r.notificationMinutes == if field == EditNotificationLabel then ParseNotificationMinutes(text) else minutes
  {
    if field == EditDateLabel then
      match ParseDate(text)
      case Some(d) => Applied(AtTime(d, TimeOfDay(dateTime)), description, minutes)
      case None => BadDateValue
    else if field == EditTimeLabel then
      match ParseTime(text)
      case Some(t) => Applied(AtTime(dateTime, t), description, minutes)
      case None => BadTimeValue
    else if field == EditDescriptionLabel then Applied(dateTime, text, minutes)
    else if field == EditNotificationLabel then Applied(dateTime, description, ParseNotificationMinutes(text))
    else Applied(dateTime, description, minutes)
  }

  /** Entering the same value twice changes nothing the second time. */
  lemma ApplyEditIdempotent(field: string, text: string, dateTime: DateTime, description: string, minutes: int)
    requires ApplyEdit(field, text, dateTime, description, minutes).Applied?
    ensures var r := ApplyEdit(field, text, dateTime, description, minutes);
      ApplyEdit(field, text, r.dateTime, r.description, r.notificationMinutes) == r
  {
    var r := ApplyEdit(field, text, dateTime, description, minutes);
    var r2 := ApplyEdit(field, text, r.dateTime, r.description, r.notificationMinutes);
    assert r2.dateTime == r.dateTime by {
      if field == EditDateLabel || field == EditTimeLabel {
        SameDateAndTime(r2.dateTime, r.dateTime);
      }
    }
  }

  /** A date and time is its calendar date and its time of day. */
  lemma SameDateAndTime(a: DateTime, b: DateTime)
    requires DateOf(a) == DateOf(b) && TimeOfDay(a) == TimeOfDay(b)
    ensures a == b
  {
  }

  /** Entering a date in the printed form moves the plan to that day at the
      same time of day. */
  lemma EditDateRoundTrip(d: DateTime, dateTime: DateTime, description: string, minutes: int)
    ensures ApplyEdit(EditDateLabel, FormatDate(d), dateTime, description, minutes)
      == Applied(AtTime(d, TimeOfDay(dateTime)), description, minutes)
  {
    ParseFormatDate(d);
  }

  /** Entering a time in the printed form moves the plan to that minute of
      the same day. */
  lemma EditTimeRoundTrip(e: DateTime, dateTime: DateTime, description: string, minutes: int)
    ensures ApplyEdit(EditTimeLabel, FormatTime(e), dateTime, description, minutes)
      == Applied(AtTime(dateTime, Hour(e) * MsPerHour + Minute(e) * MsPerMinute), description, minutes)
  {
    ParseFormatTime(e);
  }

  /** What `StartEdit` did with the chat's upcoming plans `plans`: nothing
      but a message when there are none, otherwise the list is kept and its
      first ten plans are shown, numbered. */
  twostate predicate ListedForEdit(bot: BotClient, chatId: int, session: UserSession, plans: seq<PlanItem>)
    reads bot, session, plans
  {
    if |plans| == 0 then
      && session.tempPlansList == old(session.tempPlansList) && session.state == old(session.state)
      && bot.sent == old(bot.sent) + [Outgoing(chatId, NothingToEdit, Some(MainKeyboard))]
    else
      && session.tempPlansList == plans && session.state == UserState.WaitingForEditSelection
      && bot.sent == old(bot.sent) + [Outgoing(chatId, ChoosePlanToEdit(old(Views(Take(plans, EditListLength)))), Option.None)]
  }

  /** What saving an applied edit `r` of plan `p` did, the store having held
      `before`: the new values are in the plan, the store's entry with its id
      is replaced by it (and the list saved) when there is one, and the
      dialogue is over. */
  twostate predicate SavedEdit(bot: BotClient, chatId: int, session: UserSession, store: PlannerService,
                               p: PlanItem, r: EditOutcome, before: seq<PlanItem>)
    requires r.Applied?
    reads bot, session, store, p, before
  {
    && p.dateTime == r.dateTime && p.description == r.description
    && p.notificationMinutes == r.notificationMinutes
    && (var i := FindPlan(before, p.id, p.chatId);
        && store.plans == (if i.Some? then before[i.value := p] else before)
        && store.planSaves == if i.Some? then old(store.planSaves) + 1 else old(store.planSaves))
    && session.state == UserState.None && session.currentPlan == null
    && bot.sent == old(bot.sent) + [Outgoing(chatId, PlanUpdated(ViewOf(p)), Some(MainKeyboard))]
  }

  class PlanEditHandler {
    const planner: PlannerService

    constructor (planner: PlannerService)
      ensures this.planner == planner
    {
      this.planner := planner;
    }

    /** Lists the chat's upcoming plans (at most ten of them) and keeps the
        whole list in the session for the number the user will type. */
    method StartEdit(bot: BotClient, chatId: int, session: UserSession, clock: Clock)
      modifies bot, session`tempPlansList, session`state
      ensures session.state == old(session.state) || session.state == UserState.WaitingForEditSelection
      ensures ListedForEdit(bot, chatId, session, old(planner.GetAllUpcomingPlans(chatId, planner.GetUserCurrentTime(chatId, clock))))
    {
      var now := planner.GetUserCurrentTime(chatId, clock);
      var plans := planner.GetAllUpcomingPlans(chatId, now);
      ListForEdit(bot, chatId, session, plans);
    }

    /** The part of `StartEdit` after the query. */
    method ListForEdit(bot: BotClient, chatId: int, session: UserSession, plans: seq<PlanItem>)
      modifies bot, session`tempPlansList, session`state
      ensures session.state == old(session.state) || session.state == UserState.WaitingForEditSelection
      ensures ListedForEdit(bot, chatId, session, plans)
    {
      if |plans| == 0 {
        bot.SendMessage(chatId, NothingToEdit, Some(MainKeyboard));
        return;
      }
      session.tempPlansList := plans;
      session.state := UserState.WaitingForEditSelection;
      bot.SendMessage(chatId, ChoosePlanToEdit(Views(Take(plans, EditListLength))), Option.None);
    }

    /** The number typed picks the plan to edit from the session's list. */
    method HandlePlanSelection(bot: BotClient, chatId: int, text: string, session: UserSession)
      modifies bot, session`currentPlan, session`state
      ensures (session.state == old(session.state) && session.currentPlan == old(session.currentPlan))
        || (session.state == UserState.WaitingForEditChoice && session.currentPlan != null)
      ensures var list := session.tempPlansList;
        match PlanNumber(text, |list|)
        case Some(n) =>
          && session.currentPlan == list[n - 1] && session.state == UserState.WaitingForEditChoice
          && bot.sent == old(bot.sent) + [Outgoing(chatId, CurrentPlanInfo(ViewOf(list[n - 1])), Some(EditFieldKeyboard))]
        case None =>
          && session.currentPlan == old(session.currentPlan) && session.state == old(session.state)
          && bot.sent == old(bot.sent) + [Outgoing(chatId, BadPlanNumber(|list|), Option.None)]
    {
      var list := session.tempPlansList;
      match PlanNumber(text, |list|)
      case Some(n) =>
        var plan := list[n - 1];
        session.currentPlan := plan;
        session.state := UserState.WaitingForEditChoice;
        bot.SendMessage(chatId, CurrentPlanInfo(ViewOf(plan)), Some(EditFieldKeyboard));
      case None =>
        bot.SendMessage(chatId, BadPlanNumber(|list|), Option.None);
    }

    /** The button pressed names the field to change. */
    method HandleFieldChoice(bot: BotClient, chatId: int, text: string, session: UserSession)
      modifies bot, session`state, session`currentPlan, session`editField
      ensures session.state == UserState.None || session.currentPlan == old(session.currentPlan)
      ensures if text == CancelLabel then
          && session.state == UserState.None && session.currentPlan == null
          && session.editField == old(session.editField)
          && bot.sent == old(bot.sent) + [Outgoing(chatId, EditCancelled, Some(MainKeyboard))]
        else
          && session.editField == text && session.state == UserState.WaitingForEditValue
          && session.currentPlan == old(session.currentPlan)
          && bot.sent == old(bot.sent) + [Outgoing(chatId, EnterValue(text), Some(ValueKeyboard(text)))]
    {
      if text == CancelLabel {
        session.state := UserState.None;
        session.currentPlan := null;
        bot.SendMessage(chatId, EditCancelled, Some(MainKeyboard));
        return;
      }
      session.editField := text;
      session.state := UserState.WaitingForEditValue;
      bot.SendMessage(chatId, EnterValue(text), Some(ValueKeyboard(text)));
    }

    /** The new value is written into the plan, which is saved and shown. A
        value that does not parse leaves everything as it was. */
    method HandleNewValue(bot: BotClient, chatId: int, text: string, session: UserSession)
      requires session.currentPlan != null
      modifies bot, session`state, session`currentPlan
      modifies session.currentPlan`dateTime, session.currentPlan`description, session.currentPlan`notificationMinutes
      modifies planner`plans, planner`planSaves
      ensures session.state == UserState.None
        || (session.state == old(session.state) && session.currentPlan == old(session.currentPlan))
      ensures text == CancelLabel ==>
        && session.state == UserState.None
        && bot.sent == old(bot.sent) + [Outgoing(chatId, EditCancelled, Some(MainKeyboard))]
      ensures var p := old(session.currentPlan);
        var r := ApplyEdit(session.editField, text, old(p.dateTime), old(p.description), old(p.notificationMinutes));
        text == CancelLabel || !r.Applied? ==>
          && p.dateTime == old(p.dateTime) && p.description == old(p.description)
          && p.notificationMinutes == old(p.notificationMinutes)
          && planner.plans == old(planner.plans) && planner.planSaves == old(planner.planSaves)
          && session.currentPlan == p
      ensures var p := old(session.currentPlan);
        var r := ApplyEdit(session.editField, text, old(p.dateTime), old(p.description), old(p.notificationMinutes));
        text != CancelLabel && !r.Applied? ==>
          && session.state == old(session.state)
          && bot.sent == old(bot.sent) + [Outgoing(chatId, if r.BadDateValue? then BadEditDate else BadEditTime, Option.None)]
      ensures var p := old(session.currentPlan);
        var r := ApplyEdit(session.editField, text, old(p.dateTime), old(p.description), old(p.notificationMinutes));
        text != CancelLabel && r.Applied? ==> SavedEdit(bot, chatId, session, planner, p, r, old(planner.plans))
    {
      var p := session.currentPlan;
      if text == CancelLabel {
        session.state := UserState.None;
        bot.SendMessage(chatId, EditCancelled, Some(MainKeyboard));
        return;
      }
      var r := ApplyEdit(session.editField, text, p.dateTime, p.description, p.notificationMinutes);
      if !r.Applied? {
        bot.SendMessage(chatId, if r.BadDateValue? then BadEditDate else BadEditTime, Option.None);
        return;
      }
      SaveEdit(bot, chatId, session, r);
    }

    /** The part of `HandleNewValue` once the value is accepted. */
    method SaveEdit(bot: BotClient, chatId: int, session: UserSession, r: EditOutcome)
      requires session.currentPlan != null && r.Applied?
      modifies bot, session`state, session`currentPlan
      modifies session.currentPlan`dateTime, session.currentPlan`description, session.currentPlan`notificationMinutes
      modifies planner`plans, planner`planSaves
      ensures SavedEdit(bot, chatId, session, planner, old(session.currentPlan), r, old(planner.plans))
    {
      var p := session.currentPlan;
      p.dateTime := r.dateTime;
      p.description := r.description;
      p.notificationMinutes := r.notificationMinutes;
      var _ := planner.UpdatePlan(p);
      bot.SendMessage(chatId, PlanUpdated(ViewOf(p)), Some(MainKeyboard));
      session.state := UserState.None;
      session.currentPlan := null;
    }
  }
}
