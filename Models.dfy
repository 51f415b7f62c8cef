/** The bot's records: the enumerations, the plan (`PlanItem`) and the
    per-chat conversation session (`UserSession`). Both records are mutable
    objects shared by reference between the store and the sessions, so they
    are classes here. */
module Models {
  import opened Wrappers
  import opened Calendar

  datatype RecurrenceType = None | Daily | Weekly | Monthly

  /** Declared, but no field of a plan holds one. */
  datatype PlanCategory = Work | Family | Sport | Health | Shopping | Study | Other

  /** Declared, but no field of a plan holds one. */
  datatype PlanPriority = Low | Medium | High

  datatype UserState =
    | None
    | WaitingForTimezone
    | WaitingForDateTime
    | WaitingForTime
    | WaitingForDescription
    | WaitingForCategory
    | WaitingForPriority
    | WaitingForNotificationTime
    | WaitingForRecurrence
    | WaitingForLocation
    | WaitingForNotes
    | WaitingForEditSelection
    | WaitingForEditChoice
    | WaitingForEditValue
    | WaitingForDeleteConfirmation
    | WaitingForSearchQuery
    | WaitingForTemplateSelection
    | WaitingForTemplateName
  {
    /** The states whose handlers work on `CurrentPlan` and dereference it. */
    predicate NeedsCurrentPlan() {
      this == WaitingForTime || this == WaitingForDescription || this == WaitingForNotificationTime
      || this == WaitingForRecurrence || this == WaitingForEditChoice || this == WaitingForEditValue
    }
  }

  /** A plan id. The source's ids are fresh GUID strings; here they are
      numbers drawn from a counter (see `PlannerService.NewId`). */
  type PlanId = nat

  const DefaultNotificationMinutes: int := 10
  const DefaultTimeZoneId: string := "Russian Standard Time"

  class PlanItem {
    const id: PlanId
    var chatId: int
    var dateTime: DateTime
    var description: string
    var isNotified: bool
    var recurrence: RecurrenceType
    var notificationMinutes: int
    var recurrenceEndDate: Option<DateTime>
    /** The id of the original of a series; `None` (the empty string in the
        source) marks an original. */
    var parentRecurrenceId: Option<PlanId>

    /** `new PlanItem { ChatId = chatId, DateTime = dateTime }` with the id
        the GUID generator hands out. */
    constructor (id: PlanId, chatId: int, dateTime: DateTime)
      ensures this.id == id && this.chatId == chatId && this.dateTime == dateTime
      ensures description == "" && !isNotified
      ensures recurrence == RecurrenceType.None && recurrenceEndDate == Option.None
      ensures notificationMinutes == DefaultNotificationMinutes
      ensures parentRecurrenceId == Option.None
    {
      this.id := id;
      this.chatId := chatId;
      this.dateTime := dateTime;
      description := "";
      isNotified := false;
      recurrence := RecurrenceType.None;
      notificationMinutes := DefaultNotificationMinutes;
      recurrenceEndDate := Option.None;
      parentRecurrenceId := Option.None;
    }
  }

  /** `p` is as `new PlanItem { ChatId = chatId, DateTime = dateTime }`
      leaves it, with the id `id`. */
  predicate IsNewPlan(p: PlanItem, id: PlanId, chatId: int, dateTime: DateTime)
    reads p
  {
    p.id == id && p.chatId == chatId && p.dateTime == dateTime
    && p.description == "" && !p.isNotified
    && p.recurrence == RecurrenceType.None && p.recurrenceEndDate == Option.None
    && p.notificationMinutes == DefaultNotificationMinutes
    && p.parentRecurrenceId == Option.None
  }

  class UserSession {
    var state: UserState
    /** Never read: the time zone in use lives in the store's map. */
    var timeZoneId: string
    var currentPlan: PlanItem?
    var tempPlansList: seq<PlanItem>
    var editField: string
    var tempValue: string

    constructor ()
      ensures state == UserState.None && currentPlan == null && tempPlansList == []
      ensures editField == "" && tempValue == "" && timeZoneId == DefaultTimeZoneId
      ensures Valid()
    {
      state := UserState.None;
      timeZoneId := DefaultTimeZoneId;
      currentPlan := null;
      tempPlansList := [];
      editField := "";
      tempValue := "";
    }

    /** In every state whose handler dereferences `CurrentPlan!`, there is a
        current plan. */
    predicate Valid()
      reads this
    {
      state.NeedsCurrentPlan() ==> currentPlan != null
    }
  }
}
