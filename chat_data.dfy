/** The rows of the conversation store: sessions, messages, widget configurations and owner
    profiles, with the enumerations and column defaults of the database schema
    (app/api/migrate/route.ts). */
module ChatData {
  import opened Text

  /** Row ids; the store hands them out, so a missing or empty id in a request is `None`. */
  type Id = nat

  /** Instants in milliseconds; the ISO-8601 strings of the source order the same way. */
  type Time = int

  /** `chat_sessions.status` as the check constraint allows it. */
  datatype Status = Active | Closed | Archived | WaitingForHuman

  /** `chat_messages.sender_type` as the check constraint allows it. */
  datatype Sender = Visitor | Admin | Bot

  function SenderName(s: Sender): string {
    match s
    case Visitor => "visitor"
    case Admin => "admin"
    case Bot => "bot"
  }

  /** The check constraint on `sender_type`: the three role names are accepted, every other
      string is rejected by the insert. */
  function ParseSender(s: string): (r: Option<Sender>)
    ensures r.Some? ==> SenderName(r.value) == s
  {
    if s == "visitor" then Some(Visitor)
    else if s == "admin" then Some(Admin)
    else if s == "bot" then Some(Bot)
    else None
  }

  lemma ParseSenderName(s: Sender)
    ensures ParseSender(SenderName(s)) == Some(s)
  {
  }

  /** The `metadata` column of a message, as the handlers fill it. */
  datatype MessageMeta = NoMeta | HandoffNotice | Generation(model: string, tokensUsed: int)

  datatype Message = Message(
    id: Id, sessionId: Id, adminId: Id, content: string, sender: Sender,
    isRead: bool, isAiGenerated: bool, meta: MessageMeta, createdAt: Time)

  /** A `chat_sessions` row. `metaBotMessagesCount` is `metadata.bot_messages_count`, which the
      reply handler reads; `botMessagesCount` is the column it writes. */
  datatype Session = Session(
    chatbotId: Id, adminId: Id, visitorName: Option<string>, visitorEmail: Option<string>,
    status: Status, isBotActive: bool, botMessagesCount: int, handoffRequestedAt: Option<Time>,
    metaBotMessagesCount: Option<int>, createdAt: Time, updatedAt: Time, lastMessageAt: Time)

  /** Day keys of a business-hours schedule; `Date.getDay()` numbers them from Sunday. */
  datatype Weekday = Sunday | Monday | Tuesday | Wednesday | Thursday | Friday | Saturday

  const AllWeekdays: set<Weekday> := {Sunday, Monday, Tuesday, Wednesday, Thursday, Friday, Saturday}

  /** `days[now.getDay()]`. */
  function DayOfIndex(i: nat): Weekday
    requires i < 7
  {
    [Sunday, Monday, Tuesday, Wednesday, Thursday, Friday, Saturday][i]
  }

  /** One day of a schedule; `start` and `end` are "HH:MM" strings from a time input. */
  datatype DaySchedule = DaySchedule(enabled: bool, start: string, end: string)

  /** The `business_hours` JSON object: a record keyed by day name. */
  type Schedule = map<Weekday, DaySchedule>

  datatype CannedResponse = CannedResponse(title: string, content: string, shortcut: Option<string>)

  /** A `chatbot_configs` row (the widget's display and assistant settings). */
  datatype ChatbotConfig = ChatbotConfig(
    adminId: Id,
    widgetTitle: Option<string>, welcomeMessage: Option<string>, primaryColor: Option<string>,
    position: Option<string>, avatarUrl: Option<string>, showBranding: Option<bool>,
    placeholderText: Option<string>, offlineMessage: Option<string>,
    launcherText: Option<string>, launcherTextEnabled: Option<bool>,
    businessHoursEnabled: Option<bool>, businessHours: Option<Schedule>,
    businessHoursTimezone: Option<string>, outsideHoursMessage: Option<string>,
    aiEnabled: Option<bool>, aiSystemPrompt: Option<string>, aiKnowledgeBase: Option<string>,
    aiModel: Option<string>, aiTemperature: Option<real>, aiMaxTokens: Option<int>, aiAutoGreet: Option<bool>,
    aiGreetingMessage: Option<string>, aiHandoffKeywords: Option<seq<string>>,
    cannedResponses: seq<CannedResponse>)

  /** An `admin_profiles` row: plan and usage fields. */
  datatype Profile = Profile(
    plan: string, stripeCustomerId: Option<string>, stripeSubscriptionId: Option<string>,
    subscriptionStatus: Option<string>, planPeriodStart: Option<Time>, planPeriodEnd: Option<Time>,
    conversationsThisMonth: int, conversationsResetAt: Option<Time>, updatedAt: Time)
}
