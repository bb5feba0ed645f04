# Chat widget conversation core, modelled in Dafny

This project models the conversation core of the VintraStudio chat widget. A site owner embeds a
widget; visitors open a session and post messages. An assistant answers them through a language
model until a handoff keyword passes the conversation to a human agent, who answers from the
owner's inbox. The widget learns about new messages by polling. The owner's plan decides what
the widget may do: it gates the assistant, the branding switch and the menu.

The modules follow the program's parts:

- `Text` (text.dfy): the JavaScript string operations the core relies on, with their falsy-value rules:
  - `||` on a nullable string;
  - `toLowerCase`, `includes` and `trim`;
  - `Number` on digit strings.
- `Plans` (plans.dfy): the plan table, the product list, the price label, and the reading of a
  profile into a plan with its limits and the feature tests.
- `ChatData` (chat_data.dfy): the stored rows (configuration, profile, session, message), the
  sender and status enumerations, and the weekly schedule.
- `MessageQuery` (message_query.dfy): the message listing endpoint. It filters by session and by
  the cursor, orders by creation time and applies the limit.
- `Assistant` (assistant.dfy): the pieces of the assistant reply endpoint:
  - the request gate;
  - handoff keyword detection;
  - the history and the transcript;
  - the system prompt;
  - the model request with its defaults;
  - the session after a handoff or a reply;
  - the response bodies.
- `ChatStore` (store.dfy): the store as a class holding configurations, profiles, sessions and
  messages. The session start, message post and assistant reply endpoints are its methods, and
  each keeps the store invariant: a session waiting for a human has its bot switched off, and
  every message belongs to a session.
- `WidgetConfig` (config_route.dfy): the public configuration endpoint with its plan gates.
- `WidgetRuntime` (widget.dfy): the embedded widget script as a class whose fields are the
  script's `let` variables and the page they drive:
  - the business-hours check;
  - opening and closing the window;
  - starting a chat;
  - sending, with the assistant call;
  - the handoff button;
  - polling;
  - the unread badge.
- `Billing` (billing.dfy): the payment-provider webhook, the plan update endpoint and the plan read endpoint.
- `AiTest` (ai_test_route.dfy): the owner's assistant test endpoint.
- `AdminAi` (admin_ai.dfy): the assistant settings page (load, save, keyword list, sliders, plan gate).
- `Appearance` (appearance.dfy): the business-hours editor of the appearance page.
- `Conversations` (conversations.dfy): the owner's inbox (search, first selection, reply, archive).
- `Sidebar` (sidebar.dfy): the owner's menu with its plan locks, the highlight rule and the initials.
- `Guards` (guards.dfy): the route guard in front of the owner's pages and its session-refresh twin.

Outside inputs are parameters:

- the store's failures (`insertFails`, `storeFails`, `bumpFails`, `storeThrows`, the listing's `readFails` and the reply handler's `historyFails`);
- the language model (`llm: GenRequest -> GenResult`);
- the clock (`now`, `nowIso`, and the weekday, hour and minute in the configured timezone);
- the signature verification result;
- the signed-in user;
- the answers the widget receives from the endpoints (`None` when a request threw).

Ids are natural numbers handed out by the store. Times are integers. A missing field and an
empty string both read as `None` or `Present(..) == false`, as JavaScript's falsiness makes
them one case.

## Model

| member | source | states |
|---|---|---|
| Text.Trim | app/api/widget.js/route.ts:801 | the trimmed text occurs in the input and neither starts nor ends with whitespace |
| Text.TrimOuterOnly | app/api/widget.js/route.ts:801 | what trimming drops before and after the kept text is all whitespace, so only the two ends are removed |
| Text.TrimEmptyIff | app/api/widget.js/route.ts:801-802 | trimming gives the empty string exactly when the input is all whitespace, which is when the widget refuses to send |
| Text.ParseDecimal | app/api/widget.js/route.ts:913 | the decimal text of a count reads back as that count |
| Plans.ParsePlan | lib/products.ts:26-60 | a stored plan string that parses names that plan |
| Plans.ParsePlanName | lib/products.ts:26-60 | every plan's name parses back to the plan |
| Plans.GetPlanLimits | lib/products.ts:123-125 | a known plan name gets its table entry; any other string gets the starter entry |
| Plans.ConversationCeilingIncreases | lib/products.ts:26-60 | the monthly conversation ceiling rises strictly from starter to pro to business |
| Plans.EntitlementShape | lib/products.ts:26-60 | only the starter plan lacks the assistant, and only the business plan may remove branding |
| Plans.FindProduct | lib/products.ts:119-121 | a found product is in the list and has the asked id; none is found only when no product has it |
| Plans.ProductsMatchLimits | lib/products.ts:62-117 | each plan has a product whose id is the plan and whose limits are the plan's table entry |
| Plans.ProductIdsDistinct | lib/products.ts:62-117 | no two products share an id |
| Plans.GetProductUnknown | lib/products.ts:119-121 | a string that names no plan finds no product |
| Plans.FormatPrice | lib/products.ts:127-130 | zero cents and only zero shows "Free"; otherwise "$" and the digits of the amount rounded to whole dollars |
| Plans.FormatWholeDollars | lib/products.ts:127-130 | a whole-dollar price shows as "$" and the dollar count |
| Plans.GetUserPlan | lib/plan.ts:12-31 | no profile means starter with zero usage; otherwise the stored plan (starter when blank), the counter (0 when null), the status (none when blank) and the reset time, with the limits of that plan name |
| Plans.CanUseFeature | lib/plan.ts:52-56 | a boolean feature is allowed exactly when the plan's flag is set; a numeric feature is always allowed |
| Plans.HasConversationsLeft | lib/plan.ts:58-60 | true exactly when this month's count is below the plan's ceiling |
| Plans.GetUpgradePlan | lib/plan.ts:62-66 | the upgrade is one rank higher, and there is none exactly for the business plan |
| Plans.UpgradeChain | lib/plan.ts:62-66 | starter upgrades to pro, pro to business, business to nothing |
| ChatData.ParseSender | app/api/migrate/route.ts:161 | a sender string the column's check accepts names that role |
| ChatData.ParseSenderName | app/api/migrate/route.ts:161 | each of the three roles' names passes the check and parses back to the role |
| MessageQuery.Insert | app/api/chat/messages/route.ts:27-31 | inserting into a time-ordered list keeps it ordered and adds exactly the one message |
| MessageQuery.SortByTime | app/api/chat/messages/route.ts:27-31 | the ordering by creation time is ordered and a permutation of its input |
| MessageQuery.TiesReversed | app/api/chat/messages/route.ts:27-31 | two rows with the same creation time are ordered in the reverse of their stored order |
| MessageQuery.Select | app/api/chat/messages/route.ts:27-44 | the filter keeps every message of the session after the cursor time, each as often as stored, and nothing else |
| MessageQuery.Take | app/api/chat/messages/route.ts:46 | the limit keeps a prefix of exactly the smaller of the limit and the list's length, the whole list when it fits |
| MessageQuery.TakeEarliest | app/api/chat/messages/route.ts:27-46 | on a time-ordered list no message the limit drops is earlier than one it keeps |
| MessageQuery.TakePart | app/api/chat/messages/route.ts:46 | the limited rows are a sub-multiset of the list, and all of it when the list fits |
| MessageQuery.OrderedPrefix | app/api/chat/messages/route.ts:27-46 | ordering and then limiting a filtered list keeps it ordered and filtered, keeps exactly the smaller of the limit and the filtered count, drops nothing when it fits, and drops only the latest |
| MessageQuery.Query | app/api/chat/messages/route.ts:27-46 | exactly the smaller of the limit and the number of matches, ordered by time, only matching messages, all of them when they fit, and the earliest ones otherwise |
| MessageQuery.DroppedIncludesLatest | app/api/chat/messages/route.ts:46 | when the limit cuts, a message later than all the others is among those cut |
| MessageQuery.CursorTime | app/api/chat/messages/route.ts:34-44 | the cursor time is that of a stored message with the cursor id; there is none exactly when no message has that id |
| MessageQuery.WireAll | app/api/chat/messages/route.ts:53 | every row is sent, in order, with its id, content and time, and with a sender name that reads back as its sender |
| MessageQuery.WireAdminIff | app/api/chat/messages/route.ts:53 | a sent row carries the sender name "admin" exactly when the stored message is the owner's |
| MessageQuery.WireSorted | app/api/chat/messages/route.ts:27-53 | sending a time-ordered list keeps the sent rows in time order |
| MessageQuery.ListMessages | app/api/chat/messages/route.ts:16-53 | the endpoint answers 400 exactly when the session id is missing and 500 exactly when the read fails; otherwise it sends the listing of the session after the cursor |
| MessageQuery.ListMessagesShape | app/api/chat/messages/route.ts:27-53 | with a session id and a working read the answer is a list of exactly the smaller of 50 and the number of matches, ordered by time |
| MessageQuery.ListingEarliest | app/api/chat/messages/route.ts:27-46 | every listed row is of the asked session, and no matching row left out is earlier than one listed |
| MessageQuery.CursorExcludesTies | app/api/chat/messages/route.ts:34-44 | after a known cursor only strictly later messages come back, so a message stored at the cursor's instant is skipped |
| MessageQuery.UnknownCursorIgnored | app/api/chat/messages/route.ts:34-44 | a cursor id that matches no message lists as if there were no cursor |
| MessageQuery.ListMessagesComplete | app/api/chat/messages/route.ts:27-53 | when at most 50 messages match, the answer holds exactly the session's messages after the cursor |
| Assistant.AnyKeyword | app/api/chat/ai/route.ts:78-92 | some keyword matches exactly when one of the list's lower-cased keywords occurs in the message |
| Assistant.HandoffIff | app/api/chat/ai/route.ts:78-92 | handoff fires exactly when a lower-cased keyword of the stored list, or of the default list when none is stored, occurs at some position of the lower-cased message |
| Assistant.MentionHandsOff | app/api/chat/ai/route.ts:78-92 | a message containing a keyword verbatim hands off |
| Assistant.EmptyListNeverHandsOff | app/api/chat/ai/route.ts:78-92 | a stored empty list disables handoff |
| Assistant.EmptyKeywordAlwaysHandsOff | app/api/chat/ai/route.ts:78-92 | an empty keyword in the list hands off every message |
| Assistant.DefaultMatchesInsideWords | app/api/chat/ai/route.ts:78-92 | the default list matches inside words: "personal data" hands off |
| Assistant.HistoryReadRequest | app/api/chat/ai/route.ts:69-147 | when the history read reports an error the model gets the current message alone; otherwise the stored history comes first and the current message last |
| Assistant.HistoryOmitsNewest | app/api/chat/ai/route.ts:70-75 | with more than 20 messages in the session, a message later than all the others is not in the history |
| Assistant.Transcript | app/api/chat/ai/route.ts:140-148 | one turn per history message, in order, with its content and the user role exactly for visitor messages, then the current message as a user turn |
| Assistant.TranscriptBound | app/api/chat/ai/route.ts:70-148 | the model sees at most 21 turns |
| Assistant.CannedLinesList | app/api/chat/ai/route.ts:151-179 | every canned response's line appears in the joined list |
| Assistant.LayoutContents | app/api/chat/ai/route.ts:151-179 | the prompt layout starts with the persona, ends with the instant, and contains the visitor line and everything in the knowledge and canned sections |
| Assistant.SystemPromptContents | app/api/chat/ai/route.ts:151-179 | the system prompt starts with the configured persona or the default one, ends with the current instant, names the visitor (or "Visitor"), and contains the knowledge base and every canned response |
| Assistant.OrInt | app/api/chat/ai/route.ts:182-190 | a set, non-zero number is kept; null and zero fall back |
| Assistant.OrReal | app/api/chat/ai/route.ts:182-190 | a set, non-zero number is kept; null and zero fall back |
| Assistant.BuildRequest | app/api/chat/ai/route.ts:182-190 | the request carries the transcript, the configured model or the default, the token cap or 500 when null or zero, the temperature or 0.7 when null or zero, and the system prompt built from the configuration, the visitor's name and the time |
| Assistant.ZeroTemperatureReplaced | app/api/chat/ai/route.ts:189 | a configured temperature of zero is sent as 0.7 |
| Assistant.MarkerAnywhere | app/api/chat/ai/route.ts:242-258 | an exception text containing any of the four markers is reported as a configuration failure |
| Assistant.HandoffSession | app/api/chat/ai/route.ts:94-137 | after a handoff the bot is off, the status is waiting for a human, the request time and the update time are the current time; no other field changes |
| Assistant.RepliedSession | app/api/chat/ai/route.ts:207-216 | a reply sets the update and last-message times to the current time and the counter to one more than the metadata's count; no other field changes |
| Assistant.BotCountStaysOne | app/api/chat/ai/route.ts:207-216 | the counter is read from metadata that nothing writes, so after any number of replies it reads 1 |
| Assistant.AiGate | app/api/chat/ai/route.ts:20-67 | 400 exactly when a field is missing; the bot-inactive answer exactly for a known session whose bot is off; 404 exactly for an unknown session; the assistant-disabled answer exactly for a known session whose bot is on and whose configuration is missing or has the assistant off; otherwise it proceeds |
| Assistant.BodyBotFlag | app/api/chat/ai/route.ts:234-258 | the body turns the widget's bot off exactly on a decline or a handoff, flags handoff only on a handoff, is 500 only on a failure, and a failure carries the apology and the configuration error exactly for configuration markers |
| ChatStore.NewSession | app/api/chat/session/route.ts:31-45 | a new session belongs to the chatbot and its owner, is active with the bot off and no handoff, named "Visitor" when no name was given, with the email only when one was given |
| ChatStore.FreshSessionDeclinesAi | app/api/chat/session/route.ts:31-45 | a freshly created session never passes the assistant's gate, and the answer tells the widget the bot is off |
| ChatStore.AppendConsistent | app/api/chat/message/route.ts:42-56 | appending a message of a known session with the next id keeps the store invariant |
| ChatStore.UpdateConsistent | app/api/chat/ai/route.ts:94-137 | rewriting a session keeps the store invariant when the new row is not waiting with its bot on |
| ChatStore.Store.constructor | app/api/migrate/route.ts:160 | an empty store with the given configurations and profiles satisfies the invariant |
| ChatStore.Store.CreateSession | app/api/chat/session/route.ts:8-65 | 400 without a chatbot id, 404 for an unknown one, 500 on a failed insert (nothing changes in each case); otherwise one new session under a fresh id, and nothing else changes |
| ChatStore.Store.PostMessage | app/api/chat/message/route.ts:19-77 | 400 exactly when the session id or the content is missing; 404 for an unknown session; 500 when the insert fails or the sender is not a role; when every check passes it posts exactly one new message, sender visitor by default, and bumps the session's update time unless that write fails |
| ChatStore.Store.Record | app/api/chat/ai/route.ts:193-216 | writes one message and one session row, keeping the invariant |
| ChatStore.Store.ReplyWithAi | app/api/chat/ai/route.ts:18-258 | the gate's answers change nothing and call no model; a handoff writes the handoff session and notice and calls no model; otherwise the model gets the request built from the configuration and the oldest history, or only the current message when the history read fails, and on success one reply message and the replied session are written, while a failure writes nothing |
| WidgetConfig.OwnerPlan | app/api/chat/config/route.ts:28-35 | the owner's stored plan, or starter when the owner has no profile or a blank plan |
| WidgetConfig.GetConfig | app/api/chat/config/route.ts:7-25 | 400 exactly when the id is missing, 404 exactly for an unknown chatbot |
| WidgetConfig.GetConfigGates | app/api/chat/config/route.ts:38-56 | the branding switch and the assistant flag are passed through only when the owner's plan allows them and forced on and off otherwise; every other field is the stored one |
| WidgetConfig.StarterOwnerGated | app/api/chat/config/route.ts:38-56 | an owner on the starter plan, or with no profile, always shows branding and never has the assistant |
| WidgetConfig.OwnerIdNotReturned | app/api/chat/config/route.ts:38-56 | the answer does not reveal the owner: owners on the same plan get the same answer |
| WidgetRuntime.BeforeColon | app/api/widget.js/route.ts:985-986 | the first piece of a split on ':' is the longest colon-free prefix |
| WidgetRuntime.ParseClockDigits | app/api/widget.js/route.ts:985-988 | "H:M" with digit pieces reads as H*60+M minutes |
| WidgetRuntime.ParseClockOf | app/api/widget.js/route.ts:985-988 | a time written from whole hours and minutes reads back as its minute of the day |
| WidgetRuntime.CheckBusinessHours | app/api/widget.js/route.ts:965-991 | always online without hours or schedule; offline on a day without an enabled entry or with an unreadable time; otherwise online from the start minute up to, not including, the end minute |
| WidgetRuntime.OnlineWithinRange | app/api/widget.js/route.ts:965-991 | an entry written from whole hours and minutes is online exactly inside its range |
| WidgetRuntime.InitialConfig | app/api/widget.js/route.ts:1038-1080 | the endpoint's configuration when it found the chatbot, the built-in default otherwise |
| WidgetRuntime.DefaultConfigOnline | app/api/widget.js/route.ts:1043-1050 | the built-in default configuration is always online and shows branding |
| WidgetRuntime.StatusFor | app/api/widget.js/route.ts:707-729 | the handoff button shows exactly in AI mode, the banner exactly while waiting, and an unknown mode reads "Online" |
| WidgetRuntime.BadgeTextReads | app/api/widget.js/route.ts:911-916 | the badge reads "9+" above nine, and otherwise one digit that reads back as the count |
| WidgetRuntime.AnswerItems | app/api/widget.js/route.ts:841-845 | the reply as an AI bubble; the trouble text when there is no reply and the status is an error; nothing otherwise |
| WidgetRuntime.ReplyItems | app/api/widget.js/route.ts:838-859 | the answer's bubble then the transfer note on a handoff, or the connection note when the call threw; at most one bot bubble and no other |
| WidgetRuntime.ServerRepliesRender | app/api/widget.js/route.ts:841-852 | every answer of the reply endpoint renders as intended: the text, the handoff text with the transfer note, the apology, or nothing on a decline or an empty generation |
| WidgetRuntime.RowCounts | app/api/widget.js/route.ts:943-951 | an admin row adds one agent bubble, with the joined note when waiting; other rows add nothing |
| WidgetRuntime.PollCounts | app/api/widget.js/route.ts:939-955 | polling adds one agent bubble per admin row, no other bubble, and one note when the visitor was waiting and an agent answered |
| WidgetRuntime.PollShowsAdminRows | app/api/widget.js/route.ts:939-955 | every polled bubble shows an admin row's content and every polled note is the joined note |
| WidgetRuntime.PollJoinedOnce | app/api/widget.js/route.ts:945-949 | the joined note appears at most once per batch, exactly when the visitor was waiting and an agent answered |
| WidgetRuntime.CountAppend | app/api/widget.js/route.ts:878-917 | bubbles of a sender in two appended lists add up |
| WidgetRuntime.AnswerBotCount | app/api/widget.js/route.ts:838-859 | a finished assistant call adds exactly as many bot bubbles as its answer shows |
| WidgetRuntime.DeliverStep | app/api/widget.js/route.ts:940-955 | a batch is delivered row by row |
| WidgetRuntime.DeliverAllEffect | app/api/widget.js/route.ts:939-955 | a batch adds its entries, ends the wait at the first admin row, raises the unread count by the admin rows while closed, and leaves the cursor at the last row |
| WidgetRuntime.Widget.constructor | app/api/widget.js/route.ts:1038-1080 | a fresh widget is closed, with no session, no messages and no unread, offline exactly outside the applied configuration's hours |
| WidgetRuntime.Widget.ApplyConfig | app/api/widget.js/route.ts:993-1032 | keeps the configuration, restyles the page, shows the launcher text when it is enabled and set, and goes offline exactly outside business hours |
| WidgetRuntime.Widget.ToggleChat | app/api/widget.js/route.ts:678-705 | opening clears the unread count and badge and shows the offline overlay only before a chat has started while offline; closing changes only the launcher text |
| WidgetRuntime.Widget.UpdateStatus | app/api/widget.js/route.ts:707-729 | only the header status changes, to the mode's status |
| WidgetRuntime.Widget.AddMessage | app/api/widget.js/route.ts:878-917 | one bubble is appended; a non-visitor bubble arriving while closed raises the unread count and shows the badge |
| WidgetRuntime.Widget.AddSystemMessage | app/api/widget.js/route.ts:919-925 | one note is appended and nothing else changes |
| WidgetRuntime.Widget.StartChat | app/api/widget.js/route.ts:731-790 | records the trimmed name (or "Visitor") and email; on a failed request only re-enables the start button; otherwise opens the conversation with the returned id |
| WidgetRuntime.Widget.Identify | app/api/widget.js/route.ts:732-733 | the trimmed name, "Visitor" when blank, and the trimmed email |
| WidgetRuntime.Widget.Open | app/api/widget.js/route.ts:749-784 | the conversation shows with status online, the bot off, the welcome bubble when configured, and polling started exactly when a session id came back |
| WidgetRuntime.Widget.ShowConversation | app/api/widget.js/route.ts:754-759 | hides the form and shows the messages and input, and the branding when configured |
| WidgetRuntime.Widget.Greet | app/api/widget.js/route.ts:769-772 | the configured welcome message as one bot bubble, counted unread while closed |
| WidgetRuntime.Widget.BeginSend | app/api/widget.js/route.ts:800-810 | blank input, no session or a send in flight does nothing; otherwise the trimmed text is sent, shown as a visitor bubble, the input is cleared and a send is in flight |
| WidgetRuntime.Widget.ShowAnswer | app/api/widget.js/route.ts:841-845 | the answer's bubble, counted unread while closed |
| WidgetRuntime.Widget.FollowAnswer | app/api/widget.js/route.ts:847-856 | a handoff turns the bot off, waits for a human and shows the transfer note; a bot-off answer without handoff only turns the bot off |
| WidgetRuntime.Widget.CompleteSend | app/api/widget.js/route.ts:812-868 | the assistant is asked exactly when the post did not throw, the bot is on and no human is awaited; the reply's entries are added; the bot never turns back on; the send ends |
| WidgetRuntime.Widget.Answer | app/api/widget.js/route.ts:838-856 | an arrived answer adds its entries, counts its bot bubble unread while closed, and sets the handoff or bot flags |
| WidgetRuntime.Widget.RequestHandoff | app/api/widget.js/route.ts:792-798 | without a session or while a human is awaited nothing happens; otherwise the fixed request text is sent as a message |
| WidgetRuntime.Widget.Receive | app/api/widget.js/route.ts:940-955 | one polled row is delivered as the row-by-row specification says |
| WidgetRuntime.Widget.ReceiveAll | app/api/widget.js/route.ts:939-956 | the rows of a poll are delivered in order as the batch specification says |
| WidgetRuntime.Widget.Poll | app/api/widget.js/route.ts:930-962 | without a session or a started chat nothing happens; otherwise the request carries the last seen id, the rows are delivered (none when the request threw) and the next poll is scheduled |
| Billing.PlanForAmount | app/api/stripe/webhook/route.ts:85-92 | 2900 cents buys pro and 9900 business, anything else starter; always a valid plan name |
| Billing.PriceBuysPlan | app/api/stripe/webhook/route.ts:85-92 | each paid product's price buys its own plan, and only the free product's price maps to starter |
| Billing.CustomerOwner | app/api/stripe/webhook/route.ts:69-128 | the profile for a customer id exists only when exactly one profile carries that id |
| Billing.FindOwner | app/api/stripe/webhook/route.ts:69-128 | the lookup returns exactly the customer's single owner |
| Billing.HandleWebhook | app/api/stripe/webhook/route.ts:8-154 | no signature or a bad one is refused and changes nothing; a verified event applies its change to the profiles and is acknowledged; nothing outside the profiles changes |
| Billing.ApplyEventKeepsPlansValid | app/api/stripe/webhook/route.ts:33-147 | every plan an event writes is a valid plan name |
| Billing.ApplyEventTouchesOne | app/api/stripe/webhook/route.ts:33-147 | an event changes at most the one profile it targets |
| Billing.CheckoutGrantsPlan | app/api/stripe/webhook/route.ts:33-67 | after checkout the user has the paid plan's limits and a fresh conversation allowance |
| Billing.CancellationDowngrades | app/api/stripe/webhook/route.ts:107-128 | cancelling drops the owner to starter limits without the assistant, status canceled |
| Billing.PaymentFailureKeepsPlan | app/api/stripe/webhook/route.ts:130-147 | a failed payment only marks the subscription past due; plan and usage stay |
| Billing.UpdatePlan | app/api/plan/update/route.ts:6-43 | 401 without a user, 400 for an unknown plan, 500 on a failed write (nothing changes in each case); with a user, a known plan and a working write it succeeds: the user's plan is set and activated and the plan's limits are returned |
| Billing.ReadPlan | app/api/plan/route.ts:10-32 | 401 exactly without a user, 500 exactly when the read throws; otherwise the plan the plan reader derives from the user's profile, with its counter and reset time as stored and the limits of its name, and starter for a user without a profile |
| Billing.UpdateThenRead | app/api/plan/route.ts:14-29 | reading after an update returns the new plan, its limits and an active status |
| AiTest.ResolveModel | app/api/chat/ai/test/route.ts:17-20 | no model gives the fallback; a short name maps through the table; any other string passes through |
| AiTest.TableShape | app/api/chat/ai/test/route.ts:9-15 | every table target is a provider-qualified id and no key is |
| AiTest.ResolveIdempotent | app/api/chat/ai/test/route.ts:17-20 | resolving a resolved model changes nothing |
| AiTest.TestPromptShape | app/api/chat/ai/test/route.ts:40-42 | the test prompt starts with the persona or the default and ends with the date line, with the knowledge base when set |
| AiTest.TestTemperature | app/api/chat/ai/test/route.ts:44-50 | a given temperature is used as is, zero included; none means 0.7 |
| AiTest.TestMaxTokens | app/api/chat/ai/test/route.ts:44-50 | a given non-zero cap is used; none or zero means 500 |
| AiTest.TestRequest | app/api/chat/ai/test/route.ts:38-50 | the test asks the model with the message alone, the resolved model, the given or default settings, and the test prompt, which starts with the given or default persona and ends with the current time |
| AiTest.TestRoute | app/api/chat/ai/test/route.ts:25-59 | 401 exactly when signed out, 400 exactly when the message is missing, otherwise the model's text or its failure message |
| AiTest.RejectionsIgnoreModel | app/api/chat/ai/test/route.ts:25-36 | refused requests never reach the model |
| AdminAi.Load | app/admin/ai/page.tsx:91-114 | a form exactly when the owner has a configuration |
| AdminAi.LoadFills | app/admin/ai/page.tsx:102-111 | each stored setting is kept and each null one gets the editor's default |
| AdminAi.DefaultsIdempotent | app/admin/ai/page.tsx:102-111 | filling defaults twice is filling them once |
| AdminAi.EditorKeywordsShorter | app/admin/ai/page.tsx:102-111 | the editor's default keywords are the server's list without "talk to someone" and "ekte person" |
| AdminAi.Save | app/admin/ai/page.tsx:116-142 | saving writes exactly the form's columns and leaves the other modelled columns as they were |
| AdminAi.SaveLoadRoundTrip | app/admin/ai/page.tsx:91-142 | saving a loaded form and loading again gives the same form |
| AdminAi.AddKeyword | app/admin/ai/page.tsx:144-149 | a blank input changes nothing; otherwise the trimmed keyword is appended and the input cleared, nothing else changing |
| AdminAi.Splice1 | app/admin/ai/page.tsx:151-156 | removes the element at the index, counting from the end for a negative index; an index past the end removes nothing |
| AdminAi.RemoveKeyword | app/admin/ai/page.tsx:151-156 | only the keyword list changes, by the splice |
| AdminAi.RemoveExactlyOne | app/admin/ai/page.tsx:151-156 | removing at a valid index drops exactly that keyword and keeps the others in order |
| AdminAi.AddThenRemove | app/admin/ai/page.tsx:144-156 | removing the keyword just added restores the list |
| AdminAi.TemperatureAt | app/admin/ai/page.tsx:491-497 | the slider's steps are the tenths from 0 to 2 |
| AdminAi.MaxTokensAt | app/admin/ai/page.tsx:512-518 | the slider's steps are multiples of 50 from 100 to 2000 |
| AdminAi.SliderShowsStored | app/admin/ai/page.tsx:491-518 | a slider shows the value it stored, except that a temperature of 0 shows as 0.7 |
| AdminAi.PageFor | app/admin/ai/page.tsx:191-230 | the upgrade notice exactly for a loaded form whose plan lacks the assistant; the settings otherwise once loaded |
| AdminAi.PlanGate | app/admin/ai/page.tsx:212-230 | only the starter plan sees the upgrade notice, and an unknown plan sees the settings |
| Appearance.DefaultHoursShape | app/admin/appearance/page.tsx:36-44 | the default schedule covers all seven days, 09:00 to 17:00, open exactly on weekdays |
| Appearance.DefaultTimes | app/admin/appearance/page.tsx:36-44 | the default times read as minutes 540 and 1020 |
| Appearance.DefaultHoursOnline | app/admin/appearance/page.tsx:36-44 | with the default schedule the widget is online exactly on weekdays from 09:00 up to 17:00 |
| Appearance.EnableInstallsDefaults | app/admin/appearance/page.tsx:345-354 | switching on keeps a stored schedule and timezone or installs the default schedule and the browser's timezone, changing nothing else |
| Appearance.DisableRetains | app/admin/appearance/page.tsx:345-354 | switching off changes only the flag, so switching on again restores the same state |
| Appearance.EditDay | app/admin/appearance/page.tsx:379-410 | a day edit writes a schedule with the same days and changes nothing else in the row |
| Appearance.EditOnlyThatDay | app/admin/appearance/page.tsx:379-410 | an edit changes only that day's one field, keeps a full week full, and starts from the default schedule when none is stored |
| Appearance.ClosedDayIsOffline | app/admin/appearance/page.tsx:387 | a day switched off in the editor is offline all day while business hours are on |
| Conversations.Filter | app/admin/conversations/page.tsx:119-126 | only loaded rows that match the search |
| Conversations.FilterKeepsMatching | app/admin/conversations/page.tsx:119-126 | the filtered list is the matching rows, all of them, in loaded order |
| Conversations.SearchEdges | app/admin/conversations/page.tsx:119-126 | a row with no name, email or messages is never found; the empty query finds every named row |
| Conversations.NameFound | app/admin/conversations/page.tsx:119-126 | a name containing the query is found whatever the ASCII case |
| Conversations.SelectAfterLoad | app/admin/conversations/page.tsx:77-81 | an existing selection stays; otherwise the first loaded row, or none |
| Conversations.SelectsNewest | app/admin/conversations/page.tsx:54-81 | with rows newest first, the first selection is the newest session |
| Conversations.HandleSendMessage | app/admin/conversations/page.tsx:90-108 | blank text or no selection does nothing; without a user the spinner stays on; otherwise one admin message with the typed text is stored when the session exists, and the box is cleared |
| Conversations.HandleArchive | app/admin/conversations/page.tsx:110-117 | the session's status becomes closed and nothing else changes |
| Sidebar.PlanOrder | components/admin/admin-sidebar.tsx:107 | the three plans rank 0, 1, 2 and any other string ranks 0 |
| Sidebar.IsFeatureLocked | components/admin/admin-sidebar.tsx:121-126 | an item with no required plan is never locked; otherwise locked exactly when the current plan ranks below the required one |
| Sidebar.UnknownPlanIsStarter | components/admin/admin-sidebar.tsx:121-126 | an unknown current plan locks like starter, and an unknown required plan locks nothing |
| Sidebar.LockMonotone | components/admin/admin-sidebar.tsx:121-126 | a higher plan unlocks at least what a lower one does |
| Sidebar.LockedTitles | components/admin/admin-sidebar.tsx:166 | no more locked titles than menu items |
| Sidebar.LockedTitlesIff | components/admin/admin-sidebar.tsx:121-166 | a title is shown locked exactly when some item with that title is locked on the current plan |
| Sidebar.MenuLockedTitles | components/admin/admin-sidebar.tsx:56-166 | on any plan the locked items are the three that need pro, or none |
| Sidebar.MenuLocks | components/admin/admin-sidebar.tsx:56-126 | on starter exactly the assistant, canned responses and analytics are locked; on pro and business nothing is |
| Sidebar.IsActive | components/admin/admin-sidebar.tsx:171-175 | the dashboard is highlighted only on its exact path, any other item on any path under its own |
| Sidebar.OwnPageActive | components/admin/admin-sidebar.tsx:56-175 | each item is highlighted on its own page, and the dashboard on no other item's page |
| Sidebar.Initials | components/admin/admin-sidebar.tsx:135-140 | the first two characters of the company name in upper case, else of the email, else "VS" |
| Sidebar.InitialsShape | components/admin/admin-sidebar.tsx:135-140 | the initials are one or two characters with no lower-case ASCII letter |
| Guards.Middleware | middleware.ts:5-31 | a redirect always goes to the login page without the query |
| Guards.CustomCookieIsAuthCookie | middleware.ts:19-27 | the literal cookie name is itself a session cookie name, so the first test admits nothing the second refuses |
| Guards.UpdateSession | lib/supabase/proxy.ts:3-27 | a redirect always goes to the login page keeping the query |
| Guards.SameDecision | lib/supabase/proxy.ts:3-27 | both guards redirect exactly the paths under "/admin" (not API or build assets) without a session cookie |
| Guards.ValuesIgnored | middleware.ts:19-27 | only cookie names matter, not their values |
| Guards.Guarded | middleware.ts:33-35 | a request is redirected exactly when the matcher runs the guard and no session cookie is sent |
| Guards.AdministratorPath | middleware.ts:33-35 | "/administrator" would be refused by the guard's prefix test, but the matcher never runs the guard there |

## Left out

- Network and rendering: the fetches, DOM nodes, styles, scrolling and timers are not modelled. The widget's endpoint answers are parameters, and the next poll is a `pollPending` flag rather than a 3-second timer.
- Typing indicator and button states: the typing indicator, the send button's disabled state and the quick-action buttons are left out. The quick-action buttons are `sendMessage` with preset text.
- Greeting delay: the delayed assistant greeting on open (`setTimeout`) is left out. It needs `ai_greeting` in the session endpoint's answer, which that endpoint never sends.
- Time and clock: the timezone conversion and `Date` are replaced by the weekday, hour and minute they produce, given as inputs. The ISO time string is an input.
- Language model: the model is a function parameter. No model fallback beyond the one configured model is modelled, because the reply endpoint calls one model.
- Store: the store is an in-memory class. The query builder, row-level security and the Postgres tie order are not modelled. Postgres leaves the order of equal creation times unspecified; the model's ordering reverses the stored order of such ties (`MessageQuery.TiesReversed`).
- Thrown exceptions: the catch-all 500 answers for exceptions other than the ones modelled are left out. These are an unreadable request body, missing store environment variables, and a store client that throws instead of reporting an error. They cover the configuration endpoint (app/api/chat/config/route.ts:65-67), the listing (app/api/chat/messages/route.ts:60-63), the reply endpoint's non-model failures (app/api/chat/ai/route.ts:242-258), the test endpoint and the plan update. The listing's reported read error, the model's failure and the plan read's throw are modelled as flags.
- Lookup errors: a single-row read that reports an error is not modelled. The source reads such an error as a missing row or as the default, so it can answer "not found" or use a default for a row that exists. The members below model only the read that succeeds:
- ChatStore.Store.CreateSession: a failed chatbot lookup answers 404 for a known chatbot (app/api/chat/session/route.ts:18-28).
- ChatStore.Store.PostMessage: a failed session lookup answers 404 for a known session (app/api/chat/message/route.ts:29-39).
- Assistant.AiGate: a failed session lookup answers 404 for a known session (app/api/chat/ai/route.ts:32-42), and a failed configuration lookup answers that the assistant is not enabled (app/api/chat/ai/route.ts:54-67).
- WidgetConfig.GetConfig: a failed configuration lookup answers 404 (app/api/chat/config/route.ts:16-25).
- WidgetConfig.OwnerPlan: a failed profile lookup applies the starter gates to a paying owner (app/api/chat/config/route.ts:28-34).
- Billing.ReadPlan: a reported profile read error returns the starter defaults (app/api/plan/route.ts:14-20); only a thrown read is modelled, as `storeThrows`.
- MessageQuery.CursorTime: a failed cursor lookup lists from the beginning, so the widget shows rows it already showed (app/api/chat/messages/route.ts:35-43). `MessageQuery.UnknownCursorIgnored` covers only an id that names no row.
- Billing.CustomerOwner: a failed profile lookup drops the event while still acknowledging it, so the provider does not retry (app/api/stripe/webhook/route.ts:74-80, 111-117, 134-140).
- Update time on save: the assistant settings save also writes `updated_at`, which the configuration model has no column for.
- Write errors: a store write whose error the source ignores is either not modelled as failing or modelled with a flag. The webhook ignores its update errors, so they are not modelled.
- Sender check: a `sender_type` outside the three roles fails the message insert through the column's check constraint. This is modelled as the 500 answer.
- Message route client: app/api/chat/message/route.ts declares its store client twice. The model follows the client created at line 26.
- Analytics: the analytics inserts are left out. Nothing in the core reads them.
- Webhook signature: provider signature verification is a boolean input.
- Webhook profile lookup: `.single()` is modelled as exactly one profile with the customer id (`Billing.CustomerOwner`). Zero or several matches leave the profiles unchanged.
- Number(): `Number()` on text is modelled for digit strings only. Signs, whitespace, decimals and exponents read as NaN, which makes an entry offline.
- Case folding: it covers ASCII letters only. `trim` strips ASCII whitespace only.
- Slider arithmetic: floating-point slider arithmetic and `toFixed` display are not modelled. The slider positions are exact decimals.
- Prototype keys: JavaScript prototype keys ("constructor", "toString") looked up in `PLAN_ORDER` or the model table are not modelled. They are treated as unknown names.
- Appearance page: the save, the timezone select and the fields other than business hours are left out. They are straight copies into the configuration row.
- Assistant test button: the settings page's test button (`handleTest`) is left out. It only calls the test endpoint, which `AiTest.TestRoute` models.
- Owner reply insert: the reply does not bump the session's update time, as in the source. The inbox reload that follows the insert is an input to `Conversations.SelectAfterLoad`.
- Plan reads: the plan read on the owner pages is an input.
- Loading spinners: `loadConfig` and `handleSendMessage` with no signed-in user leave the spinner on. `loadConfig`'s spinner is not modelled.
- Appearance.EditDay: requires the day to have an entry, because the page's editor for a missing day would throw while rendering.
- Delete menu item: the inbox's Delete menu item has no handler and is not modelled.
- Widget bot flag: the widget takes `isBotActive` from `ai_enabled` in the session endpoint's answer, which never includes it. `WidgetRuntime.Widget.Open` therefore leaves the bot off, and the widget never calls the reply endpoint. This is modelled as written; `ChatStore.FreshSessionDeclinesAi` states the same from the server side.
- Assistant history: the history holds the oldest 20 messages of the session (`Assistant.HistoryOmitsNewest`), modelled as written. When the widget posted the current message first, it appears both in the history and as the final turn.
- Bot message counter: the counter is read from session metadata that nothing writes, so it is always written as 1 (`Assistant.BotCountStaysOne`). This is modelled as written.
- Quota: the reply and session endpoints do not consult the plan or the monthly quota, and neither does the model. Nothing in this code raises the conversation counter. Only checkout zeroes it (`Billing.CheckoutGrantsPlan`); there is no calendar-based reset.
- Assistant settings defaults: the page's default keyword list has 7 entries and the server's has 9 (`AdminAi.EditorKeywordsShorter`). A temperature stored as 0 shows as 0.7 on the slider. Both are modelled as written.
- Negative keyword index: `splice` with a negative index counts from the end. `AdminAi.Splice1` models this, although the page only passes valid indexes.
- Route matcher: the route matcher never runs the guard on "/administrator", although its prefix test would match (`Guards.AdministratorPath`). The session-refresh guard keeps the query string on redirect and the middleware drops it. Both are modelled as written.
