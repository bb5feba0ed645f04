/** The pure parts of the assistant reply handler (app/api/chat/ai/route.ts): handoff keyword
    detection, the conversation history and transcript handed to the language model, the system
    prompt, the generation parameters with their defaults, and the classification of failures. */
module Assistant {
  import opened Text
  import opened ChatData
  import opened MessageQuery

  // ---------------------------------------------------------------- handoff detection

  /** The list used when a widget configuration stores no keyword list. */
  const DefaultKeywords: seq<string> := [
    "human", "agent", "person", "real person", "speak to someone", "talk to someone",
    "menneske", "snakke med noen", "ekte person"]

  /** `config.ai_handoff_keywords || DEFAULT`: a stored array, even an empty one, is truthy. */
  function HandoffKeywords(stored: Option<seq<string>>): seq<string> {
    match stored
    case Some(ks) => ks
    case None => DefaultKeywords
  }

  /** One keyword test: the lower-cased keyword occurs in the lower-cased message. */
  predicate Matches(messageLower: string, keyword: string) {
    Contains(messageLower, Lower(keyword))
  }

  /** `keywords.some(...)`. */
  function AnyKeyword(messageLower: string, keywords: seq<string>): (r: bool)
    ensures r <==> exists k :: 0 <= k < |keywords| && Matches(messageLower, keywords[k])
  {
    if keywords == [] then false
    else
      var rest := AnyKeyword(messageLower, keywords[1..]);
      assert forall k :: 1 <= k < |keywords| ==> keywords[k] == keywords[1..][k - 1];
      Matches(messageLower, keywords[0]) || rest
  }

  function HandoffRequested(content: string, stored: Option<seq<string>>): bool {
    AnyKeyword(Lower(content), HandoffKeywords(stored))
  }

  /** Handoff fires exactly when some lower-cased keyword occurs, at some position, in the
      lower-cased message. */
  lemma {:induction false} HandoffIff(content: string, stored: Option<seq<string>>)
    ensures HandoffRequested(content, stored) <==>
      exists k, i :: 0 <= k < |HandoffKeywords(stored)| && OccursAt(Lower(HandoffKeywords(stored)[k]), Lower(content), i)
  {
    var ks := HandoffKeywords(stored);
    forall k | 0 <= k < |ks|
      ensures Matches(Lower(content), ks[k]) <==> exists i :: OccursAt(Lower(ks[k]), Lower(content), i)
    {
      ContainsIff(Lower(content), Lower(ks[k]));
    }
  }

  /** Matching ignores ASCII case: a message that contains a keyword verbatim hands off. */
  lemma MentionHandsOff(content: string, stored: Option<seq<string>>, k: nat)
    requires k < |HandoffKeywords(stored)|
    requires Contains(content, HandoffKeywords(stored)[k])
    ensures HandoffRequested(content, stored)
  {
    ContainsLower(content, HandoffKeywords(stored)[k]);
  }

  /** A stored empty list replaces the default, so nothing ever hands off. */
  lemma EmptyListNeverHandsOff(content: string)
    ensures !HandoffRequested(content, Some([]))
  {
  }

  /** A stored empty keyword matches every message. */
  lemma EmptyKeywordAlwaysHandsOff(content: string, ks: seq<string>)
    requires "" in ks
    ensures HandoffRequested(content, Some(ks))
  {
    var k :| 0 <= k < |ks| && ks[k] == "";
    EmptyContained(Lower(content));
    assert Lower(ks[k]) == "";
  }

  /** Substring matching: with the default list, "personal" contains "person" and hands off. */
  lemma DefaultMatchesInsideWords()
    ensures HandoffRequested("personal data", None)
  {
    assert Lower("person") == "person";
    assert Lower("personal data")[..6] == "person";
    assert Matches(Lower("personal data"), DefaultKeywords[2]);
  }

  // ---------------------------------------------------------------- history and transcript

  const HistoryLimit: nat := 20

  /** The history read: the session's messages in ascending creation order, limited to 20. */
  function History(msgs: seq<Message>, sid: Id): seq<Message> {
    Query(msgs, sid, None, HistoryLimit)
  }

  /** The limit keeps the OLDEST twenty: a message of the session that is strictly later than all
      its others is missing from the history once the session has more than twenty. */
  lemma HistoryOmitsNewest(msgs: seq<Message>, sid: Id, newest: Message)
    requires multiset(Select(msgs, sid, None))[newest] == 1
    requires forall m :: m in Select(msgs, sid, None) && m != newest ==> m.createdAt < newest.createdAt
    requires |Select(msgs, sid, None)| > HistoryLimit
    ensures newest !in History(msgs, sid)
  {
    DroppedIncludesLatest(Select(msgs, sid, None), History(msgs, sid), newest);
  }

  datatype Role = User | AssistantRole

  datatype Turn = Turn(role: Role, content: string)

  /** The transcript: every stored row becomes a turn, visitor rows as the user and every
      other sender as the assistant, then the current message as a final user turn. */
  function Transcript(history: seq<Message>, content: string): (r: seq<Turn>)
    ensures |r| == |history| + 1
    ensures r[|history|] == Turn(User, content)
    ensures forall i :: 0 <= i < |history| ==>
      r[i].content == history[i].content && (r[i].role == User <==> history[i].sender == Visitor)
  {
    seq(|history|, i requires 0 <= i < |history| =>
        Turn(if history[i].sender == Visitor then User else AssistantRole, history[i].content))
      + [Turn(User, content)]
  }

  /** The history a request is built from: the stored history, or none when the read reports an
      error (`history || []`). */
  function HistoryRead(msgs: seq<Message>, sid: Id, readFails: bool): seq<Message> {
    if readFails then [] else History(msgs, sid)
  }

  /** A failed history read sends the model the current message alone; otherwise the stored
      history comes first. */
  lemma HistoryReadRequest(config: ChatbotConfig, session: Session, msgs: seq<Message>, sid: Id, readFails: bool,
                           content: string, nowIso: string)
    ensures var r := BuildRequest(config, session, HistoryRead(msgs, sid, readFails), content, nowIso);
      && (readFails ==> r.messages == [Turn(User, content)])
      && (!readFails ==> |r.messages| == |History(msgs, sid)| + 1 && r.messages[|History(msgs, sid)|] == Turn(User, content))
  {
  }

  /** The model never sees more than twenty-one turns. */
  lemma TranscriptBound(msgs: seq<Message>, sid: Id, content: string)
    ensures |Transcript(History(msgs, sid), content)| <= HistoryLimit + 1
  {
  }

  // ---------------------------------------------------------------- the system prompt

  const DefaultPersona: string :=
    "You are a helpful customer support assistant. Be friendly, professional, and concise."

  const CannedIntro: string :=
    "\n\nYou have access to these pre-written responses that you can use or adapt:\n"

  const RulesLead: string := "\n\nImportant rules:\n- You are chatting with a visitor "

  const Rules: string :=
    "\n- Be helpful, concise, and professional."
    + "\n- If you cannot answer a question, suggest the visitor ask to speak with a human agent."
    + "\n- Do not make up information. If you don't know something, say so."
    + "\n- Keep responses under 3 paragraphs unless the question requires a detailed explanation."
    + "\n- Format your responses nicely. Use line breaks for readability."
    + "\n- If the visitor seems frustrated or has a complex issue, proactively suggest speaking with a human."
    + "\n- You can understand and respond in multiple languages. Match the language of the visitor."
    + "\n- Current date/time: "

  function CannedLine(c: CannedResponse): string {
    "- \"" + c.title + "\": " + c.content
  }

  /** The canned responses, one line each, joined by newlines. */
  function CannedLines(rs: seq<CannedResponse>): string {
    if |rs| == 0 then ""
    else if |rs| == 1 then CannedLine(rs[0])
    else CannedLine(rs[0]) + "\n" + CannedLines(rs[1..])
  }

  lemma {:induction false} CannedLinesList(rs: seq<CannedResponse>, k: nat)
    requires k < |rs|
    ensures Contains(CannedLines(rs), CannedLine(rs[k]))
  {
    if k == 0 {
      if |rs| == 1 {
        assert StartsWith(CannedLines(rs), CannedLine(rs[0]));
      } else {
        assert CannedLines(rs)[..|CannedLine(rs[0])|] == CannedLine(rs[0]);
      }
    } else {
      CannedLinesList(rs[1..], k - 1);
      ContainsInside(CannedLine(rs[0]) + "\n", CannedLines(rs[1..]), "", CannedLine(rs[k]));
      assert CannedLine(rs[0]) + "\n" + CannedLines(rs[1..]) + "" == CannedLines(rs);
    }
  }

  function CannedSection(rs: seq<CannedResponse>): string {
    if |rs| > 0 then CannedIntro + CannedLines(rs) else ""
  }

  function KnowledgeSection(kb: Option<string>): string {
    if Present(kb) then "\n\nKnowledge Base:\n" + kb.value else ""
  }

  /** The prompt layout, with the fixed rule text as parameters. */
  function Layout(persona: string, kb: string, canned: string, named: string, lead: string, rules: string,
                  nowIso: string): string {
    persona + "\n\n" + kb + "\n" + canned + lead + named + rules + nowIso
  }

  /** The system prompt: persona (or the default), knowledge base, canned responses, the rules
      naming the visitor (or "Visitor"), and the current instant. */
  function SystemPrompt(config: ChatbotConfig, visitorName: Option<string>, nowIso: string): string {
    Layout(StrOr(config.aiSystemPrompt, DefaultPersona), KnowledgeSection(config.aiKnowledgeBase),
           CannedSection(config.cannedResponses), "named \"" + StrOr(visitorName, "Visitor") + "\".",
           RulesLead, Rules, nowIso)
  }

  lemma {:induction false} LayoutContents(persona: string, kb: string, canned: string, named: string,
                                          lead: string, rules: string, nowIso: string)
    ensures var p := Layout(persona, kb, canned, named, lead, rules, nowIso);
      && StartsWith(p, persona) && EndsWith(p, nowIso) && Contains(p, named)
      && (forall v :: Contains(kb, v) ==> Contains(p, v))
      && (forall v :: Contains(canned, v) ==> Contains(p, v))
  {
    var p := Layout(persona, kb, canned, named, lead, rules, nowIso);
    assert p[..|persona|] == persona;
    assert p[|p| - |nowIso|..] == nowIso;
    assert StartsWith(named, named);
    assert p == (persona + "\n\n" + kb + "\n" + canned + lead) + named + (rules + nowIso);
    ContainsInside(persona + "\n\n" + kb + "\n" + canned + lead, named, rules + nowIso, named);
    forall v | Contains(kb, v) ensures Contains(p, v) {
      assert p == (persona + "\n\n") + kb + ("\n" + canned + lead + named + rules + nowIso);
      ContainsInside(persona + "\n\n", kb, "\n" + canned + lead + named + rules + nowIso, v);
    }
    forall v | Contains(canned, v) ensures Contains(p, v) {
      assert p == (persona + "\n\n" + kb + "\n") + canned + (lead + named + rules + nowIso);
      ContainsInside(persona + "\n\n" + kb + "\n", canned, lead + named + rules + nowIso, v);
    }
  }

  /** What the prompt carries: it opens with the persona, ends with the instant, names the
      visitor, and includes the knowledge base and every canned response when they exist. */
  lemma SystemPromptContents(config: ChatbotConfig, visitorName: Option<string>, nowIso: string)
    ensures var p := SystemPrompt(config, visitorName, nowIso);
      && StartsWith(p, StrOr(config.aiSystemPrompt, DefaultPersona))
      && EndsWith(p, nowIso)
      && Contains(p, "named \"" + StrOr(visitorName, "Visitor") + "\".")
      && (Present(config.aiKnowledgeBase) ==> Contains(p, config.aiKnowledgeBase.value))
      && (forall k :: 0 <= k < |config.cannedResponses| ==> Contains(p, CannedLine(config.cannedResponses[k])))
  {
    var kb := KnowledgeSection(config.aiKnowledgeBase);
    var canned := CannedSection(config.cannedResponses);
    LayoutContents(StrOr(config.aiSystemPrompt, DefaultPersona), kb, canned,
                   "named \"" + StrOr(visitorName, "Visitor") + "\".", RulesLead, Rules, nowIso);
    if Present(config.aiKnowledgeBase) {
      var v := config.aiKnowledgeBase.value;
      assert StartsWith(v, v);
      ContainsInside("\n\nKnowledge Base:\n", v, "", v);
      assert kb == "\n\nKnowledge Base:\n" + v + "";
    }
    forall k | 0 <= k < |config.cannedResponses|
      ensures Contains(canned, CannedLine(config.cannedResponses[k]))
    {
      CannedLinesList(config.cannedResponses, k);
      ContainsInside(CannedIntro, CannedLines(config.cannedResponses), "", CannedLine(config.cannedResponses[k]));
      assert canned == CannedIntro + CannedLines(config.cannedResponses) + "";
    }
  }

  // ---------------------------------------------------------------- generation parameters

  const DefaultModel: string := "llama-3.3-70b-versatile"

  /** `config.ai_model || 'llama-3.3-70b-versatile'`, used for the call and the stored metadata. */
  function ModelId(config: ChatbotConfig): string {
    StrOr(config.aiModel, DefaultModel)
  }

  /** `value || fallback` on a nullable number: null and zero both fall back. */
  function OrInt(v: Option<int>, fallback: int): (r: int)
    ensures v.Some? && v.value != 0 ==> r == v.value
    ensures v.None? || v.value == 0 ==> r == fallback
  {
    if v.Some? && v.value != 0 then v.value else fallback
  }

  function OrReal(v: Option<real>, fallback: real): (r: real)
    ensures v.Some? && v.value != 0.0 ==> r == v.value
    ensures v.None? || v.value == 0.0 ==> r == fallback
  {
    if v.Some? && v.value != 0.0 then v.value else fallback
  }

  function MaxTokens(config: ChatbotConfig): int {
    OrInt(config.aiMaxTokens, 500)
  }

  function Temperature(config: ChatbotConfig): real {
    OrReal(config.aiTemperature, 0.7)
  }

  /** What the reply handler asks of the language model. */
  datatype GenRequest = GenRequest(
    model: string, system: string, messages: seq<Turn>, maxOutputTokens: int, temperature: real)

  /** What the language model gives back: text with an optional usage count, or an exception
      carrying its message. */
  datatype GenResult = Generated(text: string, totalTokens: Option<int>) | Failed(message: string)

  function BuildRequest(config: ChatbotConfig, session: Session, history: seq<Message>, content: string,
                        nowIso: string): (r: GenRequest)
    ensures r.messages == Transcript(history, content)
    ensures r.model == if Present(config.aiModel) then config.aiModel.value else DefaultModel
    ensures r.maxOutputTokens == if config.aiMaxTokens.Some? && config.aiMaxTokens.value != 0
                                 then config.aiMaxTokens.value else 500
    ensures r.temperature == if config.aiTemperature.Some? && config.aiTemperature.value != 0.0
                             then config.aiTemperature.value else 0.7
    ensures r.system == SystemPrompt(config, session.visitorName, nowIso)
    ensures StartsWith(r.system, StrOr(config.aiSystemPrompt, DefaultPersona)) && EndsWith(r.system, nowIso)
  {
    SystemPromptContents(config, session.visitorName, nowIso);
    GenRequest(ModelId(config), SystemPrompt(config, session.visitorName, nowIso),
               Transcript(history, content), MaxTokens(config), Temperature(config))
  }

  /** A stored temperature of zero is not honoured: the handler sends 0.7 instead. */
  lemma ZeroTemperatureReplaced(config: ChatbotConfig)
    requires config.aiTemperature == Some(0.0)
    ensures Temperature(config) == 0.7
  {
  }

  /** `usage?.totalTokens || 0`. */
  function TokensUsed(t: Option<int>): int {
    OrInt(t, 0)
  }

  // ---------------------------------------------------------------- failures

  const ConfigErrorText: string := "AI service is not properly configured. Please check your API key settings."
  const GenericErrorText: string := "Failed to generate a response. Please try again."
  const ApologyText: string :=
    "Sorry, I'm having trouble responding right now. Please try again or ask to speak with a human agent."

  /** The case-sensitive test that sorts a failure into "configuration" or "other". */
  predicate IsConfigError(message: string) {
    Contains(message, "API key") || Contains(message, "gateway")
    || Contains(message, "unauthorized") || Contains(message, "Missing")
  }

  /** A marker anywhere in the exception text makes it a configuration failure. */
  lemma MarkerAnywhere(before: string, after: string, marker: string)
    requires marker in ["API key", "gateway", "unauthorized", "Missing"]
    ensures IsConfigError(before + marker + after)
  {
    assert StartsWith(marker, marker);
    ContainsInside(before, marker, after, marker);
  }

  // ---------------------------------------------------------------- stored records

  const HandoffText: string :=
    "I understand you would like to speak with a human agent. I am transferring you now. A team member will be with you shortly!"

  /** The session after a handoff: the bot is switched off and the session waits for a human. */
  function HandoffSession(s: Session, now: Time): (r: Session)
    ensures !r.isBotActive && r.status == WaitingForHuman && r.handoffRequestedAt == Some(now) && r.updatedAt == now
    ensures r.(isBotActive := s.isBotActive, status := s.status, handoffRequestedAt := s.handoffRequestedAt,
               updatedAt := s.updatedAt) == s
  {
    s.(isBotActive := false, handoffRequestedAt := Some(now), status := WaitingForHuman, updatedAt := now)
  }

  /** The handoff notice the handler stores as a generated bot message. */
  function HandoffMessage(id: Id, sid: Id, adminId: Id, now: Time): Message {
    Message(id, sid, adminId, HandoffText, Bot, false, true, HandoffNotice, now)
  }

  /** The generated reply as stored: a bot message with the model id and token count. */
  function ReplyMessage(id: Id, sid: Id, adminId: Id, text: string, model: string, tokens: Option<int>,
                        now: Time): Message {
    Message(id, sid, adminId, text, Bot, false, true, Generation(model, TokensUsed(tokens)), now)
  }

  /** The session after a generated reply: timestamps bumped and the counter written as one more
      than the count read from the session's metadata; every other field stays. */
  function RepliedSession(s: Session, now: Time): (r: Session)
    ensures r.updatedAt == now && r.lastMessageAt == now
    ensures r.botMessagesCount == (match s.metaBotMessagesCount case Some(n) => n case None => 0) + 1
    ensures r.(updatedAt := s.updatedAt, lastMessageAt := s.lastMessageAt, botMessagesCount := s.botMessagesCount) == s
  {
    s.(updatedAt := now, lastMessageAt := now,
       botMessagesCount := OrInt(s.metaBotMessagesCount, 0) + 1)
  }

  /** The counter column is never read back: while the metadata holds no count, every reply
      writes 1, whatever the column held before. */
  lemma BotCountStaysOne(s: Session, now: Time)
    requires s.metaBotMessagesCount.None?
    ensures RepliedSession(RepliedSession(s, now), now).botMessagesCount == 1
  {
  }

  // ---------------------------------------------------------------- outcomes

  /** How far the handler got before touching the store. */
  datatype Gate =
    | MissingFields
    | SessionNotFound
    | BotInactive
    | AiDisabled
    | Proceed(sid: Id, content: string, session: Session, config: ChatbotConfig)

  /** The handler's checks, in its order: fields, session, the session's bot flag, the config. */
  function AiGate(sessions: map<Id, Session>, configs: map<Id, ChatbotConfig>,
                  sessionId: Option<Id>, content: Option<string>): (g: Gate)
    ensures g.MissingFields? <==> sessionId.None? || !Present(content)
    ensures g.Proceed? ==>
      (&& sessionId == Some(g.sid) && content == Some(g.content) && g.content != ""
       && g.sid in sessions && g.session == sessions[g.sid] && g.session.isBotActive
       && g.session.chatbotId in configs && g.config == configs[g.session.chatbotId]
       && Truthy(g.config.aiEnabled))
    ensures g.SessionNotFound? <==> !g.MissingFields? && sessionId.value !in sessions
    ensures g.BotInactive? <==> !g.MissingFields? && sessionId.value in sessions && !sessions[sessionId.value].isBotActive
    ensures g.AiDisabled? <==>
      (&& !g.MissingFields? && sessionId.value in sessions && sessions[sessionId.value].isBotActive
       && (sessions[sessionId.value].chatbotId !in configs
           || !Truthy(configs[sessions[sessionId.value].chatbotId].aiEnabled)))
  {
    if sessionId.None? || !Present(content) then MissingFields
    else if sessionId.value !in sessions then SessionNotFound
    else
      var s := sessions[sessionId.value];
      if !s.isBotActive then BotInactive
      else if s.chatbotId !in configs || !Truthy(configs[s.chatbotId].aiEnabled) then AiDisabled
      else Proceed(sessionId.value, content.value, s, configs[s.chatbotId])
  }

  datatype AiReply =
    | RejectedMissingFields
    | RejectedUnknownSession
    | DeclinedBotInactive
    | DeclinedAiDisabled
    | HandedOff
    | Replied(text: string)
    | GenerationFailed(message: string)

  function GateReply(g: Gate): AiReply
    requires !g.Proceed?
  {
    match g
    case MissingFields => RejectedMissingFields
    case SessionNotFound => RejectedUnknownSession
    case BotInactive => DeclinedBotInactive
    case AiDisabled => DeclinedAiDisabled
  }

  /** The JSON body and status code of each reply. */
  datatype AiBody = AiBody(
    status: nat, error: Option<string>, reply: Option<string>, handoff: Option<bool>, botActive: Option<bool>)

  function Body(r: AiReply): AiBody {
    match r
    case RejectedMissingFields => AiBody(400, Some("Missing required fields"), None, None, None)
    case RejectedUnknownSession => AiBody(404, Some("Session not found"), None, None, None)
    case DeclinedBotInactive => AiBody(200, Some("Bot is not active for this session"), None, None, Some(false))
    case DeclinedAiDisabled => AiBody(200, Some("AI is not enabled"), None, None, Some(false))
    case HandedOff => AiBody(200, None, Some(HandoffText), Some(true), Some(false))
    case Replied(text) => AiBody(200, None, Some(text), Some(false), Some(true))
    case GenerationFailed(m) =>
      AiBody(500, Some(if IsConfigError(m) then ConfigErrorText else GenericErrorText),
             Some(ApologyText), Some(false), Some(true))
  }

  /** The body tells the widget to stop using the bot exactly when the handler declined or
      handed off; a failure keeps the bot on, with the fixed apology. */
  lemma BodyBotFlag(r: AiReply)
    ensures Body(r).botActive == Some(false) <==> r.DeclinedBotInactive? || r.DeclinedAiDisabled? || r.HandedOff?
    ensures Body(r).handoff == Some(true) <==> r.HandedOff?
    ensures Body(r).status == 500 <==> r.GenerationFailed?
    ensures r.GenerationFailed? ==> Body(r).reply == Some(ApologyText) && Body(r).botActive == Some(true)
    ensures r.GenerationFailed? ==> (Body(r).error == Some(ConfigErrorText) <==> IsConfigError(r.message))
  {
    assert ConfigErrorText != GenericErrorText by {
      assert |ConfigErrorText| != |GenericErrorText|;
    }
  }
}
