/** The conversation store and the handlers that write to it: starting a widget session
    (app/api/chat/session/route.ts), posting a message (app/api/chat/message/route.ts) and the
    assistant reply (app/api/chat/ai/route.ts). Store failures the handlers report are inputs;
    the clock is an input; the language model is a function argument. */
module ChatStore {
  import opened Text
  import opened ChatData
  import opened MessageQuery
  import opened Assistant

  /** A session as the start handler inserts it: the chatbot owner's admin id, the visitor's name
      or "Visitor", the email or null, status active, and the column defaults for the rest — in
      particular the bot flag, which defaults to off. */
  function NewSession(chatbotId: Id, adminId: Id, name: Option<string>, email: Option<string>, now: Time): (s: Session)
    ensures s.chatbotId == chatbotId && s.adminId == adminId && s.status == Active
    ensures s.visitorName == Some(if Present(name) then name.value else "Visitor")
    ensures Present(email) ==> s.visitorEmail == email
    ensures !Present(email) ==> s.visitorEmail.None?
    ensures !s.isBotActive && s.botMessagesCount == 0 && s.handoffRequestedAt.None?
  {
    Session(chatbotId, adminId, Some(StrOr(name, "Visitor")), if Present(email) then email else None,
            Active, false, 0, None, None, now, now, now)
  }

  /** A posted message: unread, not generated, no metadata. */
  function PostedMessage(id: Id, sid: Id, adminId: Id, content: string, sender: Sender, now: Time): Message {
    Message(id, sid, adminId, content, sender, false, false, NoMeta, now)
  }

  /** The start handler's answers: 400, 404, 500, or the new id — and nothing else, in particular
      no `ai_enabled`. */
  datatype SessionReply = MissingChatbotId | ChatbotNotFound | SessionInsertFailed | SessionCreated(sessionId: Id)

  /** The post handler's answers: 400, 404, 500, or the new row's id and creation time. */
  datatype PostReply = PostMissingFields | PostSessionNotFound | PostInsertFailed | Posted(messageId: Id, createdAt: Time)

  /** A fresh session never passes the assistant's gate: its bot flag is off, so the reply
      handler answers `bot_active: false` without generating anything. */
  lemma FreshSessionDeclinesAi(sessions: map<Id, Session>, configs: map<Id, ChatbotConfig>, id: Id,
                               chatbotId: Id, adminId: Id, name: Option<string>, email: Option<string>,
                               now: Time, content: Option<string>)
    requires Present(content)
    ensures AiGate(sessions[id := NewSession(chatbotId, adminId, name, email, now)], configs, Some(id), content)
            == BotInactive
    ensures Body(GateReply(BotInactive)).botActive == Some(false)
  {
  }

  /** The store invariant over the table contents: every row id is below the next one handed out,
      message ids are distinct, every message belongs to a stored session, and a session waiting
      for a human has its bot switched off. */
  ghost predicate Consistent(sessions: map<Id, Session>, messages: seq<Message>, nextId: nat) {
    && (forall id :: id in sessions ==> id < nextId)
    && (forall i :: 0 <= i < |messages| ==> messages[i].id < nextId && messages[i].sessionId in sessions)
    && UniqueIds(messages)
    && (forall id :: id in sessions && sessions[id].status == WaitingForHuman ==> !sessions[id].isBotActive)
  }

  /** Appending a row with the next id to a stored session keeps the invariant. */
  lemma AppendConsistent(sessions: map<Id, Session>, messages: seq<Message>, nextId: nat, m: Message)
    requires Consistent(sessions, messages, nextId)
    requires m.id == nextId && m.sessionId in sessions
    ensures Consistent(sessions, messages + [m], nextId + 1)
  {
  }

  /** Rewriting a stored session keeps the invariant when the new record does not wait with the
      bot on. */
  lemma UpdateConsistent(sessions: map<Id, Session>, messages: seq<Message>, nextId: nat, sid: Id, s: Session)
    requires Consistent(sessions, messages, nextId)
    requires sid in sessions
    requires s.status == WaitingForHuman ==> !s.isBotActive
    ensures Consistent(sessions[sid := s], messages, nextId)
  {
  }

  class Store {
    var configs: map<Id, ChatbotConfig>
    var profiles: map<Id, Profile>
    var sessions: map<Id, Session>
    var messages: seq<Message>
    var nextId: nat

    ghost predicate Valid()
      reads this
    {
      Consistent(sessions, messages, nextId)
    }

    constructor(configs0: map<Id, ChatbotConfig>, profiles0: map<Id, Profile>)
      ensures Valid()
      ensures configs == configs0 && profiles == profiles0 && sessions == map[] && messages == []
    {
      configs := configs0;
      profiles := profiles0;
      sessions := map[];
      messages := [];
      nextId := 0;
    }

    /** POST /api/chat/session. */
    method CreateSession(chatbotId: Option<Id>, name: Option<string>, email: Option<string>, now: Time,
                         insertFails: bool) returns (r: SessionReply)
      requires Valid()
      modifies this
      ensures Valid()
      ensures configs == old(configs) && profiles == old(profiles) && messages == old(messages)
      ensures chatbotId.None? ==> r == MissingChatbotId
      ensures chatbotId.Some? && chatbotId.value !in configs ==> r == ChatbotNotFound
      ensures chatbotId.Some? && chatbotId.value in configs && insertFails ==> r == SessionInsertFailed
      ensures !r.SessionCreated? ==> sessions == old(sessions) && nextId == old(nextId)
      ensures chatbotId.Some? && chatbotId.value in configs && !insertFails ==>
        && r == SessionCreated(old(nextId))
        && old(nextId) !in old(sessions)
        && sessions == old(sessions)[old(nextId) := NewSession(chatbotId.value, configs[chatbotId.value].adminId,
                                                                name, email, now)]
        && nextId == old(nextId) + 1
    {
      if chatbotId.None? {
        return MissingChatbotId;
      }
      if chatbotId.value !in configs {
        return ChatbotNotFound;
      }
      if insertFails {
        return SessionInsertFailed;
      }
      var id := nextId;
      sessions := sessions[id := NewSession(chatbotId.value, configs[chatbotId.value].adminId, name, email, now)];
      nextId := nextId + 1;
      r := SessionCreated(id);
    }

    /** POST /api/chat/message. The sender defaults to "visitor"; any other string the schema's
        check constraint rejects makes the insert fail. The `updated_at` bump may fail unnoticed. */
    method PostMessage(sessionId: Option<Id>, content: Option<string>, senderType: Option<string>, now: Time,
                       insertFails: bool, bumpFails: bool) returns (r: PostReply)
      requires Valid()
      modifies this
      ensures Valid()
      ensures configs == old(configs) && profiles == old(profiles)
      ensures (sessionId.None? || !Present(content)) <==> r == PostMissingFields
      ensures sessionId.Some? && Present(content) && sessionId.value !in sessions ==> r == PostSessionNotFound
      ensures sessionId.Some? && Present(content) && sessionId.value in sessions
              && (insertFails || ParseSender(StrOr(senderType, "visitor")).None?)
              ==> r == PostInsertFailed
      ensures (&& sessionId.Some? && Present(content) && sessionId.value in old(sessions) && !insertFails
               && ParseSender(StrOr(senderType, "visitor")).Some?) ==> r.Posted?
      ensures !r.Posted? ==> sessions == old(sessions) && messages == old(messages) && nextId == old(nextId)
      ensures r.Posted? ==>
        var sid := sessionId.value;
        && sid in old(sessions) && !insertFails
        && ParseSender(StrOr(senderType, "visitor")).Some?
        && r == Posted(old(nextId), now)
        && messages == old(messages) + [PostedMessage(old(nextId), sid, old(sessions)[sid].adminId, content.value,
                                                      ParseSender(StrOr(senderType, "visitor")).value, now)]
        && nextId == old(nextId) + 1
        && sessions == if bumpFails then old(sessions) else old(sessions)[sid := old(sessions)[sid].(updatedAt := now)]
    {
      if sessionId.None? || !Present(content) {
        return PostMissingFields;
      }
      var sid := sessionId.value;
      if sid !in sessions {
        return PostSessionNotFound;
      }
      var sender := ParseSender(StrOr(senderType, "visitor"));
      if insertFails || sender.None? {
        return PostInsertFailed;
      }
      var id := nextId;
      messages := messages + [PostedMessage(id, sid, sessions[sid].adminId, content.value, sender.value, now)];
      nextId := nextId + 1;
      if !bumpFails {
        sessions := sessions[sid := sessions[sid].(updatedAt := now)];
      }
      r := Posted(id, now);
    }

    /** Appends a row for a stored session and rewrites that session. */
    method Record(sid: Id, m: Message, s: Session)
      requires Valid()
      requires sid in sessions && m.id == nextId && m.sessionId == sid
      requires s.status == WaitingForHuman ==> !s.isBotActive
      modifies this
      ensures Valid()
      ensures configs == old(configs) && profiles == old(profiles)
      ensures sessions == old(sessions)[sid := s] && messages == old(messages) + [m] && nextId == old(nextId) + 1
    {
      AppendConsistent(sessions, messages, nextId, m);
      UpdateConsistent(sessions, messages + [m], nextId + 1, sid, s);
      messages := messages + [m];
      nextId := nextId + 1;
      sessions := sessions[sid := s];
    }

    /** POST /api/chat/ai. `sent` is the request handed to the language model, if one was made.
        `historyFails` says whether the history read reports an error; the handler then goes on
        with an empty history. */
    method ReplyWithAi(sessionId: Option<Id>, content: Option<string>, now: Time, nowIso: string,
                       historyFails: bool, llm: GenRequest -> GenResult) returns (r: AiReply, sent: Option<GenRequest>)
      requires Valid()
      modifies this
      ensures Valid()
      ensures configs == old(configs) && profiles == old(profiles)
      ensures var g := AiGate(old(sessions), old(configs), sessionId, content);
        !g.Proceed? ==>
          r == GateReply(g) && sent.None?
          && sessions == old(sessions) && messages == old(messages) && nextId == old(nextId)
      ensures var g := AiGate(old(sessions), old(configs), sessionId, content);
        g.Proceed? && HandoffRequested(g.content, g.config.aiHandoffKeywords) ==>
          && r == HandedOff && sent.None?
          && sessions == old(sessions)[g.sid := HandoffSession(g.session, now)]
          && messages == old(messages) + [HandoffMessage(old(nextId), g.sid, g.session.adminId, now)]
          && nextId == old(nextId) + 1
      ensures var g := AiGate(old(sessions), old(configs), sessionId, content);
        g.Proceed? && !HandoffRequested(g.content, g.config.aiHandoffKeywords) ==>
          sent == Some(BuildRequest(g.config, g.session, HistoryRead(old(messages), g.sid, historyFails), g.content, nowIso))
      ensures sent.Some? && llm(sent.value).Failed? ==>
        && r == GenerationFailed(llm(sent.value).message)
        && sessions == old(sessions) && messages == old(messages) && nextId == old(nextId)
      ensures var g := AiGate(old(sessions), old(configs), sessionId, content);
        sent.Some? && llm(sent.value).Generated? ==>
          && g.Proceed?
          && r == Replied(llm(sent.value).text)
          && sessions == old(sessions)[g.sid := RepliedSession(g.session, now)]
          && messages == old(messages) + [ReplyMessage(old(nextId), g.sid, g.session.adminId, llm(sent.value).text,
                                                       ModelId(g.config), llm(sent.value).totalTokens, now)]
          && nextId == old(nextId) + 1
    {
      var g := AiGate(sessions, configs, sessionId, content);
      if !g.Proceed? {
        return GateReply(g), None;
      }
      if HandoffRequested(g.content, g.config.aiHandoffKeywords) {
        Record(g.sid, HandoffMessage(nextId, g.sid, g.session.adminId, now), HandoffSession(g.session, now));
        return HandedOff, None;
      }
      var request := BuildRequest(g.config, g.session, HistoryRead(messages, g.sid, historyFails), g.content, nowIso);
      sent := Some(request);
      var result := llm(request);
      if result.Failed? {
        r := GenerationFailed(result.message);
      } else {
        Record(g.sid, ReplyMessage(nextId, g.sid, g.session.adminId, result.text, ModelId(g.config),
                                   result.totalTokens, now), RepliedSession(g.session, now));
        r := Replied(result.text);
      }
    }
  }
}
