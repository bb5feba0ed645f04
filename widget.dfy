/** The embeddable chat widget's runtime (the script served by app/api/widget.js/route.ts): the
    business-hours test, and the state machine over the script's module-level variables. Each
    network reply the script awaits is an input of the step that consumes it; an exception thrown
    by `fetch` or `json()` is `None`. The page is reduced to the parts of the DOM the state
    machine writes. */
module WidgetRuntime {
  import opened Text
  import opened ChatData
  import opened MessageQuery
  import opened Assistant
  import opened WidgetConfig
  import opened ChatStore

  // ---------------------------------------------------------------- business hours

  /** The text before the first ':' (the whole string when there is none). */
  function BeforeColon(s: string): (r: string)
    ensures |r| <= |s| && r == s[..|r|]
    ensures forall i :: 0 <= i < |r| ==> r[i] != ':'
    ensures |r| < |s| ==> s[|r|] == ':'
  {
    if s == [] || s[0] == ':' then [] else [s[0]] + BeforeColon(s[1..])
  }

  /** The text after the first ':', if there is one. */
  function AfterColon(s: string): Option<string> {
    var h := BeforeColon(s);
    if |h| < |s| then Some(s[|h| + 1..]) else None
  }

  /** `const [h, m] = s.split(':').map(Number); h * 60 + m`. The first two pieces are read as
      numbers; an empty piece is 0, a missing minute piece or any other text is NaN (None). */
  function ParseClock(s: string): Option<int> {
    var h := ParseDigits(BeforeColon(s));
    match AfterColon(s)
    case None => None
    case Some(rest) =>
      var m := ParseDigits(BeforeColon(rest));
      if h.Some? && m.Some? then Some(h.value * 60 + m.value) else None
  }

  lemma {:induction false} BeforeColonAppend(d: string, rest: string)
    requires forall i :: 0 <= i < |d| ==> IsDigit(d[i])
    ensures BeforeColon(d + rest) == d + BeforeColon(rest)
  {
    if d != [] {
      assert (d + rest)[0] == d[0] && d[0] != ':';
      assert (d + rest)[1..] == d[1..] + rest;
      BeforeColonAppend(d[1..], rest);
      assert d == [d[0]] + d[1..];
    } else {
      assert d + rest == rest;
    }
  }

  /** Two digit runs around a colon read as hours and minutes. */
  lemma ParseClockDigits(dh: string, dm: string)
    requires ParseDigits(dh).Some? && ParseDigits(dm).Some?
    ensures ParseClock(dh + ":" + dm).Some?
    ensures ParseClock(dh + ":" + dm).value == ParseDigits(dh).value * 60 + ParseDigits(dm).value
  {
    var s := dh + ":" + dm;
    SplitAtColon(dh, dm);
    BeforeColonAppend(dm, "");
    assert dm + "" == dm;
    assert BeforeColon(dm) == dm;
    var h := ParseDigits(dh);
    var m := ParseDigits(dm);
    assert h.Some? && m.Some?;
  }

  lemma SplitAtColon(dh: string, dm: string)
    requires forall i :: 0 <= i < |dh| ==> IsDigit(dh[i])
    ensures BeforeColon(dh + ":" + dm) == dh
    ensures AfterColon(dh + ":" + dm) == Some(dm)
  {
    var tail := ":" + dm;
    var s := dh + tail;
    assert s == dh + ":" + dm;
    BeforeColonAppend(dh, tail);
    assert BeforeColon(tail) == [];
    assert s[|dh| + 1..] == dm;
  }

  /** A time written as the appearance editor writes it reads back as its minute of the day. */
  lemma ParseClockOf(h: nat, m: nat)
    ensures ParseClock(Decimal(h) + ":" + Decimal(m)) == Some(h * 60 + m)
  {
    ParseClockDigits(Decimal(h), Decimal(m));
    ParseDecimal(h);
    ParseDecimal(m);
  }

  /** `checkBusinessHours`, with the day of the week, the hour and the minute already taken in the
      configured timezone. Without hours or without a schedule the widget is always online; on a
      day with no enabled entry it is offline; otherwise it is online from the start minute up to,
      not including, the end minute, so an entry whose end is not after its start is never online. */
  function CheckBusinessHours(cfg: PublicConfig, day: Weekday, hour: int, minute: int): (r: bool)
    ensures !Truthy(cfg.businessHoursEnabled) || cfg.businessHours.None? ==> r
    ensures Truthy(cfg.businessHoursEnabled) && cfg.businessHours.Some?
            && (day !in cfg.businessHours.value || !cfg.businessHours.value[day].enabled)
            ==> !r
    ensures Truthy(cfg.businessHoursEnabled) && cfg.businessHours.Some? && day in cfg.businessHours.value ==>
      var e := cfg.businessHours.value[day];
      && (e.enabled && ParseClock(e.start).Some? && ParseClock(e.end).Some? ==>
            (r <==> ParseClock(e.start).value <= hour * 60 + minute < ParseClock(e.end).value))
      && (ParseClock(e.start).None? || ParseClock(e.end).None? ==> !r)
      && (ParseClock(e.start).Some? && ParseClock(e.end).Some? && ParseClock(e.end).value <= ParseClock(e.start).value ==> !r)
  {
    if !Truthy(cfg.businessHoursEnabled) || cfg.businessHours.None? then true
    else
      var schedule := cfg.businessHours.value;
      if day !in schedule || !schedule[day].enabled then false
      else
        var now := hour * 60 + minute;
        match (ParseClock(schedule[day].start), ParseClock(schedule[day].end))
        case (Some(start), Some(end)) => start <= now && now < end
        case _ => false
  }

  /** A weekday entry written from whole hours and minutes is online exactly inside its range. */
  lemma OnlineWithinRange(cfg: PublicConfig, day: Weekday, hour: int, minute: int,
                          sh: nat, sm: nat, eh: nat, em: nat)
    requires Truthy(cfg.businessHoursEnabled) && cfg.businessHours.Some?
    requires day in cfg.businessHours.value
    requires cfg.businessHours.value[day] == DaySchedule(true, Decimal(sh) + ":" + Decimal(sm), Decimal(eh) + ":" + Decimal(em))
    ensures CheckBusinessHours(cfg, day, hour, minute) <==> sh * 60 + sm <= hour * 60 + minute < eh * 60 + em
  {
    ParseClockOf(sh, sm);
    ParseClockOf(eh, em);
  }

  // ---------------------------------------------------------------- configuration

  /** The configuration `init` falls back to when the config endpoint answers with an error or
      cannot be reached. */
  const DefaultConfig: PublicConfig := PublicConfig(
    Some("Chat with us"), Some("Hi! How can we help you today?"), Some("#14b8a6"), Some("bottom-right"),
    None, Some(true), Some("Type your message..."), None, None, None, None, None, None, None, None)

  /** The configuration `init` applies: the endpoint's answer when it found the chatbot, the
      default otherwise. */
  function InitialConfig(reply: Option<ConfigReply>): (r: PublicConfig)
    ensures reply.Some? && reply.value.ConfigFound? ==> r == reply.value.config
    ensures !(reply.Some? && reply.value.ConfigFound?) ==> r == DefaultConfig
  {
    if reply.Some? && reply.value.ConfigFound? then reply.value.config else DefaultConfig
  }

  /** The default configuration has no business hours, so the widget starts online. */
  lemma DefaultConfigOnline(day: Weekday, hour: int, minute: int)
    ensures CheckBusinessHours(DefaultConfig, day, hour, minute)
    ensures Truthy(DefaultConfig.showBranding)
  {
  }

  // ---------------------------------------------------------------- the page

  /** A rendered entry of the message list: a bubble with its sender and the AI label, or a
      system note. */
  datatype Item = Bubble(content: string, sender: Sender, isAi: bool) | Note(content: string)

  /** The header status: dot class, text, and whether the handoff button and banner show. */
  datatype StatusBar = StatusBar(dot: string, text: string, handoffButton: bool, banner: bool)

  datatype BadgeView = BadgeView(shown: bool, text: string)

  /** Which panels show, the input box and the start button. */
  datatype Panels = Panels(
    launcherTextShown: bool, offlineOverlay: bool, preChatHidden: bool, messagesShown: bool,
    inputAreaShown: bool, brandingShown: bool, quickActions: bool, input: string, startBusy: bool)

  /** What `applyConfig` writes into the page. */
  datatype Look = Look(primaryColor: Option<string>, title: string, placeholder: string, positionLeft: bool,
                       launcherText: string, offlineMessage: string)

  datatype View = View(items: seq<Item>, status: StatusBar, badge: BadgeView, panels: Panels, look: Look)

  /** The page as `createWidget` builds it. */
  const InitialView: View := View(
    [], StatusBar("vintra-status-dot ai", "AI Assistant", false, false), BadgeView(false, "0"),
    Panels(false, false, false, false, false, false, false, "", false),
    Look(None, "Chat with us", "Type your message...", false, "Talk to us",
         "We're currently offline. Leave a message and we'll get back to you!"))

  /** `updateStatus(mode)`: the AI mode shows the handoff button, waiting shows the banner, and
      any unknown mode reads "Online". */
  function StatusFor(mode: string): (r: StatusBar)
    ensures r.handoffButton <==> mode == "ai"
    ensures r.banner <==> mode == "waiting"
    ensures mode !in {"ai", "waiting", "human"} ==> r.text == "Online"
  {
    if mode == "ai" then StatusBar("vintra-status-dot ai", "AI Assistant", true, false)
    else if mode == "waiting" then StatusBar("vintra-status-dot waiting", "Waiting for agent...", false, true)
    else if mode == "human" then StatusBar("vintra-status-dot", "Human Agent", false, false)
    else StatusBar("vintra-status-dot", "Online", false, false)
  }

  /** The unread badge text: the count up to nine, "9+" above. */
  function BadgeText(n: nat): string {
    if n > 9 then "9+" else Decimal(n)
  }

  /** The badge reads "9+" above nine, and otherwise a single digit that reads back as the count. */
  lemma BadgeTextReads(n: nat)
    ensures n > 9 ==> BadgeText(n) == "9+"
    ensures n <= 9 ==> |BadgeText(n)| == 1 && ParseDigits(BadgeText(n)) == Some(n)
  {
    if n <= 9 {
      ParseDecimal(n);
    }
  }

  /** `requestHandoff`'s text. The leading "I" is written apart so that the verifier sees the text
      does not start with whitespace. */
  const HandoffRequestText: string := "I" + " would like to speak with a human agent please"

  const TroubleText: string :=
    "Sorry, I'm having trouble responding right now. Please try again or ask to speak with a human agent."
  const TransferText: string := "You have been transferred to a human agent. Please wait..."
  const ConnectFailText: string := "Sorry, I could not connect to the AI service. Please try again later."
  const JoinedText: string := "A human agent has joined the conversation."

  function Count(items: seq<Item>, sender: Sender): (r: nat)
    ensures r <= |items|
  {
    if items == [] then 0
    else Count(items[..|items| - 1], sender) + (if items[|items| - 1].Bubble? && items[|items| - 1].sender == sender then 1 else 0)
  }

  // ---------------------------------------------------------------- the assistant's reply

  /** `response.ok`. */
  predicate Ok(b: AiBody) {
    200 <= b.status < 300
  }

  /** The bubble an assistant answer shows: its reply, or the trouble text when the answer has no
      reply and an error status, or nothing. */
  function AnswerItems(b: AiBody): (r: seq<Item>)
    ensures Present(b.reply) ==> r == [Bubble(b.reply.value, Bot, true)]
    ensures !Present(b.reply) && !Ok(b) ==> r == [Bubble(TroubleText, Bot, true)]
    ensures !Present(b.reply) && Ok(b) ==> r == []
  {
    if Present(b.reply) then [Bubble(b.reply.value, Bot, true)]
    else if !Ok(b) then [Bubble(TroubleText, Bot, true)] else []
  }

  /** The entries a finished assistant call adds: the answer's bubble, or a connection note when
      the call threw; then the transfer note on a handoff. */
  function ReplyItems(ai: Option<AiBody>): (r: seq<Item>)
    ensures ai.None? ==> r == [Bubble(ConnectFailText, Bot, true)]
    ensures ai.Some? && Truthy(ai.value.handoff) ==> r == AnswerItems(ai.value) + [Note(TransferText)]
    ensures ai.Some? && !Truthy(ai.value.handoff) ==> r == AnswerItems(ai.value)
    ensures Count(r, Bot) <= 1 && Count(r, Visitor) == 0 && Count(r, Admin) == 0
  {
    match ai
    case None => [Bubble(ConnectFailText, Bot, true)]
    case Some(b) =>
      var last := if Truthy(b.handoff) then [Note(TransferText)] else [];
      CountAppend(AnswerItems(b), last);
      AnswerItems(b) + last
  }

  /** Every answer of the reply handler renders as the widget promises: the generated text or the
      handoff text as an AI bubble, the fixed apology on a failure, nothing on a decline or an
      empty generation. */
  lemma ServerRepliesRender(r: AiReply)
    ensures r.Replied? && r.text != "" ==> ReplyItems(Some(Body(r))) == [Bubble(r.text, Bot, true)]
    ensures r.Replied? && r.text == "" ==> ReplyItems(Some(Body(r))) == []
    ensures r.HandedOff? ==> ReplyItems(Some(Body(r))) == [Bubble(HandoffText, Bot, true), Note(TransferText)]
    ensures r.GenerationFailed? ==> ReplyItems(Some(Body(r))) == [Bubble(ApologyText, Bot, true)]
    ensures r.DeclinedBotInactive? || r.DeclinedAiDisabled? ==> ReplyItems(Some(Body(r))) == []
  {
    assert |ApologyText| > 0;
    assert |HandoffText| > 0;
  }

  // ---------------------------------------------------------------- polling

  /** The number of admin rows in a polled batch. */
  function AdminCount(ms: seq<WireMessage>): (r: nat)
    ensures r <= |ms|
  {
    if ms == [] then 0
    else AdminCount(ms[..|ms| - 1]) + if ms[|ms| - 1].senderType == "admin" then 1 else 0
  }

  /** The entries one polled row adds: an admin row becomes an agent bubble, preceded by the
      "joined" note when the visitor was still waiting; other rows add nothing. */
  function RowItems(waiting: bool, m: WireMessage): seq<Item> {
    if m.senderType == "admin" then (if waiting then [Note(JoinedText)] else []) + [Bubble(m.content, Admin, false)]
    else []
  }

  /** The entries a polled batch adds, row by row. */
  function PollItems(waiting: bool, ms: seq<WireMessage>): seq<Item> {
    if ms == [] then []
    else
      var front := ms[..|ms| - 1];
      PollItems(waiting, front) + RowItems(waiting && AdminCount(front) == 0, ms[|ms| - 1])
  }

  lemma RowCounts(waiting: bool, m: WireMessage)
    ensures Count(RowItems(waiting, m), Admin) == (if m.senderType == "admin" then 1 else 0)
    ensures Count(RowItems(waiting, m), Bot) == 0 && Count(RowItems(waiting, m), Visitor) == 0
    ensures |RowItems(waiting, m)| == if m.senderType == "admin" then (if waiting then 2 else 1) else 0
  {
    var r := RowItems(waiting, m);
    if m.senderType == "admin" {
      if waiting {
        assert r[..1] == [Note(JoinedText)] && r[..1][..0] == [];
      } else {
        assert r[..0] == [];
      }
    }
  }

  /** Polling renders one agent bubble per admin row and no other bubble. */
  lemma {:induction false} PollCounts(waiting: bool, ms: seq<WireMessage>)
    ensures Count(PollItems(waiting, ms), Admin) == AdminCount(ms)
    ensures Count(PollItems(waiting, ms), Bot) == 0 && Count(PollItems(waiting, ms), Visitor) == 0
    ensures |PollItems(waiting, ms)| == AdminCount(ms) + (if waiting && AdminCount(ms) > 0 then 1 else 0)
  {
    if ms != [] {
      var front := ms[..|ms| - 1];
      PollCounts(waiting, front);
      RowCounts(waiting && AdminCount(front) == 0, ms[|ms| - 1]);
      CountAppend(PollItems(waiting, front), RowItems(waiting && AdminCount(front) == 0, ms[|ms| - 1]));
    }
  }

  /** Every bubble polling renders carries the content of an admin row of the batch, and the only
      note it adds is the "joined" one. */
  lemma {:induction false} PollShowsAdminRows(waiting: bool, ms: seq<WireMessage>)
    ensures forall k :: 0 <= k < |PollItems(waiting, ms)| && PollItems(waiting, ms)[k].Bubble? ==>
      exists j :: 0 <= j < |ms| && ms[j].senderType == "admin" && ms[j].content == PollItems(waiting, ms)[k].content
    ensures forall k :: 0 <= k < |PollItems(waiting, ms)| && PollItems(waiting, ms)[k].Note? ==>
      PollItems(waiting, ms)[k] == Note(JoinedText)
  {
    if ms != [] {
      var front := ms[..|ms| - 1];
      var m := ms[|ms| - 1];
      PollShowsAdminRows(waiting, front);
      var a: seq<Item> := PollItems(waiting, front);
      var b: seq<Item> := RowItems(waiting && AdminCount(front) == 0, m);
      assert PollItems(waiting, ms) == a + b;
      forall k | 0 <= k < |a + b| && (a + b)[k].Bubble?
        ensures exists j :: 0 <= j < |ms| && ms[j].senderType == "admin" && ms[j].content == (a + b)[k].content
      {
        if k < |a| {
          var j :| 0 <= j < |front| && front[j].senderType == "admin" && front[j].content == a[k].content;
          assert ms[j] == front[j];
        } else {
          assert (a + b)[k] == b[k - |a|];
          assert ms[|ms| - 1] == m;
        }
      }
    }
  }

  /** The "joined" note appears exactly when the visitor was waiting and an agent answered, and
      then exactly once. */
  lemma {:induction false} PollJoinedOnce(waiting: bool, ms: seq<WireMessage>)
    ensures |PollItems(waiting, ms)| - Count(PollItems(waiting, ms), Admin) == if waiting && AdminCount(ms) > 0 then 1 else 0
  {
    PollCounts(waiting, ms);
  }

  lemma {:induction false} CountAppend(a: seq<Item>, b: seq<Item>)
    ensures forall s :: Count(a + b, s) == Count(a, s) + Count(b, s)
  {
    if b != [] {
      assert (a + b)[..|a + b| - 1] == a + b[..|b| - 1];
      CountAppend(a, b[..|b| - 1]);
    } else {
      assert a + b == a;
    }
  }

  /** Every bot bubble of a finished assistant call is its answer's bubble. */
  lemma AnswerBotCount(b: AiBody)
    ensures Count(ReplyItems(Some(b)), Bot) == |AnswerItems(b)|
  {
    CountAppend(AnswerItems(b), if Truthy(b.handoff) then [Note(TransferText)] else []);
    assert Count([Note(TransferText)], Bot) == 0 by {
      assert [Note(TransferText)][..0] == [];
    }
    if Present(b.reply) || !Ok(b) {
      assert AnswerItems(b)[..0] == [];
    }
  }

  /** The part of the page and state a polled row can change: the entries, the wait for a human,
      the status bar, the unread count and badge, and the cursor. */
  datatype Inbox = Inbox(items: seq<Item>, waiting: bool, status: StatusBar, unread: nat, badge: BadgeView,
                         last: Option<Id>)

  /** One polled row, received while the window is `open` or not. */
  function Deliver(open: bool, s: Inbox, m: WireMessage): Inbox {
    var admin := m.senderType == "admin";
    var unread := if admin && !open then s.unread + 1 else s.unread;
    Inbox(s.items + RowItems(s.waiting, m),
          s.waiting && !admin,
          if s.waiting && admin then StatusFor("human") else s.status,
          unread,
          if admin && !open then BadgeView(true, BadgeText(unread)) else s.badge,
          Some(m.id))
  }

  /** A polled batch, row by row. */
  function DeliverAll(open: bool, s: Inbox, ms: seq<WireMessage>): Inbox {
    if ms == [] then s else Deliver(open, DeliverAll(open, s, ms[..|ms| - 1]), ms[|ms| - 1])
  }

  lemma DeliverStep(open: bool, s: Inbox, ms: seq<WireMessage>, i: nat)
    requires i < |ms|
    ensures DeliverAll(open, s, ms[..i + 1]) == Deliver(open, DeliverAll(open, s, ms[..i]), ms[i])
  {
    assert ms[..i + 1][..i] == ms[..i] && ms[..i + 1][i] == ms[i];
  }

  /** What a batch does: it adds the batch's entries, the first admin row ends the wait for a
      human and switches the status bar to the agent, each admin row counts as unread while the
      window is closed and refreshes the badge, and the cursor moves to the last row. */
  lemma {:induction false} DeliverAllEffect(open: bool, s: Inbox, ms: seq<WireMessage>)
    ensures var r := DeliverAll(open, s, ms);
      && r.items == s.items + PollItems(s.waiting, ms)
      && r.waiting == (s.waiting && AdminCount(ms) == 0)
      && r.status == (if s.waiting && AdminCount(ms) > 0 then StatusFor("human") else s.status)
      && r.unread == s.unread + (if open then 0 else AdminCount(ms))
      && r.badge == (if !open && AdminCount(ms) > 0 then BadgeView(true, BadgeText(r.unread)) else s.badge)
      && r.last == (if ms == [] then s.last else Some(ms[|ms| - 1].id))
  {
    if ms != [] {
      var front := ms[..|ms| - 1];
      DeliverAllEffect(open, s, front);
      var t := DeliverAll(open, s, front);
      assert t.items + RowItems(t.waiting, ms[|ms| - 1]) == s.items + PollItems(s.waiting, ms);
    }
  }

  // ---------------------------------------------------------------- the state machine

  /** The script's state: the `let` variables and the page they drive. `pollPending` says a poll
      is scheduled or under way. */
  class Widget {
    var config: Option<PublicConfig>
    var sessionId: Option<Id>
    var visitorName: string
    var visitorEmail: string
    var isOpen: bool
    var hasStartedChat: bool
    var isBotActive: bool
    var isWaitingForHuman: bool
    var isSending: bool
    var unreadCount: nat
    var isOffline: bool
    var lastMessageId: Option<Id>
    var pollPending: bool
    var view: View

    /** `init`: build the page and apply the configuration the endpoint returned, or the default. */
    constructor(reply: Option<ConfigReply>, day: Weekday, hour: int, minute: int)
      ensures config == Some(InitialConfig(reply))
      ensures isOffline == !CheckBusinessHours(InitialConfig(reply), day, hour, minute)
      ensures sessionId.None? && !isOpen && !hasStartedChat && !isBotActive && !isWaitingForHuman && !isSending
      ensures unreadCount == 0 && lastMessageId.None? && !pollPending && view.items == []
    {
      config := None;
      sessionId := None;
      visitorName := "";
      visitorEmail := "";
      isOpen := false;
      hasStartedChat := false;
      isBotActive := false;
      isWaitingForHuman := false;
      isSending := false;
      unreadCount := 0;
      isOffline := false;
      lastMessageId := None;
      pollPending := false;
      view := InitialView;
      new;
      ApplyConfig(InitialConfig(reply), day, hour, minute);
    }

    /** `applyConfig`: keep the configuration, restyle the page, and go offline outside business
        hours. */
    method ApplyConfig(cfg: PublicConfig, day: Weekday, hour: int, minute: int)
      modifies this
      ensures config == Some(cfg)
      ensures isOffline == !CheckBusinessHours(cfg, day, hour, minute)
      ensures view.items == old(view.items) && view.badge == old(view.badge)
      ensures view.look == old(view.look).(
        primaryColor := if Present(cfg.primaryColor) then cfg.primaryColor else old(view.look.primaryColor),
        title := StrOr(cfg.widgetTitle, old(view.look.title)),
        placeholder := StrOr(cfg.placeholderText, old(view.look.placeholder)),
        positionLeft := old(view.look.positionLeft) || cfg.position == Some("bottom-left"),
        launcherText := if Truthy(cfg.launcherTextEnabled) && Present(cfg.launcherText) then cfg.launcherText.value
                        else old(view.look.launcherText),
        offlineMessage := if isOffline && Present(cfg.outsideHoursMessage) then cfg.outsideHoursMessage.value
                          else old(view.look.offlineMessage))
      ensures view.panels == old(view.panels).(launcherTextShown := old(view.panels.launcherTextShown)
                                                || (Truthy(cfg.launcherTextEnabled) && Present(cfg.launcherText)))
      ensures view.status == if isOffline then old(view.status).(dot := "vintra-status-dot waiting", text := "Offline")
                             else old(view.status)
      ensures sessionId == old(sessionId) && visitorName == old(visitorName) && visitorEmail == old(visitorEmail)
      ensures isOpen == old(isOpen) && hasStartedChat == old(hasStartedChat) && isBotActive == old(isBotActive)
      ensures isWaitingForHuman == old(isWaitingForHuman) && isSending == old(isSending)
      ensures unreadCount == old(unreadCount) && lastMessageId == old(lastMessageId) && pollPending == old(pollPending)
    {
      config := Some(cfg);
      var showLauncher := Truthy(cfg.launcherTextEnabled) && Present(cfg.launcherText);
      isOffline := !CheckBusinessHours(cfg, day, hour, minute);
      var look := view.look.(
        primaryColor := if Present(cfg.primaryColor) then cfg.primaryColor else view.look.primaryColor,
        title := StrOr(cfg.widgetTitle, view.look.title),
        placeholder := StrOr(cfg.placeholderText, view.look.placeholder),
        positionLeft := view.look.positionLeft || cfg.position == Some("bottom-left"),
        launcherText := if showLauncher then cfg.launcherText.value else view.look.launcherText,
        offlineMessage := if isOffline && Present(cfg.outsideHoursMessage) then cfg.outsideHoursMessage.value
                          else view.look.offlineMessage);
      var status := if isOffline then view.status.(dot := "vintra-status-dot waiting", text := "Offline") else view.status;
      view := view.(look := look, panels := view.panels.(launcherTextShown := view.panels.launcherTextShown || showLauncher),
                    status := status);
    }

    /** `toggleChat(open)`: opening clears the unread count and badge, hides the launcher text, and
        before a chat has started while offline shows only the offline overlay; closing shows the
        launcher text again when the configuration enables it. */
    method ToggleChat(open: bool)
      modifies this
      ensures isOpen == open
      ensures open ==> unreadCount == 0 && view.badge == BadgeView(false, "0") && !view.panels.launcherTextShown
      ensures open && isOffline && !hasStartedChat ==>
        view.panels == old(view.panels).(launcherTextShown := false, offlineOverlay := true, preChatHidden := true,
                                         messagesShown := false, inputAreaShown := false)
      ensures open && !(isOffline && !hasStartedChat) ==> view.panels == old(view.panels).(launcherTextShown := false)
      ensures !open ==> unreadCount == old(unreadCount) && view.badge == old(view.badge)
      ensures !open ==> view.panels == old(view.panels).(launcherTextShown := old(view.panels.launcherTextShown) ||
          (config.Some? && Truthy(config.value.launcherTextEnabled) && Present(config.value.launcherText)))
      ensures view.items == old(view.items) && view.status == old(view.status) && view.look == old(view.look)
      ensures config == old(config) && sessionId == old(sessionId) && visitorName == old(visitorName)
      ensures visitorEmail == old(visitorEmail) && hasStartedChat == old(hasStartedChat)
      ensures isBotActive == old(isBotActive) && isWaitingForHuman == old(isWaitingForHuman)
      ensures isSending == old(isSending) && isOffline == old(isOffline)
      ensures lastMessageId == old(lastMessageId) && pollPending == old(pollPending)
    {
      isOpen := open;
      if open {
        unreadCount := 0;
        var panels := view.panels.(launcherTextShown := false);
        if isOffline && !hasStartedChat {
          panels := panels.(offlineOverlay := true, preChatHidden := true, messagesShown := false, inputAreaShown := false);
        }
        view := view.(badge := BadgeView(false, "0"), panels := panels);
      } else {
        if config.Some? && Truthy(config.value.launcherTextEnabled) && Present(config.value.launcherText) {
          view := view.(panels := view.panels.(launcherTextShown := true));
        }
      }
    }

    /** `updateStatus(mode)`. */
    method UpdateStatus(mode: string)
      modifies this
      ensures view == old(view).(status := StatusFor(mode))
      ensures config == old(config) && sessionId == old(sessionId) && visitorName == old(visitorName)
      ensures visitorEmail == old(visitorEmail) && isOpen == old(isOpen) && hasStartedChat == old(hasStartedChat)
      ensures isBotActive == old(isBotActive) && isWaitingForHuman == old(isWaitingForHuman)
      ensures isSending == old(isSending) && unreadCount == old(unreadCount) && isOffline == old(isOffline)
      ensures lastMessageId == old(lastMessageId) && pollPending == old(pollPending)
    {
      view := view.(status := StatusFor(mode));
    }

    /** `addMessage`: append a bubble; a message from anyone but the visitor that arrives while
        the window is closed counts as unread and shows the badge. */
    method AddMessage(content: string, sender: Sender, isAi: bool)
      modifies this
      ensures view.items == old(view.items) + [Bubble(content, sender, isAi)]
      ensures !isOpen && sender != Visitor ==>
        unreadCount == old(unreadCount) + 1 && view.badge == BadgeView(true, BadgeText(unreadCount))
      ensures isOpen || sender == Visitor ==> unreadCount == old(unreadCount) && view.badge == old(view.badge)
      ensures view.status == old(view.status) && view.panels == old(view.panels) && view.look == old(view.look)
      ensures config == old(config) && sessionId == old(sessionId) && visitorName == old(visitorName)
      ensures visitorEmail == old(visitorEmail) && isOpen == old(isOpen) && hasStartedChat == old(hasStartedChat)
      ensures isBotActive == old(isBotActive) && isWaitingForHuman == old(isWaitingForHuman)
      ensures isSending == old(isSending) && isOffline == old(isOffline)
      ensures lastMessageId == old(lastMessageId) && pollPending == old(pollPending)
    {
      view := view.(items := view.items + [Bubble(content, sender, isAi)]);
      if !isOpen && sender != Visitor {
        unreadCount := unreadCount + 1;
        view := view.(badge := BadgeView(true, BadgeText(unreadCount)));
      }
    }

    /** `addSystemMessage`: append a note; notes never count as unread. */
    method AddSystemMessage(content: string)
      modifies this
      ensures view == old(view).(items := old(view.items) + [Note(content)])
      ensures config == old(config) && sessionId == old(sessionId) && visitorName == old(visitorName)
      ensures visitorEmail == old(visitorEmail) && isOpen == old(isOpen) && hasStartedChat == old(hasStartedChat)
      ensures isBotActive == old(isBotActive) && isWaitingForHuman == old(isWaitingForHuman)
      ensures isSending == old(isSending) && unreadCount == old(unreadCount) && isOffline == old(isOffline)
      ensures lastMessageId == old(lastMessageId) && pollPending == old(pollPending)
    {
      view := view.(items := view.items + [Note(content)]);
    }

    /** `startChat`, given the form inputs and the session endpoint's answer (`None` when the
        request threw). Any answer that does not throw starts the chat, even an error answer, which
        leaves no session id. The answer never carries `ai_enabled` or `ai_greeting`, so the bot
        flag ends up off, the status reads "Online", no quick actions and no greeting are shown.
        Polling starts only with a session id. */
    method StartChat(name: string, email: string, reply: Option<SessionReply>)
      modifies this
      ensures visitorName == (if Trim(name) != "" then Trim(name) else "Visitor") && visitorEmail == Trim(email)
      ensures reply.None? ==>
        && view == old(view).(panels := old(view.panels).(startBusy := false))
        && sessionId == old(sessionId) && hasStartedChat == old(hasStartedChat)
        && isBotActive == old(isBotActive) && pollPending == old(pollPending) && unreadCount == old(unreadCount)
      ensures reply.Some? ==>
        && sessionId == (if reply.value.SessionCreated? then Some(reply.value.sessionId) else None)
        && hasStartedChat && !isBotActive
        && pollPending == sessionId.Some?
        && view.status == StatusFor("online")
        && view.panels == old(view.panels).(preChatHidden := true, messagesShown := true, inputAreaShown := true,
             startBusy := true,
             brandingShown := old(view.panels.brandingShown) || (config.Some? && Truthy(config.value.showBranding)))
        && view.items == old(view.items) + (if config.Some? && Present(config.value.welcomeMessage)
                                            then [Bubble(config.value.welcomeMessage.value, Bot, false)] else [])
        && unreadCount == old(unreadCount) + (if !isOpen && config.Some? && Present(config.value.welcomeMessage) then 1 else 0)
      ensures isBotActive ==> old(isBotActive)
      ensures view.look == old(view.look)
      ensures config == old(config) && isOpen == old(isOpen) && isWaitingForHuman == old(isWaitingForHuman)
      ensures isSending == old(isSending) && isOffline == old(isOffline) && lastMessageId == old(lastMessageId)
    {
      Identify(name, email);
      if reply.None? {
        view := view.(panels := view.panels.(startBusy := false));
      } else {
        Open(if reply.value.SessionCreated? then Some(reply.value.sessionId) else None);
      }
    }

    /** The visitor's name, "Visitor" when blank, and email, both trimmed. */
    method Identify(name: string, email: string)
      modifies this
      ensures visitorName == (if Trim(name) != "" then Trim(name) else "Visitor") && visitorEmail == Trim(email)
      ensures view == old(view) && unreadCount == old(unreadCount)
      ensures config == old(config) && sessionId == old(sessionId) && isOpen == old(isOpen)
      ensures hasStartedChat == old(hasStartedChat) && isBotActive == old(isBotActive)
      ensures isWaitingForHuman == old(isWaitingForHuman) && isSending == old(isSending) && isOffline == old(isOffline)
      ensures lastMessageId == old(lastMessageId) && pollPending == old(pollPending)
    {
      var trimmed := Trim(name);
      visitorName := if trimmed != "" then trimmed else "Visitor";
      visitorEmail := Trim(email);
    }

    /** The part of `startChat` after the session endpoint answered, with the id it gave. */
    method Open(sid: Option<Id>)
      modifies this
      ensures sessionId == sid && hasStartedChat && !isBotActive && pollPending == sid.Some?
      ensures view.status == StatusFor("online")
      ensures view.panels == old(view.panels).(preChatHidden := true, messagesShown := true, inputAreaShown := true,
        startBusy := true,
        brandingShown := old(view.panels.brandingShown) || (config.Some? && Truthy(config.value.showBranding)))
      ensures view.items == old(view.items) + (if config.Some? && Present(config.value.welcomeMessage)
                                               then [Bubble(config.value.welcomeMessage.value, Bot, false)] else [])
      ensures unreadCount == old(unreadCount) + (if !isOpen && config.Some? && Present(config.value.welcomeMessage) then 1 else 0)
      ensures view.look == old(view.look)
      ensures config == old(config) && visitorName == old(visitorName) && visitorEmail == old(visitorEmail)
      ensures isOpen == old(isOpen) && isWaitingForHuman == old(isWaitingForHuman)
      ensures isSending == old(isSending) && isOffline == old(isOffline) && lastMessageId == old(lastMessageId)
    {
      sessionId := sid;
      isBotActive := false;
      hasStartedChat := true;
      ShowConversation();
      UpdateStatus("online");
      Greet();
      pollPending := sid.Some?;
    }

    /** Hide the pre-chat form and show the conversation, the input area and, when configured,
        the branding. */
    method ShowConversation()
      modifies this
      ensures view == old(view).(panels := old(view.panels).(preChatHidden := true, messagesShown := true,
        inputAreaShown := true, startBusy := true,
        brandingShown := old(view.panels.brandingShown) || (config.Some? && Truthy(config.value.showBranding))))
      ensures config == old(config) && sessionId == old(sessionId) && visitorName == old(visitorName)
      ensures visitorEmail == old(visitorEmail) && isOpen == old(isOpen) && hasStartedChat == old(hasStartedChat)
      ensures isBotActive == old(isBotActive) && isWaitingForHuman == old(isWaitingForHuman)
      ensures isSending == old(isSending) && unreadCount == old(unreadCount) && isOffline == old(isOffline)
      ensures lastMessageId == old(lastMessageId) && pollPending == old(pollPending)
    {
      var branding := config.Some? && Truthy(config.value.showBranding);
      view := view.(panels := view.panels.(preChatHidden := true, messagesShown := true, inputAreaShown := true,
                                           startBusy := true, brandingShown := view.panels.brandingShown || branding));
    }

    /** The configured welcome message, if any, as a bot bubble. */
    method Greet()
      modifies this
      ensures view.items == old(view.items) + (if config.Some? && Present(config.value.welcomeMessage)
                                               then [Bubble(config.value.welcomeMessage.value, Bot, false)] else [])
      ensures unreadCount == old(unreadCount) + (if !isOpen && config.Some? && Present(config.value.welcomeMessage) then 1 else 0)
      ensures view.status == old(view.status) && view.panels == old(view.panels) && view.look == old(view.look)
      ensures config == old(config) && sessionId == old(sessionId) && visitorName == old(visitorName)
      ensures visitorEmail == old(visitorEmail) && isOpen == old(isOpen) && hasStartedChat == old(hasStartedChat)
      ensures isBotActive == old(isBotActive) && isWaitingForHuman == old(isWaitingForHuman)
      ensures isSending == old(isSending) && isOffline == old(isOffline)
      ensures lastMessageId == old(lastMessageId) && pollPending == old(pollPending)
    {
      if config.Some? && Present(config.value.welcomeMessage) {
        AddMessage(config.value.welcomeMessage.value, Bot, false);
      }
    }

    /** The synchronous part of `sendMessage`: with text to send, a session and no send in flight,
        show the visitor's bubble, clear the input and mark a send in flight. `sent` is the text
        posted. */
    method BeginSend() returns (sent: Option<string>)
      modifies this
      ensures Trim(old(view.panels.input)) == "" || old(sessionId).None? || old(isSending) ==>
        sent.None? && view == old(view) && isSending == old(isSending)
      ensures !(Trim(old(view.panels.input)) == "" || old(sessionId).None? || old(isSending)) ==>
        && sent == Some(Trim(old(view.panels.input)))
        && isSending
        && view.items == old(view.items) + [Bubble(sent.value, Visitor, false)]
        && view.panels == old(view.panels).(input := "", quickActions := false)
        && view.status == old(view.status) && view.badge == old(view.badge) && view.look == old(view.look)
      ensures config == old(config) && sessionId == old(sessionId) && visitorName == old(visitorName)
      ensures visitorEmail == old(visitorEmail) && isOpen == old(isOpen) && hasStartedChat == old(hasStartedChat)
      ensures isBotActive == old(isBotActive) && isWaitingForHuman == old(isWaitingForHuman)
      ensures unreadCount == old(unreadCount) && isOffline == old(isOffline)
      ensures lastMessageId == old(lastMessageId) && pollPending == old(pollPending)
    {
      var content := Trim(view.panels.input);
      if content == "" || sessionId.None? || isSending {
        return None;
      }
      isSending := true;
      view := view.(panels := view.panels.(input := ""));
      AddMessage(content, Visitor, false);
      view := view.(panels := view.panels.(quickActions := false));
      sent := Some(content);
    }

    /** The bubble for an assistant answer. */
    method ShowAnswer(b: AiBody)
      modifies this
      ensures view.items == old(view.items) + AnswerItems(b)
      ensures unreadCount == old(unreadCount) + (if isOpen then 0 else |AnswerItems(b)|)
      ensures view.badge == if !isOpen && AnswerItems(b) != [] then BadgeView(true, BadgeText(unreadCount)) else old(view.badge)
      ensures view.status == old(view.status) && view.panels == old(view.panels) && view.look == old(view.look)
      ensures config == old(config) && sessionId == old(sessionId) && visitorName == old(visitorName)
      ensures visitorEmail == old(visitorEmail) && isOpen == old(isOpen) && hasStartedChat == old(hasStartedChat)
      ensures isBotActive == old(isBotActive) && isWaitingForHuman == old(isWaitingForHuman)
      ensures isSending == old(isSending) && isOffline == old(isOffline)
      ensures lastMessageId == old(lastMessageId) && pollPending == old(pollPending)
    {
      if Present(b.reply) {
        AddMessage(b.reply.value, Bot, true);
      } else if !Ok(b) {
        AddMessage(TroubleText, Bot, true);
      }
    }

    /** The flags an assistant answer sets: a handoff turns the bot off, waits for a human and
        says so; `bot_active: false` without a handoff only turns the bot off. */
    method FollowAnswer(b: AiBody)
      modifies this
      ensures Truthy(b.handoff) ==> !isBotActive && isWaitingForHuman && view == old(view).(
        status := StatusFor("waiting"), items := old(view.items) + [Note(TransferText)])
      ensures !Truthy(b.handoff) ==>
        && isBotActive == (old(isBotActive) && b.botActive != Some(false))
        && isWaitingForHuman == old(isWaitingForHuman) && view == old(view)
      ensures config == old(config) && sessionId == old(sessionId) && visitorName == old(visitorName)
      ensures visitorEmail == old(visitorEmail) && isOpen == old(isOpen) && hasStartedChat == old(hasStartedChat)
      ensures isSending == old(isSending) && unreadCount == old(unreadCount) && isOffline == old(isOffline)
      ensures lastMessageId == old(lastMessageId) && pollPending == old(pollPending)
    {
      if Truthy(b.handoff) {
        isBotActive := false;
        isWaitingForHuman := true;
        UpdateStatus("waiting");
        AddSystemMessage(TransferText);
      }
      if b.botActive == Some(false) && !Truthy(b.handoff) {
        isBotActive := false;
      }
    }

    /** The rest of `sendMessage`, once the message post has finished (`postThrew` when it threw)
        and, if the assistant was asked, with its answer (`None` when that request threw). The
        assistant is asked only when the bot is on and no human is awaited. */
    method CompleteSend(postThrew: bool, ai: Option<AiBody>) returns (askedAi: bool)
      modifies this
      ensures askedAi <==> !postThrew && old(isBotActive) && !old(isWaitingForHuman)
      ensures !isSending
      ensures !askedAi ==>
        && view == old(view) && unreadCount == old(unreadCount)
        && isBotActive == old(isBotActive) && isWaitingForHuman == old(isWaitingForHuman)
      ensures askedAi ==> view.items == old(view.items) + ReplyItems(ai)
      ensures askedAi ==> unreadCount == old(unreadCount) + (if isOpen then 0 else Count(ReplyItems(ai), Bot))
      ensures askedAi && ai.Some? && Truthy(ai.value.handoff) ==>
        !isBotActive && isWaitingForHuman && view.status == StatusFor("waiting")
      ensures askedAi && ai.Some? && !Truthy(ai.value.handoff) ==>
        isBotActive == (ai.value.botActive != Some(false)) && !isWaitingForHuman && view.status == old(view.status)
      ensures askedAi && ai.None? ==> isBotActive && !isWaitingForHuman && view.status == old(view.status)
      ensures isBotActive ==> old(isBotActive)
      ensures view.panels == old(view.panels) && view.look == old(view.look)
      ensures config == old(config) && sessionId == old(sessionId) && visitorName == old(visitorName)
      ensures visitorEmail == old(visitorEmail) && isOpen == old(isOpen) && hasStartedChat == old(hasStartedChat)
      ensures isOffline == old(isOffline) && lastMessageId == old(lastMessageId) && pollPending == old(pollPending)
    {
      askedAi := !postThrew && isBotActive && !isWaitingForHuman;
      if askedAi {
        match ai {
          case None =>
            AddMessage(ConnectFailText, Bot, true);
          case Some(b) =>
            Answer(b);
        }
      }
      isSending := false;
    }

    /** An assistant answer that arrived: its bubble, then the flags it sets. */
    method Answer(b: AiBody)
      modifies this
      ensures view.items == old(view.items) + ReplyItems(Some(b))
      ensures unreadCount == old(unreadCount) + (if isOpen then 0 else Count(ReplyItems(Some(b)), Bot))
      ensures Truthy(b.handoff) ==> !isBotActive && isWaitingForHuman && view.status == StatusFor("waiting")
      ensures !Truthy(b.handoff) ==>
        && isBotActive == (old(isBotActive) && b.botActive != Some(false))
        && isWaitingForHuman == old(isWaitingForHuman) && view.status == old(view.status)
      ensures view.panels == old(view.panels) && view.look == old(view.look)
      ensures config == old(config) && sessionId == old(sessionId) && visitorName == old(visitorName)
      ensures visitorEmail == old(visitorEmail) && isOpen == old(isOpen) && hasStartedChat == old(hasStartedChat)
      ensures isSending == old(isSending) && isOffline == old(isOffline)
      ensures lastMessageId == old(lastMessageId) && pollPending == old(pollPending)
    {
      AnswerBotCount(b);
      ShowAnswer(b);
      FollowAnswer(b);
    }

    /** `requestHandoff`: without a session or while a human is awaited nothing happens; otherwise
        the fixed request text is put in the input and sent as a visitor message. */
    method RequestHandoff() returns (sent: Option<string>)
      modifies this
      ensures old(sessionId).None? || old(isWaitingForHuman) ==> sent.None? && view == old(view) && isSending == old(isSending)
      ensures old(sessionId).Some? && !old(isWaitingForHuman) && !old(isSending) ==>
        && sent == Some(HandoffRequestText) && isSending
        && view.items == old(view.items) + [Bubble(HandoffRequestText, Visitor, false)]
      ensures old(sessionId).Some? && !old(isWaitingForHuman) && old(isSending) ==>
        && sent.None? && view.items == old(view.items) && view.panels.input == HandoffRequestText
      ensures config == old(config) && sessionId == old(sessionId) && isOpen == old(isOpen)
      ensures hasStartedChat == old(hasStartedChat) && isBotActive == old(isBotActive)
      ensures isWaitingForHuman == old(isWaitingForHuman) && unreadCount == old(unreadCount)
      ensures lastMessageId == old(lastMessageId) && pollPending == old(pollPending)
    {
      if sessionId.None? || isWaitingForHuman {
        return None;
      }
      view := view.(panels := view.panels.(input := HandoffRequestText));
      sent := BeginSend();
    }

    /** The state a poll changes. */
    function InboxView(): Inbox
      reads this
    {
      Inbox(view.items, isWaitingForHuman, view.status, unreadCount, view.badge, lastMessageId)
    }

    /** One row of a poll: an admin row ends the wait for a human (once) and shows an agent
        bubble; every row advances the cursor. */
    method Receive(m: WireMessage)
      modifies this
      ensures InboxView() == Deliver(isOpen, old(InboxView()), m)
      ensures view.panels == old(view.panels) && view.look == old(view.look)
      ensures config == old(config) && sessionId == old(sessionId) && visitorName == old(visitorName)
      ensures visitorEmail == old(visitorEmail) && isOpen == old(isOpen) && hasStartedChat == old(hasStartedChat)
      ensures isBotActive == old(isBotActive) && isSending == old(isSending) && isOffline == old(isOffline)
      ensures pollPending == old(pollPending)
    {
      if m.senderType == "admin" {
        if isWaitingForHuman {
          isWaitingForHuman := false;
          UpdateStatus("human");
          AddSystemMessage(JoinedText);
        }
        AddMessage(m.content, Admin, false);
      }
      lastMessageId := Some(m.id);
    }

    /** The rows of one poll, in order. */
    method ReceiveAll(ms: seq<WireMessage>)
      modifies this
      ensures InboxView() == DeliverAll(isOpen, old(InboxView()), ms)
      ensures view.panels == old(view.panels) && view.look == old(view.look)
      ensures config == old(config) && sessionId == old(sessionId) && visitorName == old(visitorName)
      ensures visitorEmail == old(visitorEmail) && isOpen == old(isOpen) && hasStartedChat == old(hasStartedChat)
      ensures isBotActive == old(isBotActive) && isSending == old(isSending) && isOffline == old(isOffline)
      ensures pollPending == old(pollPending)
    {
      var i := 0;
      while i < |ms|
        invariant 0 <= i <= |ms|
        invariant InboxView() == DeliverAll(isOpen, old(InboxView()), ms[..i])
        invariant view.panels == old(view.panels) && view.look == old(view.look)
        invariant config == old(config) && sessionId == old(sessionId) && visitorName == old(visitorName)
        invariant visitorEmail == old(visitorEmail) && isOpen == old(isOpen) && hasStartedChat == old(hasStartedChat)
        invariant isBotActive == old(isBotActive) && isSending == old(isSending) && isOffline == old(isOffline)
        invariant pollPending == old(pollPending)
      {
        DeliverStep(isOpen, old(InboxView()), ms, i);
        Receive(ms[i]);
        i := i + 1;
      }
      assert ms[..|ms|] == ms;
    }

    /** `pollMessages`, given the listing endpoint's rows (`None` when the request threw or the
        answer was not a list). Without a session or before the chat started it stops polling.
        Otherwise it asks for the rows after the last one received, renders the admin rows, lets
        the first of them end the wait for a human, advances the cursor to the last row received,
        and always schedules the next poll. `after` is the cursor it asked with. */
    method Poll(response: Option<seq<WireMessage>>) returns (after: Option<Option<Id>>)
      modifies this
      ensures old(sessionId).None? || !old(hasStartedChat) ==>
        after.None? && !pollPending && view == old(view) && unreadCount == old(unreadCount)
        && isWaitingForHuman == old(isWaitingForHuman) && lastMessageId == old(lastMessageId)
      ensures old(sessionId).Some? && old(hasStartedChat) ==> after == Some(old(lastMessageId)) && pollPending
      ensures old(sessionId).Some? && old(hasStartedChat) ==>
        var ms := if response.Some? then response.value else [];
        && view.items == old(view.items) + PollItems(old(isWaitingForHuman), ms)
        && isWaitingForHuman == (old(isWaitingForHuman) && AdminCount(ms) == 0)
        && view.status == (if old(isWaitingForHuman) && AdminCount(ms) > 0 then StatusFor("human") else old(view.status))
        && unreadCount == old(unreadCount) + (if isOpen then 0 else AdminCount(ms))
        && view.badge == (if !isOpen && AdminCount(ms) > 0 then BadgeView(true, BadgeText(unreadCount)) else old(view.badge))
        && lastMessageId == (if ms == [] then old(lastMessageId) else Some(ms[|ms| - 1].id))
      ensures view.panels == old(view.panels) && view.look == old(view.look)
      ensures config == old(config) && sessionId == old(sessionId) && visitorName == old(visitorName)
      ensures visitorEmail == old(visitorEmail) && isOpen == old(isOpen) && hasStartedChat == old(hasStartedChat)
      ensures isBotActive == old(isBotActive) && isSending == old(isSending) && isOffline == old(isOffline)
    {
      if sessionId.None? || !hasStartedChat {
        pollPending := false;
        return None;
      }
      after := Some(lastMessageId);
      var ms := if response.Some? then response.value else [];
      DeliverAllEffect(isOpen, InboxView(), ms);
      ReceiveAll(ms);
      pollPending := true;
    }
  }
}
