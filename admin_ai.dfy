/** The assistant settings page (app/admin/ai/page.tsx): the form loaded from the chatbot
    configuration with its defaults, the handoff keyword list editor, the two sliders, the plan gate
    and the save that writes the form back. The store read, the plan read and the rendering are
    inputs or left out. */
module AdminAi {
  import opened Text
  import opened ChatData
  import opened Plans
  import opened Assistant

  /** The form state: the configuration's assistant fields as the page holds them. */
  datatype AiForm = AiForm(
    enabled: Option<bool>, systemPrompt: Option<string>, knowledgeBase: Option<string>,
    model: Option<string>, temperature: Option<real>, maxTokens: Option<int>, autoGreet: Option<bool>,
    greeting: Option<string>, handoffKeywords: Option<seq<string>>)

  const EditorModel: string := "grok-3-mini"

  /** The keyword list the page starts from when none is stored. */
  const EditorKeywords: seq<string> := [
    "human", "agent", "person", "real person", "speak to someone", "menneske", "snakke med noen"]

  const EditorGreeting: string :=
    "Hi! I'm an AI assistant. How can I help you today? If you'd like to speak with a human, just let me know!"

  const EditorPrompt: string :=
    "You are a helpful customer support assistant. Be friendly, professional, and concise. Help visitors with their questions and guide them to the right resources."

  /** The `??` defaults applied when the row is loaded: only a null value is replaced. */
  function WithDefaults(f: AiForm): AiForm {
    f.(temperature := Some(if f.temperature.Some? then f.temperature.value else 0.7),
       maxTokens := Some(if f.maxTokens.Some? then f.maxTokens.value else 500),
       model := Some(if f.model.Some? then f.model.value else EditorModel),
       handoffKeywords := Some(if f.handoffKeywords.Some? then f.handoffKeywords.value else EditorKeywords),
       greeting := Some(if f.greeting.Some? then f.greeting.value else EditorGreeting),
       systemPrompt := Some(if f.systemPrompt.Some? then f.systemPrompt.value else EditorPrompt))
  }

  /** The selected columns of the configuration row. */
  function Columns(c: ChatbotConfig): AiForm {
    AiForm(c.aiEnabled, c.aiSystemPrompt, c.aiKnowledgeBase, c.aiModel, c.aiTemperature, c.aiMaxTokens,
           c.aiAutoGreet, c.aiGreetingMessage, c.aiHandoffKeywords)
  }

  /** `loadConfig`: the form for a stored row, or none when the owner has no configuration. */
  function Load(row: Option<ChatbotConfig>): (r: Option<AiForm>)
    ensures r.Some? <==> row.Some?
  {
    if row.Some? then Some(WithDefaults(Columns(row.value))) else None
  }

  /** Loading keeps every stored value, zero and the empty list included, fills every null one with
      its default, and copies the three fields that have no default. */
  lemma LoadFills(c: ChatbotConfig)
    ensures var f := Load(Some(c)).value;
      && (c.aiTemperature.Some? ==> f.temperature == c.aiTemperature)
      && (c.aiTemperature.None? ==> f.temperature == Some(0.7))
      && (c.aiMaxTokens.Some? ==> f.maxTokens == c.aiMaxTokens)
      && (c.aiMaxTokens.None? ==> f.maxTokens == Some(500))
      && (c.aiModel.Some? ==> f.model == c.aiModel)
      && (c.aiModel.None? ==> f.model == Some(EditorModel))
      && (c.aiHandoffKeywords.Some? ==> f.handoffKeywords == c.aiHandoffKeywords)
      && (c.aiHandoffKeywords.None? ==> f.handoffKeywords == Some(EditorKeywords))
      && (c.aiGreetingMessage.Some? ==> f.greeting == c.aiGreetingMessage)
      && (c.aiGreetingMessage.None? ==> f.greeting == Some(EditorGreeting))
      && (c.aiSystemPrompt.Some? ==> f.systemPrompt == c.aiSystemPrompt)
      && (c.aiSystemPrompt.None? ==> f.systemPrompt == Some(EditorPrompt))
      && f.enabled == c.aiEnabled && f.knowledgeBase == c.aiKnowledgeBase && f.autoGreet == c.aiAutoGreet
  {
  }

  /** Defaults are applied once: a loaded form has no null defaulted field left. */
  lemma DefaultsIdempotent(f: AiForm)
    ensures WithDefaults(WithDefaults(f)) == WithDefaults(f)
  {
  }

  /** The page's default list is the server's default list without "talk to someone" and
      "ekte person": a configuration that stores no list hands off on nine keywords, and on seven
      once the page has saved its defaults. */
  lemma EditorKeywordsShorter()
    ensures EditorKeywords == DefaultKeywords[..5] + DefaultKeywords[6..8]
    ensures "talk to someone" in DefaultKeywords && "talk to someone" !in EditorKeywords
    ensures "ekte person" in DefaultKeywords && "ekte person" !in EditorKeywords
  {
    assert DefaultKeywords[5] == "talk to someone" && DefaultKeywords[8] == "ekte person";
  }

  /** `handleSave`: the form's fields written back to the row; nothing else of the row changes. */
  function Save(c: ChatbotConfig, f: AiForm): (r: ChatbotConfig)
    ensures Columns(r) == f
    ensures r.(aiEnabled := c.aiEnabled, aiSystemPrompt := c.aiSystemPrompt, aiKnowledgeBase := c.aiKnowledgeBase,
               aiModel := c.aiModel, aiTemperature := c.aiTemperature, aiMaxTokens := c.aiMaxTokens,
               aiAutoGreet := c.aiAutoGreet, aiGreetingMessage := c.aiGreetingMessage,
               aiHandoffKeywords := c.aiHandoffKeywords) == c
  {
    c.(aiEnabled := f.enabled, aiSystemPrompt := f.systemPrompt, aiKnowledgeBase := f.knowledgeBase,
       aiModel := f.model, aiTemperature := f.temperature, aiMaxTokens := f.maxTokens, aiAutoGreet := f.autoGreet,
       aiGreetingMessage := f.greeting, aiHandoffKeywords := f.handoffKeywords)
  }

  /** Saving the loaded form and loading again gives the same form. */
  lemma SaveLoadRoundTrip(c: ChatbotConfig)
    ensures Load(Some(Save(c, Load(Some(c)).value))) == Load(Some(c))
  {
    DefaultsIdempotent(Columns(c));
  }

  // ---------------------------------------------------------------- keyword list

  /** The page's state around the keyword editor: the form, if loaded, and the input box. */
  datatype Editor = Editor(config: Option<AiForm>, newKeyword: string)

  /** `config.ai_handoff_keywords || []`. */
  function Keywords(f: AiForm): seq<string> {
    if f.handoffKeywords.Some? then f.handoffKeywords.value else []
  }

  /** `addKeyword`: a blank input, or no form, changes nothing; otherwise the trimmed input is
      appended to the list and the input box is cleared. */
  function AddKeyword(e: Editor): (r: Editor)
    ensures Trim(e.newKeyword) == "" || e.config.None? ==> r == e
    ensures Trim(e.newKeyword) != "" && e.config.Some? ==>
      && r.newKeyword == ""
      && r.config.Some?
      && r.config.value.handoffKeywords == Some(Keywords(e.config.value) + [Trim(e.newKeyword)])
      && r.config.value.(handoffKeywords := e.config.value.handoffKeywords) == e.config.value
  {
    if Trim(e.newKeyword) == "" || e.config.None? then e
    else
      var f := e.config.value;
      Editor(Some(f.(handoffKeywords := Some(Keywords(f) + [Trim(e.newKeyword)]))), "")
  }

  /** `keywords.splice(index, 1)` on a copy: a negative index counts from the end, an index past
      the end removes nothing. */
  function Splice1(ks: seq<string>, index: int): (r: seq<string>)
    ensures 0 <= index < |ks| ==> r == ks[..index] + ks[index + 1..]
    ensures index >= |ks| ==> r == ks
    ensures -|ks| <= index < 0 ==> r == ks[..|ks| + index] + ks[|ks| + index + 1..]
    ensures index < -|ks| && ks != [] ==> r == ks[1..]
  {
    var start := if index < 0 then (if |ks| + index < 0 then 0 else |ks| + index) else (if index > |ks| then |ks| else index);
    if start < |ks| then ks[..start] + ks[start + 1..] else ks
  }

  /** `removeKeyword(index)`: without a form nothing changes; otherwise the keyword at `index` is
      removed and a null list becomes the empty one. */
  function RemoveKeyword(config: Option<AiForm>, index: int): (r: Option<AiForm>)
    ensures config.None? ==> r.None?
    ensures config.Some? ==> r == Some(config.value.(handoffKeywords := Some(Splice1(Keywords(config.value), index))))
  {
    if config.None? then None
    else Some(config.value.(handoffKeywords := Some(Splice1(Keywords(config.value), index))))
  }

  /** Removing the keyword at a listed position removes exactly that occurrence: one fewer entry,
      the same entries otherwise, in the same relative order. */
  lemma RemoveExactlyOne(f: AiForm, index: int)
    requires 0 <= index < |Keywords(f)|
    ensures var ks := Keywords(f); var r := Keywords(RemoveKeyword(Some(f), index).value);
      && |r| == |ks| - 1
      && multiset(r) + multiset{ks[index]} == multiset(ks)
      && (forall j :: 0 <= j < index ==> r[j] == ks[j])
      && (forall j :: index <= j < |r| ==> r[j] == ks[j + 1])
  {
    var ks := Keywords(f);
    assert ks == ks[..index] + [ks[index]] + ks[index + 1..];
  }

  /** Removing the keyword just added restores the list (a null list reads as the empty one). */
  lemma AddThenRemove(e: Editor)
    requires Trim(e.newKeyword) != "" && e.config.Some?
    ensures var n := |Keywords(e.config.value)|;
      Keywords(RemoveKeyword(AddKeyword(e).config, n).value) == Keywords(e.config.value)
  {
    var ks := Keywords(e.config.value);
    var added := ks + [Trim(e.newKeyword)];
    assert added[..|ks|] == ks;
  }

  // ---------------------------------------------------------------- sliders

  /** The temperature slider: 0 to 2 in steps of 0.1. `step` is the thumb position. */
  function TemperatureAt(step: nat): (r: real)
    requires step <= 20
    ensures 0.0 <= r <= 2.0
    ensures r * 10.0 == step as real
  {
    step as real / 10.0
  }

  /** The max-tokens slider: 100 to 2000 in steps of 50. */
  function MaxTokensAt(step: nat): (r: int)
    requires step <= 38
    ensures 100 <= r <= 2000 && (r - 100) % 50 == 0
  {
    100 + 50 * step
  }

  /** The thumb positions the sliders show: `ai_temperature || 0.7` and `ai_max_tokens || 500`. */
  function ShownTemperature(f: AiForm): real {
    OrReal(f.temperature, 0.7)
  }

  function ShownMaxTokens(f: AiForm): int {
    OrInt(f.maxTokens, 500)
  }

  /** Dragging a slider stores the value it points at, and the thumb shows it again, except that a
      temperature of zero is stored but shown at 0.7. */
  lemma SliderShowsStored(f: AiForm, t: nat, m: nat)
    requires t <= 20 && m <= 38
    ensures var g := f.(temperature := Some(TemperatureAt(t)), maxTokens := Some(MaxTokensAt(m)));
      && ShownMaxTokens(g) == MaxTokensAt(m)
      && (t > 0 ==> ShownTemperature(g) == TemperatureAt(t))
      && (t == 0 ==> g.temperature == Some(0.0) && ShownTemperature(g) == 0.7)
  {
  }

  // ---------------------------------------------------------------- plan gate

  /** What the page shows. */
  datatype AiPage = Spinner | NoConfiguration | UpgradeOnly | SettingsForm

  /** The page's early returns, in order: loading, no configuration, a plan without the
      assistant (known only once the plan read has answered), then the form. */
  function PageFor(loading: bool, config: Option<AiForm>, limits: Option<PlanLimits>): (r: AiPage)
    ensures r == UpgradeOnly <==> !loading && config.Some? && limits.Some? && !limits.value.aiEnabled
    ensures r == SettingsForm <==> !loading && config.Some? && (limits.None? || limits.value.aiEnabled)
  {
    if loading then Spinner
    else if config.None? then NoConfiguration
    else if limits.Some? && !limits.value.aiEnabled then UpgradeOnly
    else SettingsForm
  }

  /** Once loaded, a starter owner sees only the upgrade banner, a pro or business owner the form,
      and an owner whose plan read failed the form as well. */
  lemma PlanGate(f: AiForm, p: PlanId)
    ensures PageFor(false, Some(f), Some(Limits(p))) == UpgradeOnly <==> p == Starter
    ensures PageFor(false, Some(f), None) == SettingsForm
  {
  }
}
