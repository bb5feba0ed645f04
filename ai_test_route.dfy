/** The administrator's "try the assistant" endpoint (app/api/chat/ai/test/route.ts): a one-off
    generation with the settings being edited, a model alias table, and no storage. The signed-in
    user, the clock and the language model are inputs. */
module AiTest {
  import opened Text
  import opened Assistant

  /** User-facing model ids and the provider model each one is sent as. */
  const ModelMap: map<string, string> := map[
    "grok-beta" := "xai/grok-beta",
    "grok-2-1212" := "xai/grok-2-1212",
    "grok-2-image" := "xai/grok-2-image",
    "gpt-4o-mini" := "xai/grok-beta",
    "gpt-4o" := "xai/grok-2-1212"
  ]

  const FallbackModel: string := "xai/grok-beta"

  /** A missing or empty id resolves to the fallback, a known alias to its provider model, and
      any other id to itself. */
  function ResolveModel(model: Option<string>): (r: string)
    ensures !Present(model) ==> r == FallbackModel
    ensures Present(model) && model.value in ModelMap ==> r == ModelMap[model.value]
    ensures Present(model) && model.value !in ModelMap ==> r == model.value
  {
    if !Present(model) then FallbackModel
    else if model.value in ModelMap then ModelMap[model.value]
    else model.value
  }

  /** Every provider model in the table starts with "xai/", and no alias does. */
  lemma TableShape()
    ensures forall k :: k in ModelMap ==> StartsWith(ModelMap[k], "xai/")
    ensures forall k :: k in ModelMap ==> !StartsWith(k, "xai/")
  {
    forall k | k in ModelMap ensures !StartsWith(k, "xai/") {
      assert k[0] == 'g';
    }
  }

  /** Resolving twice is resolving once: no provider model is itself an alias. */
  lemma ResolveIdempotent(model: Option<string>)
    ensures ResolveModel(Some(ResolveModel(model))) == ResolveModel(model)
  {
    TableShape();
    var r := ResolveModel(model);
    assert StartsWith(FallbackModel, "xai/");
    if Present(model) && model.value !in ModelMap {
      assert r == model.value;
    } else {
      assert StartsWith(r, "xai/");
      assert r !in ModelMap;
    }
  }

  const TestPersona: string := "You are a helpful assistant."
  const KnowledgeHeading: string := "\n\nKnowledge Base:\n"
  const DateHeading: string := "\n\nCurrent date/time: "

  /** The test system prompt: the given prompt or the default, a knowledge section only when
      one is given, then the date line. */
  function TestPrompt(systemPrompt: Option<string>, knowledgeBase: Option<string>, nowIso: string): string {
    StrOr(systemPrompt, TestPersona) + (if Present(knowledgeBase) then KnowledgeHeading + knowledgeBase.value else "")
    + DateHeading + nowIso
  }

  lemma TestPromptShape(systemPrompt: Option<string>, knowledgeBase: Option<string>, nowIso: string)
    ensures var p := TestPrompt(systemPrompt, knowledgeBase, nowIso);
      && StartsWith(p, StrOr(systemPrompt, TestPersona))
      && EndsWith(p, DateHeading + nowIso)
      && (Present(knowledgeBase) ==> Contains(p, KnowledgeHeading + knowledgeBase.value))
      && (!Present(knowledgeBase) ==> p == StrOr(systemPrompt, TestPersona) + DateHeading + nowIso)
  {
    var persona := StrOr(systemPrompt, TestPersona);
    var kb := if Present(knowledgeBase) then KnowledgeHeading + knowledgeBase.value else "";
    var tail := DateHeading + nowIso;
    var p := TestPrompt(systemPrompt, knowledgeBase, nowIso);
    assert p == persona + kb + tail;
    assert p[..|persona|] == persona;
    assert p[|p| - |tail|..] == tail;
    if Present(knowledgeBase) {
      OccursContains(p, kb, |persona|);
    }
  }

  /** `temperature ?? 0.7`: only a missing value falls back, so zero is honoured here. */
  function TestTemperature(t: Option<real>): (r: real)
    ensures t.Some? ==> r == t.value
    ensures t.None? ==> r == 0.7
  {
    if t.Some? then t.value else 0.7
  }

  /** `max_tokens || 500`: zero falls back like a missing value. */
  function TestMaxTokens(n: Option<int>): (r: int)
    ensures n.Some? && n.value != 0 ==> r == n.value
    ensures n.None? || n.value == 0 ==> r == 500
  {
    OrInt(n, 500)
  }

  /** The request body fields the endpoint reads. */
  datatype TestInput = TestInput(message: Option<string>, systemPrompt: Option<string>,
                                 knowledgeBase: Option<string>, model: Option<string>,
                                 temperature: Option<real>, maxTokens: Option<int>)

  datatype TestReply = TestUnauthorized | TestMissingMessage | TestReplied(reply: string) | TestFailed(error: string)

  /** The one request the endpoint makes: a single user turn with the resolved model. */
  function TestRequest(input: TestInput, nowIso: string): (r: GenRequest)
    requires Present(input.message)
    ensures r.messages == [Turn(User, input.message.value)]
    ensures r.model == ResolveModel(input.model)
    ensures r.temperature == TestTemperature(input.temperature) && r.maxOutputTokens == TestMaxTokens(input.maxTokens)
    ensures r.system == TestPrompt(input.systemPrompt, input.knowledgeBase, nowIso)
    ensures StartsWith(r.system, StrOr(input.systemPrompt, TestPersona)) && EndsWith(r.system, DateHeading + nowIso)
  {
    TestPromptShape(input.systemPrompt, input.knowledgeBase, nowIso);
    GenRequest(ResolveModel(input.model), TestPrompt(input.systemPrompt, input.knowledgeBase, nowIso),
               [Turn(User, input.message.value)], TestMaxTokens(input.maxTokens), TestTemperature(input.temperature))
  }

  /** POST /api/chat/ai/test. */
  function TestRoute(signedIn: bool, input: TestInput, nowIso: string, llm: GenRequest -> GenResult): (r: TestReply)
    ensures !signedIn <==> r.TestUnauthorized?
    ensures signedIn && !Present(input.message) <==> r.TestMissingMessage?
    ensures r.TestReplied? ==> llm(TestRequest(input, nowIso)).Generated? && llm(TestRequest(input, nowIso)).text == r.reply
    ensures r.TestFailed? ==> llm(TestRequest(input, nowIso)) == Failed(r.error)
  {
    if !signedIn then TestUnauthorized
    else if !Present(input.message) then TestMissingMessage
    else
      match llm(TestRequest(input, nowIso))
      case Generated(text, _) => TestReplied(text)
      case Failed(message) => TestFailed(message)
  }

  /** The 401 and 400 answers come before any generation: they do not depend on the model. */
  lemma RejectionsIgnoreModel(signedIn: bool, input: TestInput, nowIso: string,
                              llm1: GenRequest -> GenResult, llm2: GenRequest -> GenResult)
    requires !signedIn || !Present(input.message)
    ensures TestRoute(signedIn, input, nowIso, llm1) == TestRoute(signedIn, input, nowIso, llm2)
  {
  }
}
