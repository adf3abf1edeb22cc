/**
 * The recipe assistant: choosing the default AI model, the recipe cache keyed
 * by normalised dish name and model, the prompt, the chat-completion request
 * sent to Groq or OpenRouter, and the HTML each outcome of that request turns
 * into. The HTTP exchange itself is a parameter.
 */
module RecipeService {
  import opened Wrappers
  import opened Text

  /** An `ai_models` row; `apiKey` is `None` for SQL `NULL`. */
  datatype AiModel = AiModel(
    id: int,
    provider: string,
    modelId: string,
    displayName: string,
    apiKey: Option<string>,
    isDefault: bool)

  predicate UniqueModelIds(models: seq<AiModel>) {
    forall i, j :: 0 <= i < j < |models| ==> models[i].id != models[j].id
  }

  // ---------------------------------------------------------------- default model

  /** The first row flagged default, in table order. */
  function FirstDefault(models: seq<AiModel>): (r: Option<nat>)
    ensures r.Some? ==> r.value < |models| && models[r.value].isDefault
                        && forall k :: 0 <= k < r.value ==> !models[k].isDefault
    ensures r.None? ==> forall k :: 0 <= k < |models| ==> !models[k].isDefault
  {
    if models == [] then None
    else if models[0].isDefault then Some(0)
    else match FirstDefault(models[1..])
      case None =>
        assert forall k :: 1 <= k < |models| ==> models[k] == models[1..][k - 1];
        None
      case Some(k) =>
        assert forall j :: 1 <= j < k + 1 ==> models[j] == models[1..][j - 1];
        Some(k + 1)
  }

  /** `get_default_model`: the row flagged default, else the first row, else none. */
  function DefaultModel(models: seq<AiModel>): (r: Option<AiModel>)
    ensures r.None? <==> models == []
    ensures r.Some? ==> r.value in models
    ensures (exists k :: 0 <= k < |models| && models[k].isDefault) ==> r.Some? && r.value.isDefault
    ensures models != [] && (forall k :: 0 <= k < |models| ==> !models[k].isDefault) ==> r == Some(models[0])
  {
    match FirstDefault(models)
    case Some(k) => Some(models[k])
    case None => if models == [] then None else Some(models[0])
  }

  /** The table after `UPDATE ai_models SET is_default = 0` then `... SET is_default = 1 WHERE id = ?`. */
  function WithDefault(models: seq<AiModel>, id: int): (r: seq<AiModel>)
    ensures |r| == |models|
    ensures forall k :: 0 <= k < |r| ==> (r[k].isDefault <==> models[k].id == id)
    ensures forall k :: 0 <= k < |r| ==> r[k].(isDefault := models[k].isDefault) == models[k]
  {
    seq(|models|, k requires 0 <= k < |models| => models[k].(isDefault := models[k].id == id))
  }

  /** After marking an existing model, it is the one `get_default_model` returns. */
  lemma DefaultAfterSet(models: seq<AiModel>, k: nat)
    requires UniqueModelIds(models) && k < |models|
    ensures DefaultModel(WithDefault(models, models[k].id)) == Some(models[k].(isDefault := true))
  {
    assert WithDefault(models, models[k].id)[k].isDefault;
  }

  /** Marking an id no row has leaves no default, so the first row is returned. */
  lemma DefaultAfterSetUnknown(models: seq<AiModel>, id: int)
    requires forall k :: 0 <= k < |models| ==> models[k].id != id
    ensures DefaultModel(WithDefault(models, id)) == if models == [] then None else Some(models[0].(isDefault := false))
  {
    if models != [] {
      assert WithDefault(models, id)[0] == models[0].(isDefault := false);
    }
  }

  /** At most one model is flagged after the update. */
  lemma SingleDefaultAfterSet(models: seq<AiModel>, id: int)
    requires UniqueModelIds(models)
    ensures forall i, j :: 0 <= i < j < |models| && WithDefault(models, id)[i].isDefault ==> !WithDefault(models, id)[j].isDefault
  {
  }

  // ---------------------------------------------------------------- recipe cache

  /** `dish_name.lower().strip()`, the cache's dish column. */
  function NormaliseKey(dish: string): (r: string)
    ensures |r| <= |dish|
    ensures Lower(r) == r
    ensures forall i :: 0 <= i < |r| ==> !('A' <= r[i] <= 'Z')
  {
    var l := Lower(dish);
    LowerIdempotent(dish);
    StrippedLowerStaysLower(l);
    Strip(l)
  }

  type Cache = map<(string, string), string>

  /** `get_cached_recipe` */
  function CachedRecipe(cache: Cache, dish: string, modelId: string): (r: Option<string>)
    ensures r.Some? <==> (NormaliseKey(dish), modelId) in cache
  {
    if (NormaliseKey(dish), modelId) in cache then Some(cache[(NormaliseKey(dish), modelId)]) else None
  }

  /** `cache_recipe`: `INSERT OR REPLACE` under `UNIQUE(dish_name, model_id)`. */
  function PutRecipe(cache: Cache, dish: string, modelId: string, html: string): (r: Cache)
    ensures r.Keys == cache.Keys + {(NormaliseKey(dish), modelId)}
  {
    cache[(NormaliseKey(dish), modelId) := html]
  }

  /** A recipe stored under one spelling of a dish is found under every spelling with the same key, and only there. */
  lemma PutThenGet(cache: Cache, dish: string, modelId: string, html: string, other: string, otherModel: string)
    ensures CachedRecipe(PutRecipe(cache, dish, modelId, html), other, otherModel) ==
            if NormaliseKey(other) == NormaliseKey(dish) && otherModel == modelId then Some(html)
            else CachedRecipe(cache, other, otherModel)
  {
  }

  /** The key ignores the case of ASCII letters. */
  lemma KeyIgnoresCase(a: string, b: string)
    requires Lower(a) == Lower(b)
    ensures NormaliseKey(a) == NormaliseKey(b)
  {
  }

  /** The key ignores surrounding whitespace. */
  lemma KeyIgnoresPadding(p: string, dish: string, q: string)
    requires AllSpace(p) && AllSpace(q)
    ensures NormaliseKey(p + dish + q) == NormaliseKey(dish)
  {
    LowerAppend(p + dish, q);
    LowerAppend(p, dish);
    LowerKeepsSpace(p);
    LowerKeepsSpace(q);
    StripIgnoresPadding(p, Lower(dish), q);
  }

  /** A normalised key is its own key. */
  lemma KeyIdempotent(dish: string)
    ensures NormaliseKey(NormaliseKey(dish)) == NormaliseKey(dish)
  {
    var l := Lower(dish);
    LowerIdempotent(dish);
    StrippedLowerStaysLower(l);
    StripIdempotent(l);
  }

  lemma StrippedLowerStaysLower(l: string)
    requires Lower(l) == l
    ensures Lower(Strip(l)) == Strip(l)
  {
    StripSliceAt(l);
    LowerSlice(l, StripStart(l), StripStart(l) + |Strip(l)|);
  }

  // ---------------------------------------------------------------- the request

  const GroqApiUrl: string := "https://api.groq.com/openai/v1/chat/completions"
  const OpenRouterApiUrl: string := "https://openrouter.ai/api/v1/chat/completions"

  const PromptHead: string := "You are a nutrition expert and chef. Provide detailed information about the dish: \""
  const PromptMiddle: string := "\"\n\nPlease provide the following in clean HTML format (no markdown, use HTML tags):\n\n<h3>\U{1F4CB} Recipe: "
  /** The rest of the template after the recipe title, one constant per blank-line-separated section. */
  const PromptTitleEnd: string := "</h3>\n\n"
  const PromptNutrition: string := "<h4>\U{1F957} Nutritional Information (per serving)</h4>\n<ul>\n<li>Calories: estimated kcal</li>\n<li>Protein: g</li>\n<li>Carbohydrates: g</li>\n<li>Fat: g</li>\n<li>Fiber: g</li>\n<li>Sugar: g</li>\n</ul>\n\n"
  const PromptIngredients: string := "<h4>\U{1F6D2} Ingredients</h4>\n<ul>List all ingredients with quantities</ul>\n\n"
  const PromptSteps: string := "<h4>\U{1F468}\U{200D}\U{1F373} Preparation Steps</h4>\n<ol>Step by step cooking instructions</ol>\n\n"
  const PromptTime: string := "<h4>\U{23F1}\U{FE0F} Cooking Time</h4>\n<p>Prep time, cook time, total time</p>\n\n"
  const PromptBenefits: string := "<h4>\U{1F4A1} Health Benefits</h4>\n<ul>Key health benefits of this dish</ul>\n\n"
  const PromptNotes: string := "<h4>\U{26A0}\U{FE0F} Dietary Notes</h4>\n<p>Any allergens, dietary restrictions info (vegan, gluten-free, etc.)</p>\n\n"
  const PromptClosing: string := "Keep the response concise but informative. Use clean, well-formatted HTML only."
  const PromptTail: string :=
    PromptTitleEnd + PromptNutrition + PromptIngredients + PromptSteps + PromptTime + PromptBenefits
    + PromptNotes + PromptClosing

  const SystemPrompt: string := "You are a nutrition expert and professional chef. Respond only in clean HTML format."

  /** `build_prompt`: the dish is quoted after the head and named again as the recipe title. */
  function BuildPrompt(dish: string): (r: string)
    ensures |r| == |PromptHead| + |PromptMiddle| + |PromptTail| + 2 * |dish|
  {
    PromptHead + dish + PromptMiddle + dish + PromptTail
  }

  /** The prompt quotes the dish right after its fixed head and ends with the fixed tail. */
  lemma PromptQuotesDish(dish: string)
    ensures BuildPrompt(dish)[..|PromptHead|] == PromptHead
    ensures BuildPrompt(dish)[|PromptHead|..|PromptHead| + |dish|] == dish
    ensures BuildPrompt(dish)[|BuildPrompt(dish)| - |PromptTail|..] == PromptTail
  {
    TemplateSlices(PromptHead, dish, PromptMiddle, PromptTail);
  }

  lemma TemplateSlices(h: string, d: string, m: string, t: string)
    ensures var r := h + d + m + d + t;
            && |r| == |h| + |m| + |t| + 2 * |d|
            && r[..|h|] == h && r[|h|..|h| + |d|] == d && r[|r| - |t|..] == t
  {
    var r := h + d + m + d + t;
    assert r == h + (d + m + d + t);
    assert r == (h + d + m + d) + t;
    assert (d + m + d + t)[..|d|] == d;
  }

  /** Different dishes give different prompts. */
  lemma BuildPromptInjective(a: string, b: string)
    requires BuildPrompt(a) == BuildPrompt(b)
    ensures a == b
  {
    PromptQuotesDish(a);
    PromptQuotesDish(b);
  }

  datatype Message = Message(role: string, content: string)

  /** The POST `query_ai` sends; the temperature 0.7 is kept in tenths. */
  datatype Request = Request(
    url: string,
    headers: map<string, string>,
    model: string,
    messages: seq<Message>,
    maxTokens: nat,
    temperatureTenths: nat,
    timeoutSeconds: nat)

  /** `os.environ.get(name, default)` */
  function EnvGet(env: map<string, string>, name: string, default: string): string {
    if name in env then env[name] else default
  }

  predicate KnownProvider(provider: string) {
    provider == "groq" || provider == "openrouter"
  }

  /**
   * The API key: the model's own one when non-empty, else the provider's
   * environment variable, else empty.
   */
  function ResolveKey(m: AiModel, env: map<string, string>): (key: string)
    requires KnownProvider(m.provider)
    ensures m.apiKey.Some? && m.apiKey.value != [] ==> key == m.apiKey.value
    ensures (m.apiKey.None? || m.apiKey.value == []) ==>
              key == EnvGet(env, if m.provider == "groq" then "GROQ_API_KEY" else "OPENROUTER_API_KEY", "")
  {
    var stored := if m.apiKey.Some? then m.apiKey.value else "";
    if stored != [] then stored
    else if m.provider == "groq" then EnvGet(env, "GROQ_API_KEY", "")
    else EnvGet(env, "OPENROUTER_API_KEY", "")
  }

  function BuildRequest(m: AiModel, key: string, dish: string, env: map<string, string>): (r: Request)
    requires KnownProvider(m.provider)
    ensures r.url == (if m.provider == "groq" then GroqApiUrl else OpenRouterApiUrl)
    ensures "Authorization" in r.headers && r.headers["Authorization"] == "Bearer " + key
    ensures "Content-Type" in r.headers && r.headers["Content-Type"] == "application/json"
    ensures r.headers.Keys == if m.provider == "openrouter"
                              then {"Authorization", "Content-Type", "HTTP-Referer", "X-Title"}
                              else {"Authorization", "Content-Type"}
    ensures m.provider == "openrouter" ==>
              r.headers["HTTP-Referer"] == EnvGet(env, "APP_URL", "http://localhost:8000")
              && r.headers["X-Title"] == "Diet Plan Dashboard"
    ensures r.model == m.modelId
    ensures r.messages == [Message("system", SystemPrompt), Message("user", BuildPrompt(dish))]
    ensures r.maxTokens == 2000 && r.temperatureTenths == 7 && r.timeoutSeconds == 30
  {
    var base := map["Authorization" := "Bearer " + key, "Content-Type" := "application/json"];
    var headers :=
      if m.provider == "openrouter"
      then base["HTTP-Referer" := EnvGet(env, "APP_URL", "http://localhost:8000")]["X-Title" := "Diet Plan Dashboard"]
      else base;
    Request(
      if m.provider == "groq" then GroqApiUrl else OpenRouterApiUrl,
      headers,
      m.modelId,
      [Message("system", SystemPrompt), Message("user", BuildPrompt(dish))],
      2000, 7, 30)
  }

  // ---------------------------------------------------------------- outcomes

  /** What the HTTP exchange yields: the choice's content, or one of the three failures caught. */
  datatype Upstream =
    | Completed(content: string)
    | TimedOut
    | StatusError(code: nat, body: string)
    | Failed(message: string)

  const NoModelHtml: string := "<p class='error'>No AI model configured. Ask admin to add one.</p>"
  const UnknownProviderHtml: string := "<p class='error'>Unknown AI provider configured.</p>"
  const TimeoutHtml: string := "<p class='error'>AI service timed out. Please try again.</p>"

  const MissingKeyHead: string := "<p class='error'>API key not configured for "
  const MissingKeyTail: string := ". Set the API key in admin settings or environment variable.</p>"

  /** The fragment for an empty key names the provider. */
  function MissingKeyHtml(provider: string): (r: string)
    ensures Contains(r, provider)
  {
    var r := MissingKeyHead + provider + MissingKeyTail;
    Embedded(MissingKeyHead, provider, MissingKeyTail);
    r
  }

  /** A text placed between two others occurs in the result, right after the first. */
  lemma Embedded(h: string, d: string, t: string)
    ensures (h + d + t)[..|h|] == h
    ensures OccursAt(h + d + t, d, |h|)
    ensures Contains(h + d + t, d)
  {
    assert (h + d + t)[..|h|] == h;
    assert (h + d + t)[|h|..|h| + |d|] == d;
    assert OccursAt(h + d + t, d, |h|);
  }

  /** `e.response.text[:200]` */
  function Excerpt(body: string): (r: string)
    ensures |r| <= 200 && |r| <= |body| && r == body[..|r|]
    ensures |body| <= 200 ==> r == body
    ensures |body| > 200 ==> r == body[..200]
  {
    if |body| <= 200 then body else body[..200]
  }

  const StatusHead: string := "<p class='error'>AI service error: "
  const FailedHead: string := "<p class='error'>Error querying AI: "

  /**
   * The HTML `query_ai` returns for what the exchange yields: the completion
   * verbatim, else an error fragment naming the status code and the start of
   * the body, or the error's text.
   */
  function Respond(u: Upstream): (r: string)
    ensures u.Completed? ==> r == u.content
    ensures u.TimedOut? ==> r == TimeoutHtml
    ensures u.StatusError? ==> |StatusHead| <= |r| && r[..|StatusHead|] == StatusHead
                               && Contains(r, NatToString(u.code)) && Contains(r, Excerpt(u.body))
    ensures u.StatusError? ==> r == StatusHead + NatToString(u.code) + " \U{2014} " + Excerpt(u.body) + "</p>"
    // at most 200 characters of the response body reach the page
    ensures u.StatusError? ==> |r| <= |StatusHead| + |NatToString(u.code)| + 3 + 200 + 4
    ensures u.Failed? ==> |FailedHead| <= |r| && r[..|FailedHead|] == FailedHead && Contains(r, u.message)
    ensures u.Failed? ==> r == FailedHead + u.message + "</p>"
  {
    match u
    case Completed(content) => content
    case TimedOut => TimeoutHtml
    case StatusError(code, body) =>
      Fragment(StatusHead, NatToString(code), " \U{2014} ", Excerpt(body), "</p>");
      StatusHead + NatToString(code) + " \U{2014} " + Excerpt(body) + "</p>"
    case Failed(message) =>
      Embedded(FailedHead, message, "</p>");
      FailedHead + message + "</p>"
  }

  /** A fragment `h + d + m + x + t` starts with `h` and holds both `d` and `x`. */
  lemma Fragment(h: string, d: string, m: string, x: string, t: string)
    ensures |h + d + m + x + t| == |h| + |d| + |m| + |x| + |t|
    ensures (h + d + m + x + t)[..|h|] == h
    ensures Contains(h + d + m + x + t, d) && Contains(h + d + m + x + t, x)
  {
    Embedded(h, d, m + x + t);
    assert h + d + (m + x + t) == h + d + m + x + t;
    Embedded(h + d + m, x, t);
  }

  /** What `query_ai` does before any network traffic: answer at once, or send this request. */
  datatype Step = Answer(html: string) | Send(request: Request)

  function Plan(models: seq<AiModel>, cache: Cache, dish: string, env: map<string, string>): (r: Step)
    ensures models == [] ==> r == Answer(NoModelHtml)
    ensures models != [] && CachedRecipe(cache, dish, DefaultModel(models).value.modelId).Some?
            && CachedRecipe(cache, dish, DefaultModel(models).value.modelId).value != []
            ==> r == Answer(CachedRecipe(cache, dish, DefaultModel(models).value.modelId).value)
    ensures r.Send? <==>
              && models != []
              && (CachedRecipe(cache, dish, DefaultModel(models).value.modelId).None?
                  || CachedRecipe(cache, dish, DefaultModel(models).value.modelId).value == [])
              && KnownProvider(DefaultModel(models).value.provider)
              && ResolveKey(DefaultModel(models).value, env) != []
    ensures r.Send? ==>
              var m := DefaultModel(models).value;
              r.request == BuildRequest(m, ResolveKey(m, env), dish, env)
  {
    match DefaultModel(models)
    case None => Answer(NoModelHtml)
    case Some(m) =>
      var cached := CachedRecipe(cache, dish, m.modelId);
      if cached.Some? && cached.value != [] then Answer(cached.value)
      else if !KnownProvider(m.provider) then Answer(UnknownProviderHtml)
      else
        var key := ResolveKey(m, env);
        if key == [] then Answer(MissingKeyHtml(m.provider))
        else Send(BuildRequest(m, key, dish, env))
  }

  /** A provider outside the schema's `CHECK` list, or a missing key, is reported without a request. */
  lemma PlanErrors(models: seq<AiModel>, cache: Cache, dish: string, env: map<string, string>)
    requires models != []
    requires var m := DefaultModel(models).value;
             CachedRecipe(cache, dish, m.modelId).None? || CachedRecipe(cache, dish, m.modelId).value == []
    ensures var m := DefaultModel(models).value;
            !KnownProvider(m.provider) ==> Plan(models, cache, dish, env) == Answer(UnknownProviderHtml)
    ensures var m := DefaultModel(models).value;
            KnownProvider(m.provider) && ResolveKey(m, env) == [] ==>
              Plan(models, cache, dish, env) == Answer(MissingKeyHtml(m.provider))
  {
  }

  /** After a non-empty completion is stored, the same dish, however spelled, is served from the cache. */
  lemma CompletionServedNextTime(models: seq<AiModel>, cache: Cache, dish: string, other: string,
                                 env: map<string, string>, content: string)
    requires Plan(models, cache, dish, env).Send? && content != []
    requires NormaliseKey(other) == NormaliseKey(dish)
    ensures Plan(models, PutRecipe(cache, dish, Plan(models, cache, dish, env).request.model, content), other, env)
            == Answer(content)
  {
    var m := DefaultModel(models).value;
    PutThenGet(cache, dish, m.modelId, content, other, m.modelId);
  }

  class RecipeStore {
    var models: seq<AiModel>
    var cache: Cache

    constructor (models0: seq<AiModel>)
      ensures models == models0 && cache == map[]
    {
      models := models0;
      cache := map[];
    }

    /** `set_default_model`: clear every flag, then set the chosen model's. */
    method SetDefaultModel(id: int)
      modifies this`models
      ensures models == WithDefault(old(models), id)
      ensures cache == old(cache)
    {
      var cleared := models;
      cleared := seq(|cleared|, k requires 0 <= k < |cleared| => cleared[k].(isDefault := false));
      models := cleared;
      var marked := models;
      marked := seq(|marked|, k requires 0 <= k < |marked| => if marked[k].id == id then marked[k].(isDefault := true) else marked[k]);
      models := marked;
    }

    method CacheRecipe(dish: string, modelId: string, html: string)
      modifies this`cache
      ensures cache == PutRecipe(old(cache), dish, modelId, html)
      ensures models == old(models)
    {
      cache := cache[(NormaliseKey(dish), modelId) := html];
    }

    /**
     * `query_ai`: the request it sends, if any, and the HTML it returns; a
     * completion is cached under the dish and the model, a failure is not.
     */
    method QueryAi(dish: string, env: map<string, string>, upstream: Upstream)
      returns (html: string, call: Option<Request>)
      modifies this`cache
      ensures models == old(models)
      ensures match Plan(models, old(cache), dish, env)
              case Answer(h) => html == h && call == None && cache == old(cache)
              case Send(req) =>
                && call == Some(req)
                && html == Respond(upstream)
                && cache == if upstream.Completed? then PutRecipe(old(cache), dish, req.model, upstream.content)
                            else old(cache)
    {
      var model := DefaultModel(models);
      if model.None? {
        return NoModelHtml, None;
      }
      var m := model.value;
      var cached := CachedRecipe(cache, dish, m.modelId);
      if cached.Some? && cached.value != [] {
        return cached.value, None;
      }
      if !KnownProvider(m.provider) {
        return UnknownProviderHtml, None;
      }
      var key := ResolveKey(m, env);
      if key == [] {
        return MissingKeyHtml(m.provider), None;
      }
      var request := BuildRequest(m, key, dish, env);
      call := Some(request);
      html := Respond(upstream);
      if upstream.Completed? {
        CacheRecipe(dish, m.modelId, upstream.content);
      }
    }
  }

  /** Two queries in a row: after a non-empty completion the second is answered from the cache without a request. */
  method AskTwice(store: RecipeStore, dish: string, env: map<string, string>, content: string, later: Upstream)
    returns (first: string, second: string, secondCall: Option<Request>)
    requires Plan(store.models, store.cache, dish, env).Send? && content != []
    modifies store
    ensures first == content && second == content && secondCall.None?
  {
    var firstCall;
    first, firstCall := store.QueryAi(dish, env, Completed(content));
    CompletionServedNextTime(store.models, old(store.cache), dish, dish, env, content);
    second, secondCall := store.QueryAi(dish, env, later);
  }
}
