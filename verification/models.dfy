/**
 * The model registry (app/config/models.ts): a constant table of the chat
 * models the application offers, a lookup by id that falls back to the first
 * entry, and three accessors that project one field of the looked-up entry.
 */
module Models {
  import opened JsStrings

  /** One registry entry; `displayName` (the source's `label`) and `desc` are display text only. */
  datatype ModelConfig = ModelConfig(
    value: string,
    displayName: string,
    provider: string,
    desc: string,
    apiUrl: string,
    modelName: string,
    icon: string)

  const GLM_API_URL := "https://open.bigmodel.cn/api/paas/v4/chat/completions"

  const AI_MODELS: seq<ModelConfig> := [
    ModelConfig(
      "gemini-3-flash-preview", "Gemini 3 Flash", "gemini", "速度快、对日语优化",
      "https://generativelanguage.googleapis.com/v1beta/openai/chat/completions",
      "gemini-3-flash-preview", "fa-robot"),
    ModelConfig(
      "glm-4-flash", "GLM", "zhipu", "智谱AI、响应快",
      GLM_API_URL,
      "glm-4-flash", "fa-cube"),
    ModelConfig(
      "qwen-plus", "Qwen", "qwen", "阿里云、多语言支持好",
      "https://dashscope.aliyuncs.com/compatible-mode/v1/chat/completions",
      "qwen-plus", "fa-bolt")
  ]

  const DEFAULT_MODEL := AI_MODELS[0].value

  /** The index at or after `k` of the first entry whose `value` is `id`, where `Array.find` stops. */
  function FindFrom(models: seq<ModelConfig>, id: string, k: nat): (r: Option<nat>)
    decreases |models| - k
    ensures r.Some? ==> k <= r.value < |models| && models[r.value].value == id
    ensures r.Some? ==> forall j :: k <= j < r.value ==> models[j].value != id
    ensures r.None? ==> forall j :: k <= j < |models| ==> models[j].value != id
  {
    if k >= |models| then None
    else if models[k].value == id then Some(k)
    else FindFrom(models, id, k + 1)
  }

  /** `getModelConfig`: the first entry with the given id, or `AI_MODELS[0]` when none has it. */
  function GetModelConfig(id: string): (m: ModelConfig)
    ensures m in AI_MODELS
    ensures (exists i :: 0 <= i < |AI_MODELS| && AI_MODELS[i].value == id) ==> m.value == id
    ensures (forall i :: 0 <= i < |AI_MODELS| ==> AI_MODELS[i].value != id) ==> m == AI_MODELS[0]
  {
    match FindFrom(AI_MODELS, id, 0)
    case None => AI_MODELS[0]
    case Some(i) => AI_MODELS[i]
  }

  /** `getModelApiUrl`: the endpoint of the entry with the id, or of the first entry when no entry has it. */
  function GetModelApiUrl(id: string): (r: string)
    ensures forall i :: 0 <= i < |AI_MODELS| && AI_MODELS[i].value == id ==> r == AI_MODELS[i].apiUrl
    ensures (forall i :: 0 <= i < |AI_MODELS| ==> AI_MODELS[i].value != id) ==> r == AI_MODELS[0].apiUrl
  {
    DistinctIds();
    GetModelConfig(id).apiUrl
  }

  /** `getModelName`: the upstream model name of the entry with the id, or of the first entry when no entry has it. */
  function GetModelName(id: string): (r: string)
    ensures forall i :: 0 <= i < |AI_MODELS| && AI_MODELS[i].value == id ==> r == AI_MODELS[i].modelName
    ensures (forall i :: 0 <= i < |AI_MODELS| ==> AI_MODELS[i].value != id) ==> r == AI_MODELS[0].modelName
  {
    DistinctIds();
    GetModelConfig(id).modelName
  }

  /** `getModelIcon`: the icon class of the entry with the id, or of the first entry when no entry has it. */
  function GetModelIcon(id: string): (r: string)
    ensures forall i :: 0 <= i < |AI_MODELS| && AI_MODELS[i].value == id ==> r == AI_MODELS[i].icon
    ensures (forall i :: 0 <= i < |AI_MODELS| ==> AI_MODELS[i].value != id) ==> r == AI_MODELS[0].icon
  {
    DistinctIds();
    GetModelConfig(id).icon
  }

  /** When an entry has the id and no earlier one does, that entry is returned. */
  lemma ExactLookup(id: string, i: nat)
    requires i < |AI_MODELS| && AI_MODELS[i].value == id
    requires forall j :: 0 <= j < i ==> AI_MODELS[j].value != id
    ensures GetModelConfig(id) == AI_MODELS[i]
  {
    var r := FindFrom(AI_MODELS, id, 0);
    assert r.Some?;
    assert r.value == i;
  }

  /** An id no entry has yields the first entry. */
  lemma UnknownIdFallsBack(id: string)
    requires forall m :: m in AI_MODELS ==> m.value != id
    ensures GetModelConfig(id) == AI_MODELS[0]
    ensures GetModelConfig(id).value != id
  {
  }

  /** The three ids are pairwise distinct, so each listed id looks up exactly its own entry. */
  lemma DistinctIds()
    ensures forall i, j :: 0 <= i < j < |AI_MODELS| ==> AI_MODELS[i].value != AI_MODELS[j].value
    ensures forall i :: 0 <= i < |AI_MODELS| ==> GetModelConfig(AI_MODELS[i].value) == AI_MODELS[i]
  {
    assert AI_MODELS[0].value[1] != AI_MODELS[1].value[1];
    assert AI_MODELS[0].value[0] != AI_MODELS[2].value[0];
    assert AI_MODELS[1].value[0] != AI_MODELS[2].value[0];
    forall i | 0 <= i < |AI_MODELS| ensures GetModelConfig(AI_MODELS[i].value) == AI_MODELS[i] {
      ExactLookup(AI_MODELS[i].value, i);
    }
  }

  /** The default model is the first entry's id, and looking it up gives the first entry. */
  lemma DefaultModelLookup()
    ensures DEFAULT_MODEL == "gemini-3-flash-preview"
    ensures GetModelConfig(DEFAULT_MODEL) == AI_MODELS[0]
  {
    ExactLookup(DEFAULT_MODEL, 0);
  }

  /** The GLM endpoint read as host, provider marker and path. */
  lemma GlmUrlParts()
    ensures GLM_API_URL == "https://open." + "bigmodel.cn" + "/api/paas/v4/chat/completions"
  {
  }

  /**
   * The GLM entry's URL contains "bigmodel.cn" (at index 13), so a request
   * that sends it as `apiUrl` is served with the GLM key by the routes.
   */
  lemma GlmEntryIsBigmodel()
    ensures GetModelApiUrl("glm-4-flash") == GLM_API_URL
    ensures OccursAt(GLM_API_URL, "bigmodel.cn", 13)
  {
    GlmUrlParts();
    OccursBetween("https://open.", "bigmodel.cn", "/api/paas/v4/chat/completions");
    ExactLookup("glm-4-flash", 1);
  }
}
