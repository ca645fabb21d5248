/**
 * The prompt-template schemas: what validation accepts and which issues it reports, and the
 * templates seeded at install time. Inputs are raw objects, so every key may be absent.
 * Numbers are reals.
 */
module ChatModels {
  import opened JsValues

  // ---------------------------------------------------------------------------
  // Inputs and validation issues
  // ---------------------------------------------------------------------------

  /** Per-language text such as {en: ..., ko: ...}; its own schema is not part of this model. */
  type TranslatableString = map<string, string>

  datatype PromptItem = PromptItem(itemType: Option<string>, content: Option<string>)

  datatype LlmSettings = LlmSettings(
    model: Option<string>,
    frequencyPenalty: Option<real>,
    presencePenalty: Option<real>,
    maxTokens: Option<real>,
    temperature: Option<real>,
    topP: Option<real>,
    seed: Option<real>)

  datatype Metadata = Metadata(
    name: Option<TranslatableString>,
    creator: Option<string>,
    creatorDescription: Option<TranslatableString>)

  datatype PromptConfig = PromptConfig(
    llmParams: Option<LlmSettings>,
    maxContextTokens: Option<real>,
    messageItems: Option<seq<PromptItem>>)

  datatype PromptTemplate = PromptTemplate(
    uuid: Option<string>,
    metadata: Option<Metadata>,
    promptConfig: Option<PromptConfig>)

  /** Where an issue is: object keys and array indices from the root. */
  datatype PathSegment = Field(name: string) | Element(index: nat)
  type Path = seq<PathSegment>

  /** The issue kinds these schemas can raise: a missing key, a value outside the enum, a bound. */
  datatype IssueCode =
    | InvalidType
    | InvalidEnumValue
    | TooSmall(minimum: real, inclusive: bool)
    | TooBig(maximum: real, inclusive: bool)

  datatype Issue = Issue(path: Path, code: IssueCode)

  /** Whether some issue sits exactly at a path. */
  predicate IssueAt(issues: seq<Issue>, path: Path) {
    exists i :: 0 <= i < |issues| && issues[i].path == path
  }

  // ---------------------------------------------------------------------------
  // Field checks
  // ---------------------------------------------------------------------------

  /** A required key: absence is an invalid-type issue. */
  function Required<T>(path: Path, v: Option<T>): seq<Issue> {
    if v.None? then [Issue(path, InvalidType)] else []
  }

  /** `z.number().min(lo).max(hi).optional()`. */
  function OptionalInRange(path: Path, v: Option<real>, lo: real, hi: real): (issues: seq<Issue>)
    ensures issues == [] <==> Within(v, lo, hi)
  {
    if v.None? then []
    else ((if v.value < lo then [Issue(path, TooSmall(lo, true))] else [])
          + (if v.value > hi then [Issue(path, TooBig(hi, true))] else []))
  }

  /** `z.number().positive()`, optional or required. */
  function PositiveNumber(path: Path, v: Option<real>, required: bool): (issues: seq<Issue>)
    ensures issues == [] <==> (if v.None? then !required else v.value > 0.0)
  {
    if v.None? then (if required then [Issue(path, InvalidType)] else [])
    else if v.value <= 0.0 then [Issue(path, TooSmall(0.0, false))]
    else []
  }

  // ---------------------------------------------------------------------------
  // The schemas
  // ---------------------------------------------------------------------------

  /** `promptItemSchema`: `type` is one of "user" and "assistant", `content` is present. */
  function PromptItemIssues(path: Path, item: PromptItem): (issues: seq<Issue>)
    ensures issues == [] <==> PromptItemWellFormed(item)
  {
    (if item.itemType.None? then [Issue(path + [Field("type")], InvalidType)]
     else if item.itemType.value != "user" && item.itemType.value != "assistant"
     then [Issue(path + [Field("type")], InvalidEnumValue)]
     else [])
    + Required(path + [Field("content")], item.content)
  }

  predicate PromptItemValid(item: PromptItem) {
    item.itemType == Some("user") || item.itemType == Some("assistant")
  }

  predicate PromptItemWellFormed(item: PromptItem) {
    PromptItemValid(item) && item.content.Some?
  }

  /** The issues of every element of a message list, element `k` reported at index `offset + k`. */
  function ItemsIssues(path: Path, items: seq<PromptItem>, offset: nat): (issues: seq<Issue>)
    ensures issues == [] <==> forall k :: 0 <= k < |items| ==> PromptItemWellFormed(items[k])
  {
    if items == [] then []
    else PromptItemIssues(path + [Element(offset)], items[0]) + ItemsIssues(path, items[1..], offset + 1)
  }

  /** `llmSettingsSchema`. */
  function LlmSettingsIssues(path: Path, s: LlmSettings): (issues: seq<Issue>)
    ensures issues == [] <==> LlmSettingsValid(s)
  {
    Required(path + [Field("model")], s.model)
    + OptionalInRange(path + [Field("frequency_penalty")], s.frequencyPenalty, -2.0, 2.0)
    + OptionalInRange(path + [Field("presence_penalty")], s.presencePenalty, -2.0, 2.0)
    + PositiveNumber(path + [Field("max_tokens")], s.maxTokens, false)
    + OptionalInRange(path + [Field("temperature")], s.temperature, 0.0, 2.0)
    + OptionalInRange(path + [Field("top_p")], s.topP, 0.0, 1.0)
  }

  /** `promptConfigSchema`. */
  function PromptConfigIssues(path: Path, c: PromptConfig): (issues: seq<Issue>)
    ensures issues == [] <==> PromptConfigValid(c)
  {
    (match c.llmParams
     case None => [Issue(path + [Field("llmParams")], InvalidType)]
     case Some(s) => LlmSettingsIssues(path + [Field("llmParams")], s))
    + PositiveNumber(path + [Field("maxContextTokens")], c.maxContextTokens, true)
    + (match c.messageItems
       case None => [Issue(path + [Field("messageItems")], InvalidType)]
       case Some(items) => ItemsIssues(path + [Field("messageItems")], items, 0))
  }

  /** `metadataSchema`: the name is required; creator fields are optional. */
  function MetadataIssues(path: Path, m: Metadata): (issues: seq<Issue>)
    ensures issues == [] <==> m.name.Some?
  {
    Required(path + [Field("name")], m.name)
  }

  /** `promptTemplateSchema`. */
  function PromptTemplateIssues(t: PromptTemplate): (issues: seq<Issue>)
    ensures issues == [] <==> PromptTemplateValid(t)
  {
    Required([Field("uuid")], t.uuid)
    + (match t.metadata
       case None => [Issue([Field("metadata")], InvalidType)]
       case Some(m) => MetadataIssues([Field("metadata")], m))
    + (match t.promptConfig
       case None => [Issue([Field("promptConfig")], InvalidType)]
       case Some(c) => PromptConfigIssues([Field("promptConfig")], c))
  }

  // ---------------------------------------------------------------------------
  // Reference statements of validity
  // ---------------------------------------------------------------------------

  /** An optional number, when present, lies in [lo, hi]. */
  predicate Within(v: Option<real>, lo: real, hi: real) {
    v.None? || (lo <= v.value && v.value <= hi)
  }

  /** The bounds on LLM settings: model present, penalties in [-2, 2], max_tokens positive,
      temperature in [0, 2], top_p in [0, 1]; seed is unconstrained. */
  predicate LlmSettingsValid(s: LlmSettings) {
    && s.model.Some?
    && Within(s.frequencyPenalty, -2.0, 2.0)
    && Within(s.presencePenalty, -2.0, 2.0)
    && (s.maxTokens.None? || s.maxTokens.value > 0.0)
    && Within(s.temperature, 0.0, 2.0)
    && Within(s.topP, 0.0, 1.0)
  }

  predicate PromptConfigValid(c: PromptConfig) {
    && c.llmParams.Some? && LlmSettingsValid(c.llmParams.value)
    && c.maxContextTokens.Some? && c.maxContextTokens.value > 0.0
    && c.messageItems.Some?
    && forall k :: 0 <= k < |c.messageItems.value| ==> PromptItemWellFormed(c.messageItems.value[k])
  }

  predicate PromptTemplateValid(t: PromptTemplate) {
    && t.uuid.Some?
    && t.metadata.Some? && t.metadata.value.name.Some?
    && t.promptConfig.Some? && PromptConfigValid(t.promptConfig.value)
  }

  // ---------------------------------------------------------------------------
  // Where validation reports an issue
  // ---------------------------------------------------------------------------

  /** The issue for an out-of-range temperature or top_p is reported at that key. */
  lemma SamplingOutOfRangeRejected(s: LlmSettings)
    ensures !Within(s.temperature, 0.0, 2.0) ==> IssueAt(LlmSettingsIssues([], s), [Field("temperature")])
    ensures !Within(s.topP, 0.0, 1.0) ==> IssueAt(LlmSettingsIssues([], s), [Field("top_p")])
  {
    var root: Path := [];
    var prefix :=
      Required(root + [Field("model")], s.model)
      + OptionalInRange(root + [Field("frequency_penalty")], s.frequencyPenalty, -2.0, 2.0)
      + OptionalInRange(root + [Field("presence_penalty")], s.presencePenalty, -2.0, 2.0)
      + PositiveNumber(root + [Field("max_tokens")], s.maxTokens, false);
    var temp := OptionalInRange(root + [Field("temperature")], s.temperature, 0.0, 2.0);
    var top := OptionalInRange(root + [Field("top_p")], s.topP, 0.0, 1.0);
    assert LlmSettingsIssues(root, s) == prefix + temp + top;
    assert root + [Field("temperature")] == [Field("temperature")];
    assert root + [Field("top_p")] == [Field("top_p")];
    if !Within(s.temperature, 0.0, 2.0) {
      assert (prefix + temp + top)[|prefix|] == temp[0];
    }
    if !Within(s.topP, 0.0, 1.0) {
      assert (prefix + temp + top)[|prefix| + |temp|] == top[0];
    }
  }

  /** Only the model is required: settings with nothing but a model pass. */
  lemma ModelAloneSuffices(model: string)
    ensures LlmSettingsIssues([], LlmSettings(Some(model), None, None, None, None, None, None)) == []
  {
  }

  /** Without a model, validation reports a missing key at "model", whatever else is set. */
  lemma MissingModelRejected(s: LlmSettings)
    requires s.model.None?
    ensures LlmSettingsIssues([], s)[0] == Issue([Field("model")], InvalidType)
  {
  }

  /** A non-positive context budget is rejected at maxContextTokens as an exclusive minimum of 0. */
  lemma ContextBudgetMustBePositive(path: Path, c: PromptConfig)
    requires c.maxContextTokens.Some? && c.maxContextTokens.value <= 0.0
    ensures Issue(path + [Field("maxContextTokens")], TooSmall(0.0, false)) in PromptConfigIssues(path, c)
  {
    var head := match c.llmParams
      case None => [Issue(path + [Field("llmParams")], InvalidType)]
      case Some(s) => LlmSettingsIssues(path + [Field("llmParams")], s);
    var mid := PositiveNumber(path + [Field("maxContextTokens")], c.maxContextTokens, true);
    var tail := match c.messageItems
      case None => [Issue(path + [Field("messageItems")], InvalidType)]
      case Some(items) => ItemsIssues(path + [Field("messageItems")], items, 0);
    assert PromptConfigIssues(path, c) == head + mid + tail;
    assert (head + mid + tail)[|head|] == mid[0];
  }

  /** A message item whose type is not "user" or "assistant" is rejected at its own index. */
  lemma {:induction false} BadItemTypeRejected(path: Path, items: seq<PromptItem>, offset: nat, k: nat)
    requires k < |items| && items[k].itemType.Some?
    requires items[k].itemType.value != "user" && items[k].itemType.value != "assistant"
    ensures Issue(path + [Element(offset + k), Field("type")], InvalidEnumValue) in ItemsIssues(path, items, offset)
    decreases k
  {
    var first := PromptItemIssues(path + [Element(offset)], items[0]);
    var rest := ItemsIssues(path, items[1..], offset + 1);
    var issue := Issue(path + [Element(offset + k), Field("type")], InvalidEnumValue);
    assert ItemsIssues(path, items, offset) == first + rest;
    if k == 0 {
      BadTypeReported(path + [Element(offset)], items[0]);
      assert path + [Element(offset)] + [Field("type")] == path + [Element(offset + k), Field("type")];
      assert issue in first;
    } else {
      BadItemTypeRejected(path, items[1..], offset + 1, k - 1);
      assert issue in rest;
    }
    assert issue in first + rest;
  }

  /** An item with a type outside the enum reports invalid_enum_value at its "type" key. */
  lemma BadTypeReported(path: Path, item: PromptItem)
    requires item.itemType.Some? && item.itemType.value != "user" && item.itemType.value != "assistant"
    ensures Issue(path + [Field("type")], InvalidEnumValue) in PromptItemIssues(path, item)
  {
    assert PromptItemIssues(path, item)[0] == Issue(path + [Field("type")], InvalidEnumValue);
  }

  // ---------------------------------------------------------------------------
  // The seeded templates
  // ---------------------------------------------------------------------------

  /** A seeded template: gpt-4o, 128000 context tokens, no message items. It passes the schema. */
  function SeedTemplate(uuid: string, en: string, ko: string, descriptionEn: string, descriptionKo: string)
    : (t: PromptTemplate)
    ensures PromptTemplateIssues(t) == []
    ensures t.uuid == Some(uuid)
    ensures t.metadata.Some? && t.metadata.value.name.Some?
    ensures var name := t.metadata.value.name.value;
            "en" in name && name["en"] == en && "ko" in name && name["ko"] == ko
  {
    var t := PromptTemplate(
      Some(uuid),
      Some(Metadata(
        Some(map["en" := en, "ko" := ko]),
        Some("narayo9"),
        Some(map["en" := descriptionEn, "ko" := descriptionKo]))),
      Some(PromptConfig(
        Some(LlmSettings(Some("gpt-4o"), None, None, None, None, None, None)),
        Some(128000.0),
        Some([]))));
    t
  }

  // The seeded templates' creator descriptions, in English and Korean.
  const BalancedDescriptionEn: string := "The character adjusts conversation length and occasionally uses an omniscient perspective."
  const BalancedDescriptionKo: string := "당신의 대화에 맞게 캐릭터가 적절히 대화 길이를 조절합니다. 종종 전지적 시점에서 이야기하기도 합니다."
  const NovelDescriptionEn: string := "The character speaks at length even if you speak briefly. Often tells stories from an omniscient perspective."
  const NovelDescriptionKo: string := "당신이 짧게 이야기해도 캐릭터는 길게 이야기합니다. 자주 전지적 시점에서 이야기합니다."
  const RealisticDescriptionEn: string := "It’s like a real conversation—hard to know what the character is really thinking."
  const RealisticDescriptionKo: string := "현실의 대화와 비슷합니다. 캐릭터의 속마음을 알기는 어렵습니다."

  /** The seeded "Balanced" template: it passes the schema. */
  function BalancedTemplate(): (t: PromptTemplate)
    ensures PromptTemplateIssues(t) == []
    ensures t.uuid == Some("69a20bb6-b091-44a4-85cd-f52f0b19f531")
    ensures t.metadata.Some? && t.metadata.value.name.Some?
    ensures "en" in t.metadata.value.name.value && "ko" in t.metadata.value.name.value
  {
    SeedTemplate(
      "69a20bb6-b091-44a4-85cd-f52f0b19f531", "Balanced", "밸런스",
      BalancedDescriptionEn, BalancedDescriptionKo)
  }

  /** The seeded "Novel" template: it passes the schema. */
  function NovelTemplate(): (t: PromptTemplate)
    ensures PromptTemplateIssues(t) == []
    ensures t.uuid == Some("d5ec1f11-1f44-4ca8-a52b-b7a1eaf6d98c")
    ensures t.metadata.Some? && t.metadata.value.name.Some?
    ensures "en" in t.metadata.value.name.value && "ko" in t.metadata.value.name.value
  {
    SeedTemplate(
      "d5ec1f11-1f44-4ca8-a52b-b7a1eaf6d98c", "Novel", "소설형",
      NovelDescriptionEn, NovelDescriptionKo)
  }

  /** The seeded "Realistic" template: it passes the schema. */
  function RealisticTemplate(): (t: PromptTemplate)
    ensures PromptTemplateIssues(t) == []
    ensures t.uuid == Some("2a418588-d1f1-4bd3-b52d-25d78564ee51")
    ensures t.metadata.Some? && t.metadata.value.name.Some?
    ensures "en" in t.metadata.value.name.value && "ko" in t.metadata.value.name.value
  {
    SeedTemplate(
      "2a418588-d1f1-4bd3-b52d-25d78564ee51", "Realistic", "현실형",
      RealisticDescriptionEn, RealisticDescriptionKo)
  }

  /**
   * `initialPromptTemplates`: Balanced, Novel and Realistic. Each meets the schema's bounds and
   * required keys, so it passes the schema; the uuids are pairwise distinct, and each is named
   * in English and Korean.
   */
  function InitialPromptTemplates(): (ts: seq<PromptTemplate>)
    ensures |ts| == 3
    ensures forall k :: 0 <= k < |ts| ==> PromptTemplateValid(ts[k])
    ensures forall j, k :: 0 <= j < k < |ts| ==> ts[j].uuid != ts[k].uuid
    ensures forall k :: 0 <= k < |ts| ==>
      ts[k].metadata.Some? && ts[k].metadata.value.name.Some?
      && "en" in ts[k].metadata.value.name.value && "ko" in ts[k].metadata.value.name.value
  {
    [BalancedTemplate(), NovelTemplate(), RealisticTemplate()]
  }
}
