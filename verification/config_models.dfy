/**
 * The fields of the persisted global configuration that the setup wizard reads or writes.
 * The configuration repository and its full record are not part of this model.
 */
module ConfigModels {
  import opened JsValues

  /** The ids of the bundled themes, in the order the theme registry lists them. */
  datatype BundledThemeId = TheFruit | Chocolate

  const BundledThemeIds: seq<BundledThemeId> := [TheFruit, Chocolate]

  /** A theme selection as stored: `{type: "bundled", id}`. */
  datatype ThemeSetting = BundledTheme(id: BundledThemeId)

  datatype ConversationConfig = ConversationConfig(promptTemplateId: string, doTranslation: bool)

  datatype GlobalConfig = GlobalConfig(
    language: string,
    theme: ThemeSetting,
    conversationConfig: ConversationConfig)

  /** The payload of `updateGlobalConfig`: only the keys present are written. */
  datatype GlobalConfigPatch = GlobalConfigPatch(theme: Option<ThemeSetting>)

  /** The payload of `updateGlobalConversationConfig`: only the keys present are written. */
  datatype ConversationConfigPatch = ConversationConfigPatch(
    promptTemplateId: Option<string>,
    doTranslation: Option<bool>)

  /**
   * A conversation-config update read as a merge: every key the patch carries replaces
   * the stored value, every other key is kept.
   */
  function MergeConversationConfig(c: ConversationConfig, p: ConversationConfigPatch): ConversationConfig {
    ConversationConfig(
      if p.promptTemplateId.Some? then p.promptTemplateId.value else c.promptTemplateId,
      if p.doTranslation.Some? then p.doTranslation.value else c.doTranslation)
  }

  /** The global config after a conversation-config update; language and theme are untouched. */
  function UpdateConversationConfig(g: GlobalConfig, p: ConversationConfigPatch): GlobalConfig {
    g.(conversationConfig := MergeConversationConfig(g.conversationConfig, p))
  }
}
