# Setup wizard of the character-chat client, in Dafny

This project models the logic inside the onboarding wizard of a browser-based character-chat
client. The rest of the front end is view code and is not modelled.

- **The setup page** builds the wizard's sheets from four inputs: PWA install state, whether a
  stored config exists, whether an API key must be set up, and the current language. It also holds
  the step index that picks the sheet on screen, and it runs a one-off correction that switches
  translation off for English.
- **The sheet frame** (`components/Sheet.tsx`) draws footer controls by step number and opens a
  "start with defaults" confirmation modal.
- **The footer button** chooses its click handler and its label from its flags by priority. It
  also remembers the name of the file last picked through it.
- **The theme and conversation-style sheets** each hold a local selection. Each commits it as a
  config write, goes back one step, and goes forward one step when a write succeeds.
- **The data step** is a three-way radio choice in which "cloud" can never be picked.
- **The prompt-template schemas** are modelled as the list of validation issues they report on a
  raw object. The three seeded templates are checked against them.

One Dafny module per source file: `SetupPage`, `Sheet`, `SetupControlButton`, `ThemeSheet`,
`ConversationStyleSheet`, `DataContent`, `ChatModels`. `JsValues` holds JavaScript's `undefined`,
truthiness and out-of-bounds array reads. `ConfigModels` holds the config fields the wizard reads
and writes. Where the source updates state in place there is a class: `SetupWizard.step`,
`Sheet.allDefaultStartModalOpen`, `SetupControlButton.fileName`, `ThemeSheet.value`,
`ConversationStyleSheet.value`, `DataContent.selectedOption`. A sheet changes the wizard's step
through the `SetupWizard` object it is handed, as the source does through `setStep`.

Database writes are not performed. A sheet records each write it issues:
- `ThemeSheet.inFlight` lists every issued write, because nothing stops a second one;
- `ConversationStyleSheet.pending` mirrors `mutation.isPending`.

A success call pops the write and fires the source's `onSuccess`, which adds one to the step.

The page counts `stepsLength` from a list of flags and separately filters a list of elements.
The model keeps both lists (`Predicates`, `Candidates`) and proves that they agree. The order of
the filtered list is specified abstractly: React keys strictly ascend, and a sheet is present
exactly when its own condition holds. A uniqueness lemma then turns that into concrete lists.

## Model

| member | source | states |
|---|---|---|
| SetupPage.Predicates | src/routes/setup/page.tsx:47-57 | ten flags, and the flag at each sheet's key holds iff that sheet's own inclusion condition holds |
| SetupPage.CountTrue | src/routes/setup/page.tsx:47-58 | the count of true flags is at most the list length, and equals it iff every flag is true |
| SetupPage.Candidates | src/routes/setup/page.tsx:59-79 | ten slots lined up with the flags: slot i holds a sheet iff flag i holds, and that sheet's key is i |
| SetupPage.Compact | src/routes/setup/page.tsx:80 | `.filter(Boolean)` never lengthens the list |
| SetupPage.StepsLength | src/routes/setup/page.tsx:47-58 | `stepsLength`, counted from the flags, equals the length of the separately filtered element list |
| SetupPage.Steps | src/routes/setup/page.tsx:59-80 | included sheets appear in key order 0..9, each at most once |
| SetupPage.CompactCount | src/routes/setup/page.tsx:47-80 | when flag i holds iff element i is present, the filtered elements number exactly the true flags |
| SetupPage.CompactMember | src/routes/setup/page.tsx:80 | `.filter(Boolean)` keeps exactly the present elements |
| SetupPage.StepPresentIff | src/routes/setup/page.tsx:59-80 | each sheet is in the list iff its own condition holds: install iff not a PWA, API key iff needed, translate iff a config exists and the language differs from the default, theme/style/typing/persona iff a config exists |
| SetupPage.CompactKeyed | src/routes/setup/page.tsx:59-80 | filtering a list whose position i holds key base+i yields strictly ascending keys |
| SetupPage.AscendingUnique | src/routes/setup/page.tsx:59-80 | a key-ascending step list is determined by the sheets it holds |
| SetupPage.StepsStartWithWelcomeAndLanguage | src/routes/setup/page.tsx:60-67 | the list has at least three sheets: welcome at index 0, language at index 1, and the data sheet somewhere |
| SetupPage.LastElementIsLastStep | src/routes/setup/page.tsx:66 | the element at `stepsLength - 1` is Persona with a config, else the API-key sheet when needed, else Data |
| SetupPage.StepsWithoutConfig | src/routes/setup/page.tsx:52-57 | with no config the list is exactly welcome, language, [install], data, [API key] |
| SetupPage.InstallStepFlip | src/routes/setup/page.tsx:50 | turning `isPwa` off inserts exactly the install sheet at index 2 and keeps every other sheet in order |
| SetupPage.TranslationCorrection | src/routes/setup/page.tsx:34-40 | an update is issued iff the config is English with translation on, and it carries only `doTranslation: false` |
| SetupPage.TranslationCorrectionSettles | src/routes/setup/page.tsx:34-40 | once that update is stored no further correction is issued, and language, theme and template id are unchanged |
| SetupPage.SetupWizard.constructor | src/routes/setup/page.tsx:25 | the step index starts at 0 |
| SetupPage.InitialStepShowsWelcome | src/routes/setup/page.tsx:25 | index 0 shows the welcome sheet, for every input |
| SetupPage.SetupWizard.Rendered | src/routes/setup/page.tsx:85 | `steps[step]` shows a sheet iff 0 <= step < `stepsLength`, and that sheet is included |
| SetupPage.OffListShowsNothing | src/routes/setup/page.tsx:85 | an index below 0 or at least `stepsLength` shows nothing; it is never clamped |
| SetupPage.SetupWizard.Advance | src/components/Sheet.tsx:66 | `setStep((prev) => prev + 1)` adds one to the step |
| SetupPage.SetupWizard.Retreat | src/components/Sheet.tsx:80-83 | `setStep((prev) => prev - 1)` subtracts one from the step |
| SetupPage.SetupWizard.GoToLastStep | src/routes/setup/page.tsx:66 | the step becomes `stepsLength - 1` from anywhere, and the last sheet is shown |
| ChatModels.OptionalInRange | src/domain/chat/models.ts:11-15 | an optional bounded number reports no issue iff it is absent or lies in [lo, hi] |
| ChatModels.PositiveNumber | src/domain/chat/models.ts:13 | `positive()` reports no issue iff the value is present and above 0, or absent and optional |
| ChatModels.PromptItemIssues | src/domain/chat/models.ts:4-7 | an item has no issues iff its type is "user" or "assistant" and it has content |
| ChatModels.ItemsIssues | src/domain/chat/models.ts:29 | a message list has no issues iff every item has type "user" or "assistant" and has content |
| ChatModels.LlmSettingsIssues | src/domain/chat/models.ts:9-18 | LLM settings pass iff model is present, penalties lie in [-2, 2], max_tokens is positive, temperature lies in [0, 2] and top_p lies in [0, 1], each only when present |
| ChatModels.PromptConfigIssues | src/domain/chat/models.ts:26-30 | a prompt config passes iff its settings pass, maxContextTokens > 0 and every message item is well formed |
| ChatModels.MetadataIssues | src/domain/chat/models.ts:20-24 | metadata passes iff its name is present; the creator fields are optional |
| ChatModels.PromptTemplateIssues | src/domain/chat/models.ts:32-36 | a template passes iff it has a uuid, a name and a valid prompt config |
| ChatModels.SamplingOutOfRangeRejected | src/domain/chat/models.ts:14-15 | a temperature outside [0, 2] or a top_p outside [0, 1] is reported at that key |
| ChatModels.ModelAloneSuffices | src/domain/chat/models.ts:9-18 | settings with only a model pass; every other key may be absent |
| ChatModels.MissingModelRejected | src/domain/chat/models.ts:10 | without a model the first issue is a missing key at "model" |
| ChatModels.ContextBudgetMustBePositive | src/domain/chat/models.ts:28 | a maxContextTokens <= 0 is reported as below an exclusive minimum of 0 |
| ChatModels.BadItemTypeRejected | src/domain/chat/models.ts:5 | an item whose type is not "user" or "assistant" is reported as an invalid enum value at its own index |
| ChatModels.SeedTemplate | src/domain/chat/models.ts:42-64 | a template of the seeded shape (gpt-4o, 128000 context tokens, no message items) passes the schema, keeps its uuid, and is named `en` and `ko` as given |
| ChatModels.BalancedTemplate | src/domain/chat/models.ts:43-63 | the "Balanced" template passes the schema, has uuid 69a20bb6-…, and is named in `en` and `ko` |
| ChatModels.NovelTemplate | src/domain/chat/models.ts:64-84 | the "Novel" template passes the schema, has uuid d5ec1f11-…, and is named in `en` and `ko` |
| ChatModels.RealisticTemplate | src/domain/chat/models.ts:85-105 | the "Realistic" template passes the schema, has uuid 2a418588-…, and is named in `en` and `ko` |
| ChatModels.InitialPromptTemplates | src/domain/chat/models.ts:42-106 | three templates, each meeting every bound and required key (so passing the schema), with pairwise distinct uuids, each named in both `en` and `ko` |
| Sheet.FooterFor | src/components/Sheet.tsx:64-94 | the arrow alone iff step is 0; otherwise the link iff step is 1, a "back" button, and a "start" button at step 7 or else "next" |
| Sheet.Shown | src/components/Sheet.tsx:58-94 | the arrow is shown iff step is 0, the link iff step is 1, "back" and the forward control iff step is not 0, the modal buttons iff the modal is open |
| Sheet.ActionOf | src/components/Sheet.tsx:36-94 | "back" alone decrements; the arrow, and "next" when step is not 7 and not disabled, increment; the link opens and the modal's left button closes the modal; the rest run nothing |
| Sheet.Transition | src/components/Sheet.tsx:58-94 | a click moves the step by at most one, and never moves the step and the modal flag together |
| Sheet.StepZeroOnlyArrow | src/components/Sheet.tsx:65-66 | at step 0 the footer is the next arrow alone, and it moves to step 1 |
| Sheet.StartWithDefaultOnlyAtStepOne | src/components/Sheet.tsx:53-55 | the "start with defaults" link is shown iff step is 1, and it opens the modal without moving |
| Sheet.BackDecrements | src/components/Sheet.tsx:80-83 | wherever "back" is shown (step != 0) it moves one step back |
| Sheet.StepSevenStartButton | src/components/Sheet.tsx:84-85 | at step 7 the forward control is a start button whose click changes nothing |
| Sheet.ForwardIncrements | src/components/Sheet.tsx:86-90 | at any other step past 0, "next" moves one step forward unless `btnDisabled` holds |
| Sheet.ModalButtons | src/components/Sheet.tsx:36-41 | the modal's left button closes it; the right button has no handler and changes nothing |
| Sheet.Sheet.constructor | src/components/Sheet.tsx:51-52 | the modal starts closed |
| Sheet.Sheet.Click | src/components/Sheet.tsx:58-95 | a click on a shown control changes the wizard's step and the modal flag as the transition table says, and nothing else |
| SetupControlButton.ClickHandler | src/components/macos/SetupControlButton.tsx:46-56 | a disabled button runs nothing whatever its flags; otherwise the file picker opens iff upload is set without goBack or start, else the callback runs |
| SetupControlButton.Fired | src/components/macos/SetupControlButton.tsx:46-56 | a click runs the caller's callback iff the button is enabled, is not a plain upload button, and has a callback |
| SetupControlButton.ButtonLabel | src/components/macos/SetupControlButton.tsx:59-67 | label priority goBack > start > upload without custom text > custom text > "next", each as an iff on the flags |
| SetupControlButton.UploadLabelOpensPicker | src/components/macos/SetupControlButton.tsx:46-67 | an enabled button labelled "upload" opens the file picker |
| SetupControlButton.CustomUploadOpensPicker | src/components/macos/SetupControlButton.tsx:46-67 | an upload button with custom text shows that text but still opens the file picker |
| SetupControlButton.DisabledRunsNothing | src/components/macos/SetupControlButton.tsx:46-48 | a disabled button fires no callback |
| SetupControlButton.SetupControlButton.constructor | src/components/macos/SetupControlButton.tsx:25 | the file name starts null |
| SetupControlButton.SetupControlButton.HandleFileChange | src/components/macos/SetupControlButton.tsx:32-37 | the first picked file's name replaces the slot; an empty or missing selection leaves it unchanged, so a name once set is never cleared |
| SetupControlButton.SetupControlButton.DisplayedFileName | src/components/macos/SetupControlButton.tsx:70-74 | the file name is shown iff it is set and non-empty |
| ThemeSheet.Options | src/routes/setup/sheets/ThemeSheet.tsx:40-50 | the options are each bundled theme in order, then "custom" last |
| ThemeSheet.OptionsOfferEveryTheme | src/routes/setup/sheets/ThemeSheet.tsx:40-50 | a choice is offered iff it is "custom" or a bundled theme, and "custom" is only last |
| ThemeSheet.RegistryOptions | src/routes/setup/sheets/ThemeSheet.tsx:40-50 | over the registry's themes the options are theFruit, chocolate, "custom", and every selection the sheet can hold is among them |
| ThemeSheet.BackProps | src/routes/setup/sheets/ThemeSheet.tsx:79-82 | "back" is a go-back button whose click runs the step decrement |
| ThemeSheet.NextProps | src/routes/setup/sheets/ThemeSheet.tsx:83-84 | "next" is labelled "next" and is disabled iff "custom" is selected |
| ThemeSheet.CommitPayload | src/routes/setup/sheets/ThemeSheet.tsx:85-92 | a commit writes iff the selection is bundled, and writes `theme: {type: "bundled", id: value}` |
| ThemeSheet.Body | src/routes/setup/sheets/ThemeSheet.tsx:53-73 | the bundled theme's preview and description are looked up iff the selection is not "custom" |
| ThemeSheet.NextEnabledIffBundled | src/routes/setup/sheets/ThemeSheet.tsx:83-93 | "next" is disabled iff "custom" is selected, and otherwise runs the commit |
| ThemeSheet.CustomPanelUploads | src/routes/setup/sheets/ThemeSheet.tsx:53-59 | the custom panel's button shows its custom text and opens the file picker |
| ThemeSheet.ThemeSheet.constructor | src/routes/setup/sheets/ThemeSheet.tsx:21-23 | the selection starts at "theFruit" and nothing is in flight |
| ThemeSheet.ThemeSheet.Select | src/routes/setup/sheets/ThemeSheet.tsx:51 | changing the option sets the selection and nothing else |
| ThemeSheet.ThemeSheet.ClickBack | src/routes/setup/sheets/ThemeSheet.tsx:79-82 | "back" moves one step back |
| ThemeSheet.ThemeSheet.ClickNext | src/routes/setup/sheets/ThemeSheet.tsx:83-93 | "next" appends the bundled-theme write unless "custom" is selected, with no pending guard |
| ThemeSheet.ThemeSheet.MutationSucceeded | src/routes/setup/sheets/ThemeSheet.tsx:25-30 | a successful write moves exactly one step forward |
| ThemeSheet.DoubleCommitAdvancesTwice | src/routes/setup/sheets/ThemeSheet.tsx:25-93 | two clicks on "next" before the first write settles advance the wizard two steps |
| ThemeSheet.ThemeSheet.ClickNextGuarded | src/routes/setup/sheets/ThemeSheet.tsx:83-93 | "next" with a pending guard: nothing is issued while a write is in flight, otherwise the bundled write; at most one write is ever outstanding |
| ThemeSheet.GuardedDoubleCommitAdvancesOnce | src/routes/setup/sheets/ThemeSheet.tsx:25-93 | with the guard, two clicks before the write settles issue one write and advance one step |
| ConversationStyleSheet.InitialTemplates | src/routes/setup/sheets/ConversationStyleSheet.tsx:37-43 | the query keeps exactly the templates with a truthy `isInitial` |
| ConversationStyleSheet.InitialTemplatesKeepOrder | src/routes/setup/sheets/ConversationStyleSheet.tsx:37-43 | the filter keeps stored order: filtering a concatenation concatenates the filtered parts |
| ConversationStyleSheet.OptionValues | src/routes/setup/sheets/ConversationStyleSheet.tsx:113-122 | the options are the initial templates' uuids in stored order, then "custom" last |
| ConversationStyleSheet.OptionValuesMember | src/routes/setup/sheets/ConversationStyleSheet.tsx:113-122 | a value is offered iff it is "custom" or the uuid of a stored initial template |
| ConversationStyleSheet.ControlBar | src/routes/setup/sheets/ConversationStyleSheet.tsx:111-126 | the control appears iff the template query has delivered |
| ConversationStyleSheet.CommitPayload | src/routes/setup/sheets/ConversationStyleSheet.tsx:76-84 | a commit writes iff no write is pending and the selection is not "custom", and writes exactly `{promptTemplateId: value}` |
| ConversationStyleSheet.Body | src/routes/setup/sheets/ConversationStyleSheet.tsx:127-146 | "custom" shows the upload form instead of the selected template's description |
| ConversationStyleSheet.CustomFormHasTwoUploads | src/routes/setup/sheets/ConversationStyleSheet.tsx:49-64 | the custom form has two rows, each an upload button that opens the file picker |
| ConversationStyleSheet.BackProps | src/routes/setup/sheets/ConversationStyleSheet.tsx:70-73 | "back" is a go-back button whose click runs the step decrement |
| ConversationStyleSheet.NextProps | src/routes/setup/sheets/ConversationStyleSheet.tsx:74-75 | "next" is labelled "next" and is disabled iff "custom" is selected |
| ConversationStyleSheet.NextEnabledIffNotCustom | src/routes/setup/sheets/ConversationStyleSheet.tsx:74-85 | "next" runs the commit iff "custom" is not selected |
| ConversationStyleSheet.ConversationStyleSheet.constructor | src/routes/setup/sheets/ConversationStyleSheet.tsx:25-27 | the selection starts at the stored `promptTemplateId`, with no write pending |
| ConversationStyleSheet.ConversationStyleSheet.Select | src/routes/setup/sheets/ConversationStyleSheet.tsx:124 | changing the option sets the selection and nothing else |
| ConversationStyleSheet.ConversationStyleSheet.ClickBack | src/routes/setup/sheets/ConversationStyleSheet.tsx:70-73 | "back" moves one step back |
| ConversationStyleSheet.ConversationStyleSheet.ClickNext | src/routes/setup/sheets/ConversationStyleSheet.tsx:74-85 | "next" issues the write only when none is pending and the selection is not "custom"; a pending write is left as it is |
| ConversationStyleSheet.ConversationStyleSheet.MutationSucceeded | src/routes/setup/sheets/ConversationStyleSheet.tsx:28-34 | a successful write clears the pending flag and moves exactly one step forward |
| ConversationStyleSheet.NoDoubleSubmit | src/routes/setup/sheets/ConversationStyleSheet.tsx:76-84 | two clicks before the write settles issue one write and advance one step |
| DataContent.Indicator | src/routes/setup/contents/DataContent.tsx:132-138 | the indicator is the selected style iff selected, the disabled style iff unselected and disabled, and otherwise the plain style |
| DataContent.Rows | src/routes/setup/contents/DataContent.tsx:158-174 | three rows; a row is disabled iff it is cloud, and has a click handler iff it is not cloud |
| DataContent.ExactlyOneSelected | src/routes/setup/contents/DataContent.tsx:158-174 | exactly one of the three options reports itself selected, namely the selected one |
| DataContent.DataContent.constructor | src/routes/setup/contents/DataContent.tsx:147 | the selection starts at "default" |
| DataContent.DataContent.ClickOption | src/routes/setup/contents/DataContent.tsx:148-150 | clicking "default" or "local" selects exactly that option; "cloud" has no handler, so it is never selected |
| DataContent.DataContent.CloudDrawnDisabled | src/routes/setup/contents/DataContent.tsx:168-174 | in every reachable state the cloud option is unselected and drawn with the disabled style |

## Left out

- Rendering, markup, styles, tooltip and bubble positioning, and animation are not modelled. Neither are i18n calls: labels and texts appear as their translation keys.
- Database access, live queries and the config repository are not modelled. `src/domain/config/` and `src/locales/models.ts` are not part of this model. `DefaultLanguage` is therefore an input of `SetupEnv`.
- Write failures are not modelled: an issued write either stays in flight or succeeds.
- `TranslationCorrectionSettles` treats `updateGlobalConversationConfig` as a field-wise merge. That repository function is not shown.
- `prefetchBundledThemes` and the theme registry's concurrent construction are not modelled. Their record order (theFruit, then chocolate) is the constant `BundledThemeIds`.
- The router table and the non-core content panels are not modelled.
- Sheet: `components/Sheet.tsx` imports its footer button from `components/SetupControlButton`, which is not part of this model. That button is assumed to dispatch clicks and choose labels as `components/macos/SetupControlButton.tsx` does (disabled, then goBack, then start, then upload, then the callback). `BackDecrements`, `StepSevenStartButton`, `ForwardIncrements`, `ActionOf` and `Sheet.Click` rest on that assumption.
- File reading and upload are not modelled; only the picked file's name is kept. Opening the picker through the input's ref is abstracted as the `OpenFilePicker` handler.
- Schema inputs of the wrong JavaScript type are not modelled: a key is either absent or holds a value of its declared type. Numbers are reals, not IEEE doubles.
- `translatableStringSchema` is not shown, so any present name map passes. The `logit_bias_raw` key, which accepts any object, is left out.
- Sheet.Sheet.Click: footer controls stay clickable while the modal is open. Whether the modal's overlay blocks those clicks is layout, and it is not modelled.
- ThemeSheet.ThemeSheet.MutationSucceeded and ConversationStyleSheet.ConversationStyleSheet.MutationSucceeded: writes settle in the order they were issued.

## Findings

| source | as written | input that shows it | evidently intended | confidence | as-written member | corrected member |
|---|---|---|---|---|---|---|
| src/routes/setup/sheets/ThemeSheet.tsx:83-93 | "next" calls `mutation.mutate` with no `isPending` check, and the button is disabled only for "custom" | two clicks on "next" with theFruit selected, before the first write settles: two writes are issued and `onSuccess` runs twice, so the step moves past the conversation-style sheet | commit disabled while a write is in flight, as ConversationStyleSheet.tsx:77 guards it | medium; not executed | ThemeSheet.DoubleCommitAdvancesTwice | ThemeSheet.GuardedDoubleCommitAdvancesOnce |
