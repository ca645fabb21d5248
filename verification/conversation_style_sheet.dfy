/**
 * The conversation-style step: a selection among the seeded prompt templates and "custom",
 * a commit guarded against double submission, and step changes on back and on success.
 */
module ConversationStyleSheet {
  import opened JsValues
  import opened ConfigModels
  import opened SetupControlButton
  import SetupPage

  /** A stored prompt template, as far as this sheet reads it. */
  datatype TemplateRow = TemplateRow(uuid: string, isInitial: Option<bool>)

  const CustomValue: string := "custom"

  /** The templates whose `isInitial` flag is truthy, in stored order. */
  function InitialTemplates(rows: seq<TemplateRow>): (initial: seq<TemplateRow>)
    ensures |initial| <= |rows|
    ensures forall t :: t in initial <==> t in rows && BoolTruthy(t.isInitial)
  {
    if rows == [] then []
    else (if BoolTruthy(rows[0].isInitial) then [rows[0]] else []) + InitialTemplates(rows[1..])
  }

  /** The filter keeps stored order: filtering a concatenation concatenates the filtered parts. */
  lemma {:induction false} InitialTemplatesKeepOrder(a: seq<TemplateRow>, b: seq<TemplateRow>)
    ensures InitialTemplates(a + b) == InitialTemplates(a) + InitialTemplates(b)
  {
    if a != [] {
      assert (a + b)[1..] == a[1..] + b;
      InitialTemplatesKeepOrder(a[1..], b);
    } else {
      assert a + b == b;
    }
  }

  /** The segmented control's values: the initial templates' uuids, then "custom". */
  function OptionValues(rows: seq<TemplateRow>): (values: seq<string>)
    ensures |values| == |InitialTemplates(rows)| + 1 && values[|values| - 1] == CustomValue
    ensures forall k :: 0 <= k < |values| - 1 ==> values[k] == InitialTemplates(rows)[k].uuid
  {
    var initial := InitialTemplates(rows);
    seq(|initial|, k requires 0 <= k < |initial| => initial[k].uuid) + [CustomValue]
  }

  /** A value is offered exactly when it is "custom" or the uuid of an initial template. */
  lemma OptionValuesMember(rows: seq<TemplateRow>, v: string)
    ensures v in OptionValues(rows) <==>
      v == CustomValue || exists t :: t in rows && BoolTruthy(t.isInitial) && t.uuid == v
  {
    var initial := InitialTemplates(rows);
    var values := OptionValues(rows);
    if v in values && v != CustomValue {
      var k :| 0 <= k < |values| && values[k] == v;
      assert k < |initial|;
      assert initial[k] in initial;
    }
    if exists t :: t in rows && BoolTruthy(t.isInitial) && t.uuid == v {
      var t :| t in rows && BoolTruthy(t.isInitial) && t.uuid == v;
      assert t in initial;
      var k :| 0 <= k < |initial| && initial[k] == t;
      assert values[k] == v;
    }
  }

  /** The control is shown only once the live query has delivered the templates. */
  function ControlBar(loaded: Option<seq<TemplateRow>>): (bar: Option<seq<string>>)
    ensures bar.Some? <==> loaded.Some?
    ensures bar.Some? ==> bar.value == OptionValues(loaded.value)
  {
    match loaded
    case None => None
    case Some(rows) => Some(OptionValues(rows))
  }

  datatype StyleAction = GoBack | Commit

  /** "Back": a go-back button whose click runs the step decrement. */
  function BackProps(): (p: ButtonProps<StyleAction>)
    ensures ButtonLabel(p) == GoBackLabel && Fired(p) == Some(GoBack)
  {
    Plain(Some(GoBack)).(goBack := true)
  }

  /** "Next" is disabled while "custom" is selected. */
  function NextProps(value: string): (p: ButtonProps<StyleAction>)
    ensures ButtonLabel(p) == NextLabel
    ensures p.disabled <==> value == CustomValue
  {
    Plain(Some(Commit)).(disabled := value == CustomValue)
  }

  /** The write a commit issues: only when no write is pending and the selection is not "custom". */
  function CommitPayload(isPending: bool, value: string): (payload: Option<ConversationConfigPatch>)
    ensures payload.Some? <==> !isPending && value != CustomValue
    ensures payload.Some? ==> payload.value == ConversationConfigPatch(Some(value), None)
  {
    if !isPending && value != CustomValue then Some(ConversationConfigPatch(Some(value), None)) else None
  }

  /** One row of the custom-style upload form. */
  datatype FormRow = FormRow(title: string, description: string, action: ButtonProps<StyleAction>)

  /** The body under the control: the selected template's description, or the two upload rows for "custom". */
  datatype StyleBody = TemplatePreview(templateId: string) | CustomForm(rows: seq<FormRow>)

  function Body(value: string): (body: StyleBody)
    ensures body.CustomForm? <==> value == CustomValue
    ensures body.TemplatePreview? ==> body.templateId == value
  {
    if value != CustomValue then TemplatePreview(value)
    else CustomForm([
      FormRow("conversationStyleContent.styles.custom.styleFile.name",
              "conversationStyleContent.styles.custom.styleFile.description",
              Plain(None).(upload := true)),
      FormRow("conversationStyleContent.styles.custom.moduleFile.name",
              "conversationStyleContent.styles.custom.moduleFile.description",
              Plain(None).(upload := true))])
  }

  /** "Custom" shows two form rows, each an upload button that opens the file picker. */
  lemma CustomFormHasTwoUploads()
    ensures |Body(CustomValue).rows| == 2
    ensures forall k :: 0 <= k < 2 ==>
      ButtonLabel(Body(CustomValue).rows[k].action) == UploadLabel
      && ClickHandler(Body(CustomValue).rows[k].action) == OpenFilePicker
  {
  }

  /** "Next" runs the commit exactly when the selection is not "custom". */
  lemma NextEnabledIffNotCustom(value: string)
    ensures Fired(NextProps(value)) == (if value == CustomValue then None else Some(Commit))
  {
  }

  /** A mounted conversation-style sheet: the selection and the pending write, if any. */
  class ConversationStyleSheet {
    var value: string
    var pending: Option<ConversationConfigPatch>

    /** The selection starts at the stored template id. */
    constructor (config: GlobalConfig)
      ensures value == config.conversationConfig.promptTemplateId && pending == None
    {
      value := config.conversationConfig.promptTemplateId;
      pending := None;
    }

    method Select(v: string)
      modifies this
      ensures value == v && pending == old(pending)
    {
      value := v;
    }

    /** "Back": one step back, unconditionally. */
    method ClickBack(w: SetupPage.SetupWizard)
      modifies w
      ensures w.step == old(w.step) - 1
    {
      if Fired(BackProps()) == Some(GoBack) {
        w.Retreat();
      }
    }

    /** "Next": issues `{promptTemplateId: value}` unless a write is pending or "custom" is selected. */
    method ClickNext()
      modifies this
      ensures value == old(value)
      ensures old(pending).Some? ==> pending == old(pending)
      ensures old(pending).None? ==> pending == CommitPayload(false, value)
    {
      if Fired(NextProps(value)) == Some(Commit) {
        var payload := CommitPayload(pending.Some?, value);
        if payload.Some? {
          pending := payload;
        }
      }
    }

    /** The pending write succeeds: the wizard moves one step forward. */
    method MutationSucceeded(w: SetupPage.SetupWizard)
      requires pending.Some?
      modifies this, w
      ensures pending == None && value == old(value)
      ensures w.step == old(w.step) + 1
    {
      pending := None;
      w.Advance();
    }
  }

  /** Clicking "next" twice before the write settles issues one write and advances one step. */
  method NoDoubleSubmit(config: GlobalConfig, w: SetupPage.SetupWizard)
    requires config.conversationConfig.promptTemplateId != CustomValue
    modifies w
    ensures w.step == old(w.step) + 1
  {
    var sheet := new ConversationStyleSheet(config);
    sheet.ClickNext();
    sheet.ClickNext();
    assert sheet.pending == Some(ConversationConfigPatch(Some(config.conversationConfig.promptTemplateId), None));
    sheet.MutationSucceeded(w);
  }
}
