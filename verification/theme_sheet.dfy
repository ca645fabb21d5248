/**
 * The theme step: a selection among the bundled themes and "custom", a commit that writes
 * the chosen bundled theme, and step changes on back and on a successful write.
 */
module ThemeSheet {
  import opened JsValues
  import opened ConfigModels
  import opened SetupControlButton
  import SetupPage

  /** The sheet's selection: a bundled theme, or the not-yet-supported custom upload. */
  datatype ThemeChoice = BundledChoice(id: BundledThemeId) | CustomChoice

  /** The callbacks of the sheet's buttons. */
  datatype ThemeAction = GoBack | Commit

  /** The segmented control's options: each bundled theme in registry order, then "custom". */
  function Options(themes: seq<BundledThemeId>): (options: seq<ThemeChoice>)
    ensures |options| == |themes| + 1
    ensures options[|themes|] == CustomChoice
    ensures forall k :: 0 <= k < |themes| ==> options[k] == BundledChoice(themes[k])
  {
    seq(|themes|, k requires 0 <= k < |themes| => BundledChoice(themes[k])) + [CustomChoice]
  }

  /** Over the registry's themes: theFruit, chocolate, then "custom"; every selection the sheet can hold is offered. */
  lemma RegistryOptions(c: ThemeChoice)
    ensures Options(BundledThemeIds) == [BundledChoice(TheFruit), BundledChoice(Chocolate), CustomChoice]
    ensures c in Options(BundledThemeIds)
  {
    var options := Options(BundledThemeIds);
    assert options == [options[0], options[1], options[2]];
    match c
    case BundledChoice(TheFruit) => assert options[0] == c;
    case BundledChoice(Chocolate) => assert options[1] == c;
    case CustomChoice => assert options[2] == c;
  }

  /** Every bundled theme is offered, and "custom" only as the last option. */
  lemma OptionsOfferEveryTheme(themes: seq<BundledThemeId>, c: ThemeChoice)
    ensures c in Options(themes) <==> c == CustomChoice || (c.BundledChoice? && c.id in themes)
    ensures forall k :: 0 <= k < |themes| ==> Options(themes)[k] != CustomChoice
  {
    var options := Options(themes);
    if c.BundledChoice? && c.id in themes {
      var k :| 0 <= k < |themes| && themes[k] == c.id;
      assert options[k] == c;
    }
  }

  /** "Back": a go-back button whose click runs the step decrement. */
  function BackProps(): (p: ButtonProps<ThemeAction>)
    ensures ButtonLabel(p) == GoBackLabel && Fired(p) == Some(GoBack)
  {
    Plain(Some(GoBack)).(goBack := true)
  }

  /** "Next" is disabled while "custom" is selected. */
  function NextProps(value: ThemeChoice): (p: ButtonProps<ThemeAction>)
    ensures ButtonLabel(p) == NextLabel
    ensures p.disabled <==> value == CustomChoice
  {
    Plain(Some(Commit)).(disabled := value == CustomChoice)
  }

  /** The write a commit issues: the bundled theme, or nothing for "custom". */
  function CommitPayload(value: ThemeChoice): (payload: Option<GlobalConfigPatch>)
    ensures payload.Some? <==> value.BundledChoice?
    ensures payload.Some? ==> payload.value == GlobalConfigPatch(Some(BundledTheme(value.id)))
  {
    match value
    case CustomChoice => None
    case BundledChoice(id) => Some(GlobalConfigPatch(Some(BundledTheme(id))))
  }

  /** The body under the control: an upload button for "custom", else the chosen theme's preview and description. */
  datatype ThemeBody = UploadPanel(button: ButtonProps<ThemeAction>) | Preview(theme: BundledThemeId)

  function Body(value: ThemeChoice): (body: ThemeBody)
    ensures body.Preview? <==> value.BundledChoice?
    ensures body.Preview? ==> body.theme == value.id
  {
    match value
    case CustomChoice => UploadPanel(Plain(None).(upload := true, custom := Some("themeContent.themes.custom.upload")))
    case BundledChoice(id) => Preview(id)
  }

  /** "Next" runs the commit exactly when a bundled theme is selected. */
  lemma NextEnabledIffBundled(value: ThemeChoice)
    ensures Fired(NextProps(value)) == (if value == CustomChoice then None else Some(Commit))
    ensures ButtonLabel(NextProps(value)) == NextLabel
  {
  }

  /** The custom panel's button shows its own text and opens the file picker. */
  lemma CustomPanelUploads()
    ensures Body(CustomChoice).UploadPanel?
    ensures ButtonLabel(Body(CustomChoice).button) == CustomText("themeContent.themes.custom.upload")
    ensures ClickHandler(Body(CustomChoice).button) == OpenFilePicker
  {
  }

  /** A mounted theme sheet: the selection, and the writes issued and not yet settled. */
  class ThemeSheet {
    var value: ThemeChoice
    var inFlight: seq<GlobalConfigPatch>

    constructor ()
      ensures value == BundledChoice(TheFruit) && inFlight == []
    {
      value := BundledChoice(TheFruit);
      inFlight := [];
    }

    /** The segmented control's `onChange`. */
    method Select(v: ThemeChoice)
      modifies this
      ensures value == v && inFlight == old(inFlight)
    {
      value := v;
    }

    /** "Back": one step back, unconditionally. */
    method ClickBack(w: SetupPage.SetupWizard)
      modifies w
      ensures w.step == old(w.step) - 1
    {
      if Fired(BackProps()) == Some(GoBack) {
        w.Retreat();
      }
    }

    /** "Next": issues the bundled-theme write unless "custom" is selected. Nothing guards a second click. */
    method ClickNext()
      modifies this
      ensures value == old(value)
      ensures inFlight == old(inFlight) + (if value == CustomChoice then [] else [CommitPayload(value).value])
    {
      if Fired(NextProps(value)) == Some(Commit) {
        var payload := CommitPayload(value);
        if payload.Some? {
          inFlight := inFlight + [payload.value];
        }
      }
    }

    /**
     * "Next" with the pending guard the conversation-style sheet has: nothing is issued while a
     * write is in flight, so at most one write is ever outstanding.
     */
    method ClickNextGuarded()
      modifies this
      ensures value == old(value)
      ensures old(inFlight) != [] ==> inFlight == old(inFlight)
      ensures old(inFlight) == [] ==> inFlight == (if value == CustomChoice then [] else [CommitPayload(value).value])
      ensures |old(inFlight)| <= 1 ==> |inFlight| <= 1
    {
      if inFlight == [] {
        ClickNext();
      }
    }

    /** The oldest write succeeds: its success callback moves the wizard one step forward. */
    method MutationSucceeded(w: SetupPage.SetupWizard)
      requires inFlight != []
      modifies this, w
      ensures inFlight == old(inFlight)[1..] && value == old(value)
      ensures w.step == old(w.step) + 1
    {
      inFlight := inFlight[1..];
      w.Advance();
    }
  }

  /** Two clicks on "next" before the first write settles advance the wizard by two steps. */
  method DoubleCommitAdvancesTwice(w: SetupPage.SetupWizard)
    modifies w
    ensures w.step == old(w.step) + 2
  {
    var sheet := new ThemeSheet();
    sheet.ClickNext();
    sheet.ClickNext();
    sheet.MutationSucceeded(w);
    sheet.MutationSucceeded(w);
  }

  /** With the guard, two clicks on "next" before the write settles issue one write and advance one step. */
  method GuardedDoubleCommitAdvancesOnce(w: SetupPage.SetupWizard)
    modifies w
    ensures w.step == old(w.step) + 1
  {
    var sheet := new ThemeSheet();
    sheet.ClickNextGuarded();
    sheet.ClickNextGuarded();
    assert |sheet.inFlight| == 1;
    sheet.MutationSucceeded(w);
    assert sheet.inFlight == [];
  }
}
