/**
 * The standalone sheet frame: its footer controls depend on the step number, and a
 * "start with defaults" link opens a confirmation modal.
 */
module Sheet {
  import opened JsValues
  import opened SetupControlButton
  import SetupPage

  /** The effects the footer's callbacks have. */
  datatype SheetAction = DecrementStep | IncrementStep | OpenModal | CloseModal

  /** Everything on the frame a user can click. */
  datatype Control =
    | NextArrow
    | StartWithDefaultLink
    | BackButton
    | ForwardButton
    | ModalCancelButton
    | ModalConfirmButton

  function BackProps(): ButtonProps<SheetAction> {
    Plain(Some(DecrementStep)).(goBack := true)
  }

  /** At step 7 a start button with no callback; elsewhere "next", disabled by `btnDisabled`. */
  function ForwardProps(step: int, btnDisabled: bool): ButtonProps<SheetAction> {
    if step == 7 then Plain(None).(start := true)
    else Plain(Some(IncrementStep)).(disabled := btnDisabled)
  }

  datatype Footer =
    | ArrowOnly
    | Controls(showsStartWithDefault: bool, back: ButtonProps<SheetAction>, forward: ButtonProps<SheetAction>)

  /** The footer by step: the arrow alone at step 0; otherwise the link (step 1 only), "back", and "start" at step 7 or else "next". */
  function FooterFor(step: int, btnDisabled: bool): (footer: Footer)
    ensures footer.ArrowOnly? <==> step == 0
    ensures footer.Controls? ==>
      && (footer.showsStartWithDefault <==> step == 1)
      && ButtonLabel(footer.back) == GoBackLabel
      && ButtonLabel(footer.forward) == (if step == 7 then StartLabel else NextLabel)
  {
    if step == 0 then ArrowOnly
    else Controls(step == 1, BackProps(), ForwardProps(step, btnDisabled))
  }

  /** Whether a control is on screen. */
  function Shown(step: int, btnDisabled: bool, modalOpen: bool, c: Control): (shown: bool)
    ensures c == NextArrow ==> (shown <==> step == 0)
    ensures c == StartWithDefaultLink ==> (shown <==> step == 1)
    ensures c == BackButton || c == ForwardButton ==> (shown <==> step != 0)
    ensures c == ModalCancelButton || c == ModalConfirmButton ==> (shown <==> modalOpen)
  {
    match c
    case NextArrow => FooterFor(step, btnDisabled).ArrowOnly?
    case StartWithDefaultLink =>
      FooterFor(step, btnDisabled).Controls? && FooterFor(step, btnDisabled).showsStartWithDefault
    case BackButton => FooterFor(step, btnDisabled).Controls?
    case ForwardButton => FooterFor(step, btnDisabled).Controls?
    case ModalCancelButton => modalOpen
    case ModalConfirmButton => modalOpen
  }

  /** The callback a click on a shown control runs, if any. */
  function ActionOf(step: int, btnDisabled: bool, c: Control): (action: Option<SheetAction>)
    ensures action == Some(DecrementStep) <==> c == BackButton
    ensures action == Some(IncrementStep) <==> c == NextArrow || (c == ForwardButton && step != 7 && !btnDisabled)
    ensures action == Some(OpenModal) <==> c == StartWithDefaultLink
    ensures action == Some(CloseModal) <==> c == ModalCancelButton
    ensures action == None <==> c == ModalConfirmButton || (c == ForwardButton && (step == 7 || btnDisabled))
  {
    match c
    case NextArrow => Some(IncrementStep)
    case StartWithDefaultLink => Some(OpenModal)
    case BackButton => Fired(BackProps())
    case ForwardButton => Fired(ForwardProps(step, btnDisabled))
    case ModalCancelButton => Some(CloseModal)
    case ModalConfirmButton => None
  }

  /** The step and modal flag after a callback runs. */
  function Perform(step: int, modalOpen: bool, a: Option<SheetAction>): (int, bool) {
    match a
    case None => (step, modalOpen)
    case Some(DecrementStep) => (step - 1, modalOpen)
    case Some(IncrementStep) => (step + 1, modalOpen)
    case Some(OpenModal) => (step, true)
    case Some(CloseModal) => (step, false)
  }

  /** The effect of clicking a control: the step moves by at most one, and never together with the modal flag. */
  function Transition(step: int, btnDisabled: bool, modalOpen: bool, c: Control): (next: (int, bool))
    ensures step - 1 <= next.0 <= step + 1
    ensures next.0 == step || next.1 == modalOpen
  {
    Perform(step, modalOpen, ActionOf(step, btnDisabled, c))
  }

  /** At step 0 the footer is the arrow alone, and the arrow moves to step 1. */
  lemma StepZeroOnlyArrow(btnDisabled: bool, modalOpen: bool, c: Control)
    requires c != ModalCancelButton && c != ModalConfirmButton
    ensures Shown(0, btnDisabled, modalOpen, c) <==> c == NextArrow
    ensures Transition(0, btnDisabled, modalOpen, NextArrow) == (1, modalOpen)
  {
  }

  /** The "start with defaults" link is shown only at step 1, and it opens the modal without moving. */
  lemma StartWithDefaultOnlyAtStepOne(step: int, btnDisabled: bool, modalOpen: bool)
    ensures Shown(step, btnDisabled, modalOpen, StartWithDefaultLink) <==> step == 1
    ensures Transition(step, btnDisabled, modalOpen, StartWithDefaultLink) == (step, true)
  {
  }

  /** Wherever it is shown, "back" moves one step back. */
  lemma BackDecrements(step: int, btnDisabled: bool, modalOpen: bool)
    requires Shown(step, btnDisabled, modalOpen, BackButton)
    ensures step != 0
    ensures Transition(step, btnDisabled, modalOpen, BackButton) == (step - 1, modalOpen)
  {
  }

  /** At step 7 the forward control is a start button that changes nothing. */
  lemma StepSevenStartButton(btnDisabled: bool, modalOpen: bool)
    ensures ButtonLabel(ForwardProps(7, btnDisabled)) == StartLabel
    ensures Transition(7, btnDisabled, modalOpen, ForwardButton) == (7, modalOpen)
  {
  }

  /** At any other step past 0 "next" moves one step forward, unless `btnDisabled` holds. */
  lemma ForwardIncrements(step: int, btnDisabled: bool, modalOpen: bool)
    requires step != 0 && step != 7
    ensures ButtonLabel(ForwardProps(step, btnDisabled)) == NextLabel
    ensures Transition(step, btnDisabled, modalOpen, ForwardButton)
            == (if btnDisabled then step else step + 1, modalOpen)
  {
  }

  /** The modal's left button closes it; its right button has no handler. */
  lemma ModalButtons(step: int, btnDisabled: bool)
    ensures Transition(step, btnDisabled, true, ModalCancelButton) == (step, false)
    ensures Transition(step, btnDisabled, true, ModalConfirmButton) == (step, true)
  {
  }

  /** A mounted sheet frame: the modal flag is its own; the step belongs to the wizard. */
  class Sheet {
    var allDefaultStartModalOpen: bool
    const btnDisabled: bool

    constructor (btnDisabled: bool)
      ensures !allDefaultStartModalOpen && this.btnDisabled == btnDisabled
    {
      allDefaultStartModalOpen := false;
      this.btnDisabled := btnDisabled;
    }

    /** A click on a shown control: the wizard's step and the modal flag change as Transition says. */
    method Click(c: Control, w: SetupPage.SetupWizard)
      requires Shown(w.step, btnDisabled, allDefaultStartModalOpen, c)
      modifies this, w
      ensures (w.step, allDefaultStartModalOpen)
              == Transition(old(w.step), btnDisabled, old(allDefaultStartModalOpen), c)
    {
      match ActionOf(w.step, btnDisabled, c)
      case None =>
      case Some(DecrementStep) => w.Retreat();
      case Some(IncrementStep) => w.Advance();
      case Some(OpenModal) => allDefaultStartModalOpen := true;
      case Some(CloseModal) => allDefaultStartModalOpen := false;
    }
  }
}
