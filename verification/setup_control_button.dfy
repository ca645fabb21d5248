/**
 * The wizard's footer button: which handler a click runs and which label it shows, chosen
 * from its flags by priority, and the file name it remembers after a file is picked.
 */
module SetupControlButton {
  import opened JsValues

  /** The button's props; `A` is the caller's callback, kept symbolic. */
  datatype ButtonProps<A> = ButtonProps(
    onClick: Option<A>,
    goBack: bool,
    start: bool,
    upload: bool,
    custom: Option<string>,
    disabled: bool)

  /** A plain button: no flag set, no custom text. */
  function Plain<A>(onClick: Option<A>): ButtonProps<A> {
    ButtonProps(onClick, false, false, false, None, false)
  }

  /** What a click runs: the empty handler of a disabled button, the caller's callback (if any), or the file picker. */
  datatype Handler<A> = Inert | Invoke(callback: Option<A>) | OpenFilePicker

  /** The click handler, chosen by priority: disabled, goBack, start, upload, otherwise the callback. */
  function ClickHandler<A>(p: ButtonProps<A>): (h: Handler<A>)
    ensures p.disabled ==> h == Inert
    ensures h == OpenFilePicker <==> !p.disabled && !p.goBack && !p.start && p.upload
    ensures h == Invoke(p.onClick) <==> !p.disabled && (p.goBack || p.start || !p.upload)
    ensures h.Invoke? ==> h.callback == p.onClick
  {
    if p.disabled then Inert
    else if p.goBack then Invoke(p.onClick)
    else if p.start then Invoke(p.onClick)
    else if p.upload then OpenFilePicker
    else Invoke(p.onClick)
  }

  /** The caller's callback a click runs, if any. */
  function Fired<A>(p: ButtonProps<A>): (callback: Option<A>)
    ensures callback.Some? <==> !p.disabled && (p.goBack || p.start || !p.upload) && p.onClick.Some?
    ensures callback.Some? ==> callback == p.onClick
  {
    match ClickHandler(p)
    case Inert => None
    case Invoke(cb) => cb
    case OpenFilePicker => None
  }

  /** The label ids, with custom text shown as given. */
  datatype Label = GoBackLabel | StartLabel | UploadLabel | CustomText(text: string) | NextLabel

  /** The label, chosen by priority: goBack, start, upload without custom text, custom text, otherwise "next". */
  function ButtonLabel<A>(p: ButtonProps<A>): (l: Label)
    ensures l == GoBackLabel <==> p.goBack
    ensures l == StartLabel <==> !p.goBack && p.start
    ensures l == UploadLabel <==> !p.goBack && !p.start && p.upload && !StringTruthy(p.custom)
    ensures l.CustomText? <==> !p.goBack && !p.start && StringTruthy(p.custom)
    ensures l.CustomText? ==> p.custom == Some(l.text)
    ensures l == NextLabel <==> !p.goBack && !p.start && !p.upload && !StringTruthy(p.custom)
  {
    if p.goBack then GoBackLabel
    else if p.start then StartLabel
    else if p.upload && !StringTruthy(p.custom) then UploadLabel
    else if StringTruthy(p.custom) then CustomText(p.custom.value)
    else NextLabel
  }

  /** An enabled button labelled "upload" opens the file picker. */
  lemma UploadLabelOpensPicker<A>(p: ButtonProps<A>)
    requires !p.disabled && ButtonLabel(p) == UploadLabel
    ensures ClickHandler(p) == OpenFilePicker
  {
  }

  /** An upload button with custom text shows that text, yet still opens the file picker when enabled. */
  lemma CustomUploadOpensPicker<A>(p: ButtonProps<A>)
    requires !p.disabled && p.upload && !p.goBack && !p.start && StringTruthy(p.custom)
    ensures ButtonLabel(p) == CustomText(p.custom.value)
    ensures ClickHandler(p) == OpenFilePicker && Fired(p) == None
  {
  }

  /** A disabled button runs nothing, whatever its other flags say. */
  lemma DisabledRunsNothing<A>(p: ButtonProps<A>)
    requires p.disabled
    ensures Fired(p) == None
  {
  }

  /** One mounted button: the name of the file last picked through it. */
  class SetupControlButton {
    var fileName: Option<string>

    constructor ()
      ensures fileName == None
    {
      fileName := None;
    }

    /** The file input's change event: `files` is the picked list, `None` when the input reports none. */
    method HandleFileChange(files: Option<seq<string>>)
      modifies this
      ensures files.Some? && |files.value| > 0 ==> fileName == Some(files.value[0])
      ensures !(files.Some? && |files.value| > 0) ==> fileName == old(fileName)
      ensures old(fileName).Some? ==> fileName.Some?
    {
      if files.Some? && |files.value| > 0 {
        fileName := Some(files.value[0]);
      }
    }

    /** The name shown under the button: only a non-empty remembered name is shown. */
    function DisplayedFileName(): (shown: Option<string>)
      reads this
      ensures shown.Some? <==> StringTruthy(fileName)
      ensures shown.Some? ==> shown == fileName
    {
      if StringTruthy(fileName) then fileName else None
    }
  }
}
