/** The data-storage step: a radio choice among three options, one of which cannot be chosen. */
module DataContent {

  datatype DataOption = Default | Local | Cloud

  datatype IndicatorStyle = SelectedStyle | DisabledStyle | NonSelectedStyle

  /** The indicator dot's style: selected wins over disabled, disabled over unselected. */
  function Indicator(isSelected: bool, isDisabled: bool): (style: IndicatorStyle)
    ensures style == SelectedStyle <==> isSelected
    ensures style == DisabledStyle <==> !isSelected && isDisabled
    ensures style == NonSelectedStyle <==> !isSelected && !isDisabled
  {
    if isSelected then SelectedStyle
    else if isDisabled then DisabledStyle
    else NonSelectedStyle
  }

  /** Whether clicking an option has a handler at all. */
  predicate Clickable(o: DataOption) {
    o != Cloud
  }

  /** One rendered option: whether it reports itself selected, is disabled, and has a click handler. */
  datatype OptionRow = OptionRow(option: DataOption, isSelected: bool, isDisabled: bool, clickable: bool)

  /** The three options as rendered: cloud is disabled and has no click handler. */
  function Rows(selected: DataOption): (rows: seq<OptionRow>)
    ensures |rows| == 3
    ensures forall i :: 0 <= i < |rows| ==> (rows[i].isDisabled <==> rows[i].option == Cloud)
    ensures forall i :: 0 <= i < |rows| ==> (rows[i].clickable <==> Clickable(rows[i].option))
  {
    [ OptionRow(Default, selected == Default, false, true),
      OptionRow(Local, selected == Local, false, true),
      OptionRow(Cloud, selected == Cloud, true, false) ]
  }

  /** Exactly one option reports itself selected: the selected one. */
  lemma ExactlyOneSelected(selected: DataOption)
    ensures forall i :: 0 <= i < |Rows(selected)| ==>
      (Rows(selected)[i].isSelected <==> Rows(selected)[i].option == selected)
    ensures forall i, j :: 0 <= i < j < |Rows(selected)| ==>
      Rows(selected)[i].option != Rows(selected)[j].option
    ensures exists i :: 0 <= i < |Rows(selected)| && Rows(selected)[i].option == selected
  {
    assert Rows(selected)[if selected == Default then 0 else if selected == Local then 1 else 2].option == selected;
  }

  /** The component's `selectedOption` state. */
  class DataContent {
    var selectedOption: DataOption

    /** Every reachable selection: cloud is never chosen. */
    predicate Valid()
      reads this
    {
      selectedOption != Cloud
    }

    constructor ()
      ensures Valid() && selectedOption == Default
    {
      selectedOption := Default;
    }

    /** A click on an option: default and local are selected as clicked; cloud has no handler. */
    method ClickOption(o: DataOption)
      requires Valid()
      modifies this
      ensures Valid()
      ensures selectedOption == if Clickable(o) then o else old(selectedOption)
    {
      if Clickable(o) {
        selectedOption := o;
      }
    }

    /** The cloud option is always drawn with the disabled style, and never selected. */
    lemma CloudDrawnDisabled()
      requires Valid()
      ensures !Rows(selectedOption)[2].isSelected
      ensures Indicator(Rows(selectedOption)[2].isSelected, Rows(selectedOption)[2].isDisabled) == DisabledStyle
    {
    }
  }
}
