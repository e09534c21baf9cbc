/** The expressions menu and the toggle control generated for each slot. */
module Menus {
  import opened Naming

  /** A menu icon: none, or a reference to a texture asset. */
  datatype Icon = NoIcon | Texture(id: nat)

  /** Kind of a menu control. */
  datatype ControlType = Button | Toggle | SubMenu | TwoAxisPuppet | FourAxisPuppet | RadialPuppet

  /** A menu control: label, icon, the expression parameter it drives, its kind, and the value it
      sets that parameter to when selected. */
  datatype Control = Control(name: string, icon: Icon, parameterName: string, controlType: ControlType, value: int)

  /** An expressions menu asset: an ordered list of controls. */
  class ExpressionsMenu {
    var controls: seq<Control>

    /** A freshly created menu. */
    constructor Empty()
      ensures controls == []
    {
      controls := [];
    }

    /** A copy of a basis menu. */
    constructor CopyOf(basis: ExpressionsMenu)
      ensures controls == basis.controls
    {
      controls := basis.controls;
    }

    /** Adds a control after the existing ones. */
    method Add(c: Control)
      modifies this
      ensures controls == old(controls) + [c]
    {
      controls := controls + [c];
    }
  }

  /** The control generated for slot `i`: a toggle that sets that slot's generated parameter to 1. */
  function SlotControl(name: string, icon: Icon, i: nat): (c: Control) {
    Control(name, icon, SlotParamName(i), Toggle, 1)
  }
}
