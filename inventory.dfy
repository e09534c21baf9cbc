/** The inventory descriptor and its generation pass (`GenerateInventory`). */
module Inventory {
  import opened Naming
  import opened Wrappers
  import opened Hierarchy
  import opened Clips
  import opened ExpressionParams
  import opened Menus
  import opened Animator
  import opened Avatar

  /** One inventory entry: display name, icon, the objects it toggles (entries may be missing)
      and whether those objects are shown while the toggle is off. */
  datatype InventorySlot = InventorySlot(
    slotName: string,
    slotIcon: Icon,
    slotToggleItems: seq<GameObject?>,
    startEnabled: bool)

  /** The artifacts of a successful run, or the capacity error with the number of slots that
      would still have fit. */
  datatype Outcome =
    | Generated(parameters: ExpressionParameters, menu: ExpressionsMenu, controller: AnimatorController, mask: AvatarMask)
    | CapacityExceeded(maxSlots: int)

  /** Every target of every slot sits in a finite hierarchy. */
  ghost predicate SlotsInTree(slots: seq<InventorySlot>) {
    forall k :: 0 <= k < |slots| ==> AllInTree(slots[k].slotToggleItems)
  }

  /** The live objects of a target list. */
  function ItemSet(items: seq<GameObject?>): (live: set<GameObject>) {
    set o: GameObject | o in items
  }

  /** The live objects of all slots. */
  function Targets(slots: seq<InventorySlot>): (targets: set<GameObject>)
    decreases |slots|
  {
    if slots == [] then {} else Targets(slots[..|slots| - 1]) + ItemSet(slots[|slots| - 1].slotToggleItems)
  }

  /** The active flag the pass leaves on a target: the resting flag of the last slot listing it. */
  function RestingState(slots: seq<InventorySlot>, o: GameObject): (active: bool)
    requires o in Targets(slots)
    decreases |slots|
  {
    var last := slots[|slots| - 1];
    if o in last.slotToggleItems then last.startEnabled else RestingState(slots[..|slots| - 1], o)
  }

  /** Every target holds the active flag the pass leaves on it. */
  ghost predicate AtRest(slots: seq<InventorySlot>)
    reads Targets(slots)
  {
    forall o :: o in Targets(slots) ==> o.activeSelf == RestingState(slots, o)
  }

  /** The clip of slot `i`: it drives the slot's targets to the opposite of their resting flag. */
  function SlotClip(slot: InventorySlot, i: nat): (clip: Clip)
    requires AllInTree(slot.slotToggleItems)
  {
    Clip(ClipName(i), ToggleBindings(slot.slotToggleItems, !slot.startEnabled))
  }

  function SlotClips(slots: seq<InventorySlot>): (clips: seq<Clip>)
    requires SlotsInTree(slots)
    ensures |clips| == |slots|
  {
    seq(|slots|, i requires 0 <= i < |slots| => SlotClip(slots[i], i))
  }

  /** The menu controls generated for the slots, in slot order. */
  function SlotControls(slots: seq<InventorySlot>): (cs: seq<Control>)
    ensures |cs| == |slots|
  {
    seq(|slots|, i requires 0 <= i < |slots| => SlotControl(slots[i].slotName, slots[i].slotIcon, i))
  }

  /** The controller parameters generated for `n` slots. */
  function SlotControllerParams(n: nat): (ps: seq<ControllerParam>)
    ensures |ps| == n
  {
    seq(n, i requires 0 <= i < n => ControllerParam(SlotParamName(i), IntParam))
  }

  /** The toggle layers generated for the clips, in slot order, all sharing `mask`. */
  function ToggleLayers(clips: seq<Clip>, mask: AvatarMask): (ls: seq<Layer>)
    ensures |ls| == |clips|
  {
    seq(|clips|, i requires 0 <= i < |clips| => ToggleLayer(i, clips[i], mask))
  }

  /** Appends one toggle control per slot to the menu. */
  method AppendSlotControls(menu: ExpressionsMenu, slots: seq<InventorySlot>)
    modifies menu
    ensures menu.controls == old(menu.controls) + SlotControls(slots)
  {
    for i := 0 to |slots|
      invariant menu.controls == old(menu.controls) + SlotControls(slots[..i])
    {
      assert SlotControls(slots[..i + 1]) == SlotControls(slots[..i]) + [SlotControl(slots[i].slotName, slots[i].slotIcon, i)];
      menu.Add(SlotControl(slots[i].slotName, slots[i].slotIcon, i));
    }
    assert slots[..|slots|] == slots;
  }

  /** Sets every live object of `items` to `active`. */
  method SetInitialState(items: seq<GameObject?>, active: bool)
    modifies ItemSet(items)
    ensures forall o :: o in ItemSet(items) ==> o.activeSelf == active
  {
    for k := 0 to |items|
      invariant forall o :: o in ItemSet(items[..k]) ==> o.activeSelf == active
    {
      assert items[..k + 1] == items[..k] + [items[k]];
      if items[k] != null {
        items[k].activeSelf := active;
      }
    }
    assert items[..|items|] == items;
  }

  /** The targets of one slot are among the targets of all slots. */
  lemma {:induction false} SlotTargetsAreTargets(slots: seq<InventorySlot>, i: nat)
    requires i < |slots|
    ensures ItemSet(slots[i].slotToggleItems) <= Targets(slots)
    decreases |slots|
  {
    if i < |slots| - 1 {
      assert slots[..|slots| - 1][i] == slots[i];
      SlotTargetsAreTargets(slots[..|slots| - 1], i);
    }
  }

  /** Every target is listed by some slot. */
  lemma {:induction false} TargetsListed(slots: seq<InventorySlot>, o: GameObject)
    requires o in Targets(slots)
    ensures exists k :: 0 <= k < |slots| && o in slots[k].slotToggleItems
    decreases |slots|
  {
    var last := slots[|slots| - 1];
    if o !in last.slotToggleItems {
      TargetsListed(slots[..|slots| - 1], o);
      var k :| 0 <= k < |slots| - 1 && o in slots[..|slots| - 1][k].slotToggleItems;
      assert slots[..|slots| - 1][k] == slots[k];
    }
  }

  /** Adding slot `i` to the prefix: its targets rest at its flag, the others keep theirs. */
  lemma RestingStep(slots: seq<InventorySlot>, i: nat, o: GameObject) returns (k: nat)
    requires i < |slots| && o in Targets(slots[..i + 1])
    ensures o in slots[i].slotToggleItems ==> RestingState(slots[..i + 1], o) == slots[i].startEnabled
    ensures o !in slots[i].slotToggleItems ==>
              && o in Targets(slots[..i])
              && RestingState(slots[..i + 1], o) == RestingState(slots[..i], o)
              && k < i && o in slots[k].slotToggleItems
  {
    k := 0;
    assert slots[..i + 1][..i] == slots[..i] && slots[..i + 1][i] == slots[i];
    if o !in slots[i].slotToggleItems {
      TargetsListed(slots[..i], o);
      k :| 0 <= k < i && o in slots[..i][k].slotToggleItems;
      assert o in slots[k].slotToggleItems;
    }
  }

  /** The resting flag of a target is that of the last slot listing it. */
  lemma {:induction false} RestingStateOfLastLister(slots: seq<InventorySlot>, i: nat, o: GameObject)
    requires i < |slots| && o in slots[i].slotToggleItems
    requires forall k :: i < k < |slots| ==> o !in slots[k].slotToggleItems
    ensures o in Targets(slots) && RestingState(slots, o) == slots[i].startEnabled
    decreases |slots|
  {
    SlotTargetsAreTargets(slots, i);
    if i < |slots| - 1 {
      var init := slots[..|slots| - 1];
      assert init[i] == slots[i];
      RestingStateOfLastLister(init, i, o);
    }
  }

  /** The clip of slot `i` holds every live target of the slot at the opposite of the slot's
      resting flag, and does nothing else; for a target no later slot lists, that is the
      opposite of the flag the pass leaves on it. */
  lemma SlotClipOpposesRest(slots: seq<InventorySlot>, i: nat, o: GameObject)
    requires SlotsInTree(slots) && i < |slots| && o in slots[i].slotToggleItems
    ensures var clip := SlotClips(slots)[i];
      && clip.name == ClipName(i)
      && (forall b :: b in clip.bindings ==> b == ToggleBinding(b.path, !slots[i].startEnabled))
      && ToggleBinding(AnimPath(o), !slots[i].startEnabled) in clip.bindings
    ensures (forall k :: i < k < |slots| ==> o !in slots[k].slotToggleItems) ==>
      && o in Targets(slots)
      && ToggleBinding(AnimPath(o), !RestingState(slots, o)) in SlotClips(slots)[i].bindings
  {
    var items := slots[i].slotToggleItems;
    var bs := ToggleBindings(items, !slots[i].startEnabled);
    ToggleBindingsSound(items, !slots[i].startEnabled);
    var k :| 0 <= k < |items| && items[k] == o;
    assert AnimPath(o) in Paths(bs);
    var m :| 0 <= m < |bs| && Paths(bs)[m] == AnimPath(o);
    assert bs[m] in bs;
    if forall k :: i < k < |slots| ==> o !in slots[k].slotToggleItems {
      RestingStateOfLastLister(slots, i, o);
    }
  }

  /** The wiring of slot `i`: its menu control, its expression parameter, its controller
      parameter and its layer all use one parameter name, which no other slot uses. */
  lemma SlotWiring(slots: seq<InventorySlot>, clips: seq<Clip>, mask: AvatarMask, i: nat, j: nat)
    requires i < |slots| && j < |slots| && |clips| == |slots|
    ensures var p := SlotControls(slots)[i].parameterName;
      && p != ""
      && SlotControls(slots)[i] == Control(slots[i].slotName, slots[i].slotIcon, p, Toggle, 1)
      && GeneratedParams(|slots|)[i] == Param(p, Int)
      && SlotControllerParams(|slots|)[i] == ControllerParam(p, IntParam)
      && ToggleLayers(clips, mask)[i] == ToggleLayer(i, clips[i], mask)
      && ToggleLayers(clips, mask)[i].name == LayerName(i)
      && (SlotControls(slots)[j].parameterName == p <==> i == j)
  {
    SlotParamNameDistinct(i, j);
  }

  /** End to end: while the menu control of slot `i` holds its parameter at its value (the item
      is selected) the slot's layer steps to the state playing the slot's clip, and while the
      parameter is back at zero it steps to the idle state, which plays nothing. */
  lemma SelectingSlotPlaysItsClip(slots: seq<InventorySlot>, mask: AvatarMask, i: nat,
                                  values: map<string, int>, current: nat, selected: bool)
    requires SlotsInTree(slots) && i < |slots| && current < 2
    requires var c := SlotControls(slots)[i];
      c.parameterName in values && values[c.parameterName] == (if selected then c.value else 0)
    ensures var sm := ToggleLayers(SlotClips(slots), mask)[i].stateMachine;
      && Step(sm, current, values) == (if selected then ToggleState else NullState)
      && sm.states[Step(sm, current, values)].motion == (if selected then Some(SlotClips(slots)[i]) else None)
  {
    ToggleLayerFollowsParameter(i, SlotClips(slots)[i], mask, values, current);
  }

  /** The clip loop: each slot's targets are set to their resting flag and its clip is built. */
  method GenerateClips(slots: seq<InventorySlot>, clips: array<Clip>)
    requires SlotsInTree(slots)
    requires clips.Length == |slots|
    modifies clips, Targets(slots)
    ensures clips[..] == SlotClips(slots)
    ensures AtRest(slots)
  {
    for i := 0 to |slots|
      invariant clips[..i] == SlotClips(slots)[..i]
      invariant forall o :: o in Targets(slots[..i]) ==> o.activeSelf == RestingState(slots[..i], o)
    {
      var slot := slots[i];
      SlotTargetsAreTargets(slots, i);
      SetInitialState(slot.slotToggleItems, slot.startEnabled);
      var toggleClip := GenerateToggleClip(slot.slotToggleItems, !slot.startEnabled);
      clips[i] := toggleClip.(name := ClipName(i));
      assert clips[..i + 1] == SlotClips(slots)[..i + 1];
      forall o | o in Targets(slots[..i + 1]) ensures o.activeSelf == RestingState(slots[..i + 1], o) {
        var k := RestingStep(slots, i, o);
      }
    }
    assert slots[..|slots|] == slots;
  }

  /** The layer loop: per slot, one Int parameter and one toggle layer, appended in slot order. */
  method AddToggleLayers(controller: AnimatorController, clips: array<Clip>, mask: AvatarMask)
    modifies controller
    ensures controller.parameters == old(controller.parameters) + SlotControllerParams(clips.Length)
    ensures controller.layers == old(controller.layers) + ToggleLayers(clips[..], mask)
  {
    for i := 0 to clips.Length
      invariant controller.parameters == old(controller.parameters) + SlotControllerParams(i)
      invariant controller.layers == old(controller.layers) + ToggleLayers(clips[..i], mask)
    {
      var paramName := SlotParamName(i);
      controller.AddParameter(paramName, IntParam);
      assert SlotControllerParams(i + 1) == SlotControllerParams(i) + [ControllerParam(paramName, IntParam)];
      var toggleLayer := ToggleLayer(i, clips[i], mask);
      controller.AddLayer(toggleLayer);
      assert ToggleLayers(clips[..i + 1], mask) == ToggleLayers(clips[..i], mask) + [toggleLayer];
    }
    assert clips[..clips.Length] == clips[..];
  }

  /** The descriptor patch: the avatar gets the new menu and parameters, and its first playable
      layer of the inventory type is replaced. */
  method AttachToAvatar(avatar: AvatarDescriptor, menu: ExpressionsMenu, parameters: ExpressionParameters,
                        layerType: AnimLayerType, layer: CustomAnimLayer)
    modifies avatar, avatar.baseAnimationLayers
    ensures avatar.expressionsMenu == menu && avatar.expressionParameters == parameters
    ensures avatar.baseAnimationLayers[..] == ReplacedFirst(old(avatar.baseAnimationLayers[..]), layerType, layer)
  {
    avatar.expressionsMenu := menu;
    avatar.expressionParameters := parameters;
    ReplaceFirstOfType(avatar.baseAnimationLayers, layerType, layer);
  }

  /** The parameter phase: a copy of the basis table (or an empty one) receives the slots. */
  method BuildParameters(basis: ExpressionParameters?, slotCount: nat) returns (stageParams: ExpressionParameters, allocation: Allocation)
    ensures fresh(stageParams)
    ensures var carried := NamedParams(if basis == null then [] else basis.Entries());
            && (allocation.Exceeded? <==> slotCount + |carried| > Capacity)
            && (allocation.Exceeded? ==> allocation.maxSlots == Capacity - |carried|)
            && (allocation.Allocated? ==> fresh(stageParams.parameters) && ParametersReady(stageParams, carried, slotCount))
  {
    if basis != null {
      stageParams := new ExpressionParameters.CopyOf(basis);
    } else {
      stageParams := new ExpressionParameters.Empty();
    }
    allocation := stageParams.AllocateSlots(slotCount);
  }

  /** The menu phase: a copy of the basis menu (or an empty one) with one toggle per slot. */
  method BuildMenu(basis: ExpressionsMenu?, slots: seq<InventorySlot>) returns (menu: ExpressionsMenu)
    ensures fresh(menu)
    ensures menu.controls == (if basis == null then [] else basis.controls) + SlotControls(slots)
  {
    if basis != null {
      menu := new ExpressionsMenu.CopyOf(basis);
    } else {
      menu := new ExpressionsMenu.Empty();
    }
    AppendSlotControls(menu, slots);
  }

  /** The controller phase: the targets are put at rest, one clip per slot is built, and a copy
      of the basis controller (or a new one) receives one parameter and one layer per slot. */
  method BuildController(basis: AnimatorController?, slots: seq<InventorySlot>)
    returns (controller: AnimatorController, mask: AvatarMask)
    requires SlotsInTree(slots)
    modifies Targets(slots)
    ensures fresh(controller) && fresh(mask)
    ensures controller.parameters == (if basis == null then [] else basis.parameters) + SlotControllerParams(|slots|)
    ensures controller.layers == (if basis == null then [BaseLayer] else basis.layers) + ToggleLayers(SlotClips(slots), mask)
    ensures mask.name == "maskEverythingMask" && mask.BlocksAllBodyParts()
    ensures AtRest(slots)
  {
    if basis != null {
      controller := new AnimatorController.CopyOf(basis);
    } else {
      controller := new AnimatorController.Create();
    }
    var clips := new Clip[|slots|];
    mask := MaskEverything();
    GenerateClips(slots, clips);
    forall o | o in Targets(slots) ensures allocated(o) {
      TargetsListed(slots, o);
    }
    AddToggleLayers(controller, clips, mask);
  }

  /** The allocated parameter table of `p`. */
  ghost predicate ParametersReady(p: ExpressionParameters, carried: seq<Param>, n: nat)
    reads p, p.parameters
  {
    p.parameters != null && LaidOut(p.parameters[..], carried, n)
  }

  /** The component holding the slots and the basis assets, attached to the avatar. */
  class InventoryDescriptor {
    var basisAnimator: AnimatorController?
    var basisMenu: ExpressionsMenu?
    var basisStageParameters: ExpressionParameters?
    var inventoryAnimLayer: AnimLayerType
    var inventorySlots: seq<InventorySlot>
    /** The avatar descriptor on the same object. */
    const avatar: AvatarDescriptor

    /** Test fixture: a descriptor with its field defaults, the Gesture layer, no basis assets
        and no slots. */
    constructor (avatar: AvatarDescriptor)
      ensures this.avatar == avatar && inventoryAnimLayer == Gesture && inventorySlots == []
      ensures basisAnimator == null && basisMenu == null && basisStageParameters == null
    {
      this.avatar := avatar;
      inventoryAnimLayer := Gesture;
      inventorySlots := [];
      basisAnimator, basisMenu, basisStageParameters := null, null, null;
    }

    /** The parameter table the pass starts from: the basis asset's, if any. */
    function BasisParameters(): (ps: seq<Param>)
      reads this, basisStageParameters
      reads if basisStageParameters == null then {} else {basisStageParameters.parameters}
    {
      if basisStageParameters == null then [] else basisStageParameters.Entries()
    }

    /** The menu controls the pass starts from. */
    function BasisControls(): (cs: seq<Control>)
      reads this, basisMenu
    {
      if basisMenu == null then [] else basisMenu.controls
    }

    /** The controller parameters the pass starts from. */
    function BasisControllerParams(): (ps: seq<ControllerParam>)
      reads this, basisAnimator
    {
      if basisAnimator == null then [] else basisAnimator.parameters
    }

    /** The controller layers the pass starts from (a new controller has a base layer). */
    function BasisLayers(): (ls: seq<Layer>)
      reads this, basisAnimator
    {
      if basisAnimator == null then [BaseLayer] else basisAnimator.layers
    }

    /** The layer that takes the place of the avatar's inventory layer. */
    function InventoryLayer(controller: AnimatorController): (layer: CustomAnimLayer)
      reads this
    {
      CustomAnimLayer(false, inventoryAnimLayer, controller, null, false)
    }

    /** The generation pass. On a capacity error nothing the avatar or the targets hold is
        touched; otherwise the new parameter table, menu and controller are attached to the
        avatar, its first layer of the inventory type is replaced, and every target is left at
        its resting flag. */
    method GenerateInventory() returns (outcome: Outcome)
      requires SlotsInTree(inventorySlots)
      modifies avatar, avatar.baseAnimationLayers, Targets(inventorySlots)
      ensures outcome.CapacityExceeded? <==> |inventorySlots| + |old(NamedParams(BasisParameters()))| > Capacity
      ensures outcome.CapacityExceeded? ==>
                && outcome.maxSlots == Capacity - |old(NamedParams(BasisParameters()))|
                && unchanged(avatar, avatar.baseAnimationLayers)
                && forall s, o: GameObject | s in inventorySlots && o in s.slotToggleItems :: unchanged(o)
      ensures outcome.Generated? ==>
                && fresh(outcome.parameters) && outcome.parameters.parameters != null
                && fresh(outcome.parameters.parameters)
                && LaidOut(outcome.parameters.parameters[..], old(NamedParams(BasisParameters())), |inventorySlots|)
      ensures outcome.Generated? ==>
                && fresh(outcome.menu)
                && outcome.menu.controls == old(BasisControls()) + SlotControls(inventorySlots)
      ensures outcome.Generated? ==>
                && fresh(outcome.controller)
                && outcome.controller.parameters == old(BasisControllerParams()) + SlotControllerParams(|inventorySlots|)
                && outcome.controller.layers == old(BasisLayers()) + ToggleLayers(SlotClips(inventorySlots), outcome.mask)
                && fresh(outcome.mask) && outcome.mask.name == "maskEverythingMask"
                && outcome.mask.BlocksAllBodyParts()
      ensures outcome.Generated? ==>
                && avatar.expressionsMenu == outcome.menu
                && avatar.expressionParameters == outcome.parameters
                && avatar.baseAnimationLayers[..] ==
                     ReplacedFirst(old(avatar.baseAnimationLayers[..]), inventoryAnimLayer, InventoryLayer(outcome.controller))
      ensures outcome.Generated? ==> AtRest(inventorySlots)
    {
      var slots := inventorySlots;
      ghost var carried := NamedParams(BasisParameters());
      var stageParams, allocation := BuildParameters(basisStageParameters, |slots|);
      if allocation.Exceeded? {
        return CapacityExceeded(allocation.maxSlots);
      }
      var menu := BuildMenu(basisMenu, slots);
      var controller, mask := BuildController(basisAnimator, slots);
      forall o | o in Targets(slots) ensures allocated(o) {
        TargetsListed(slots, o);
      }
      AttachToAvatar(avatar, menu, stageParams, inventoryAnimLayer, InventoryLayer(controller));
      assert ParametersReady(stageParams, carried, |slots|) && AtRest(slots);
      outcome := Generated(stageParams, menu, controller, mask);
    }
  }
}
