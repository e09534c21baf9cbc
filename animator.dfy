/** Animator controllers, their layers and two-state toggle machines, and the body-part mask
    shared by the generated toggle layers. */
module Animator {
  import opened Naming
  import opened Wrappers
  import opened Clips

  /** AvatarMaskBodyPart.LastBodyPart: the number of humanoid body parts a mask controls. */
  const BodyPartCount: nat := 13

  /** A layer mask; a new mask lets every humanoid body part through. */
  class AvatarMask {
    var name: string
    const humanoidBodyParts: array<bool>

    constructor ()
      ensures name == "" && fresh(humanoidBodyParts) && humanoidBodyParts.Length == BodyPartCount
      ensures forall i :: 0 <= i < BodyPartCount ==> humanoidBodyParts[i]
    {
      name := "";
      humanoidBodyParts := new bool[BodyPartCount](_ => true);
    }

    /** The mask blocks every humanoid body part, so a layer using it animates no skeleton. */
    ghost predicate BlocksAllBodyParts()
      reads this, humanoidBodyParts
    {
      humanoidBodyParts.Length == BodyPartCount &&
      forall i :: 0 <= i < BodyPartCount ==> !humanoidBodyParts[i]
    }
  }

  /** The shared mask of the generated layers: every humanoid body part is switched off in turn. */
  method MaskEverything() returns (mask: AvatarMask)
    ensures fresh(mask) && fresh(mask.humanoidBodyParts)
    ensures mask.name == "maskEverythingMask"
    ensures mask.BlocksAllBodyParts()
  {
    mask := new AvatarMask();
    for i := 0 to BodyPartCount
      invariant forall j :: 0 <= j < i ==> !mask.humanoidBodyParts[j]
    {
      mask.humanoidBodyParts[i] := false;
    }
    mask.name := "maskEverythingMask";
  }

  /** Type of an animator-controller parameter. */
  datatype ControllerParamType = FloatParam | IntParam | BoolParam | TriggerParam

  /** An animator-controller parameter. */
  datatype ControllerParam = ControllerParam(name: string, paramType: ControllerParamType)

  /** How a transition condition compares its parameter with the threshold. */
  datatype ConditionMode = If | IfNot | Greater | Less | Equals | NotEqual

  datatype Condition = Condition(mode: ConditionMode, threshold: int, parameter: string)

  /** A transition out of a state, to the state at index `destination` of the same machine. */
  datatype Transition = Transition(
    destination: nat,
    hasExitTime: bool,
    exitTime: int,
    hasFixedDuration: bool,
    duration: int,
    conditions: seq<Condition>)

  /** A state: its name, the clip it plays (if any) and its outgoing transitions in order. */
  datatype State = State(name: string, motion: Option<Clip>, transitions: seq<Transition>)

  /** A state machine; the first state added is its default (entry) state. */
  datatype StateMachine = StateMachine(name: string, states: seq<State>)

  /** A controller layer; the base layer of a new controller has no mask. */
  datatype Layer = Layer(name: string, defaultWeight: int, stateMachine: StateMachine, avatarMask: AvatarMask?)

  /** The layer a newly created controller starts with. */
  const BaseLayer: Layer := Layer("Base Layer", 0, StateMachine("Base Layer", []), null)

  /** An animator controller asset. */
  class AnimatorController {
    var parameters: seq<ControllerParam>
    var layers: seq<Layer>

    /** A newly created controller: no parameters and a single empty base layer. */
    constructor Create()
      ensures parameters == [] && layers == [BaseLayer]
    {
      parameters := [];
      layers := [BaseLayer];
    }

    /** A copy of a basis controller. */
    constructor CopyOf(basis: AnimatorController)
      ensures parameters == basis.parameters && layers == basis.layers
    {
      parameters := basis.parameters;
      layers := basis.layers;
    }

    method AddParameter(name: string, paramType: ControllerParamType)
      modifies this
      ensures parameters == old(parameters) + [ControllerParam(name, paramType)]
      ensures layers == old(layers)
    {
      parameters := parameters + [ControllerParam(name, paramType)];
    }

    method AddLayer(layer: Layer)
      modifies this
      ensures layers == old(layers) + [layer]
      ensures parameters == old(parameters)
    {
      layers := layers + [layer];
    }
  }

  /** Index of the idle state and of the triggered state of a toggle machine. */
  const NullState: nat := 0
  const ToggleState: nat := 1

  /** An instantaneous transition (no exit time, zero fixed duration) under one condition. */
  function Immediate(destination: nat, condition: Condition): (t: Transition) {
    Transition(destination, false, 0, true, 0, [condition])
  }

  /** The layer generated for slot `i`: an idle state without motion and a triggered state
      playing `clip`, switched by the slot's parameter being above zero or equal to zero. */
  function ToggleLayer(i: nat, clip: Clip, mask: AvatarMask): (layer: Layer)
    ensures WellFormed(layer.stateMachine)
  {
    var param := SlotParamName(i);
    var toToggle := Immediate(ToggleState, Condition(Greater, 0, param));
    var toNull := Immediate(NullState, Condition(Equals, 0, param));
    Layer(LayerName(i), 1,
          StateMachine(LayerName(i),
                       [State("Null State", None, [toToggle]),
                        State("Toggle Triggered", Some(clip), [toNull])]),
          mask)
  }

  /** Every transition leads to a state of the machine, and there is an entry state. */
  ghost predicate WellFormed(sm: StateMachine) {
    |sm.states| >= 1 &&
    forall s, t :: s in sm.states && t in s.transitions ==> t.destination < |sm.states|
  }

  // A reference semantics of one evaluation step of a machine, for the integer parameters;
  // exit times are not simulated, so only transitions without exit time can fire.

  function ConditionHolds(c: Condition, values: map<string, int>): (holds: bool) {
    c.parameter in values &&
    var v := values[c.parameter];
    match c.mode
    case If => v != 0
    case IfNot => v == 0
    case Greater => v > c.threshold
    case Less => v < c.threshold
    case Equals => v == c.threshold
    case NotEqual => v != c.threshold
  }

  /** A transition without exit time fires when it has conditions and all of them hold. */
  function Fires(t: Transition, values: map<string, int>): (fires: bool) {
    !t.hasExitTime && |t.conditions| >= 1 &&
    forall c :: c in t.conditions ==> ConditionHolds(c, values)
  }

  /** The first of `ts` that fires, if any. */
  function FirstFiring(ts: seq<Transition>, values: map<string, int>): (r: Option<nat>)
    ensures r.Some? ==> r.value < |ts| && Fires(ts[r.value], values) &&
                        forall j :: 0 <= j < r.value ==> !Fires(ts[j], values)
    ensures r.None? ==> forall j :: 0 <= j < |ts| ==> !Fires(ts[j], values)
    decreases |ts|
  {
    if ts == [] then None
    else if Fires(ts[0], values) then Some(0)
    else match FirstFiring(ts[1..], values)
         case None => None
         case Some(k) => Some(k + 1)
  }

  /** The state after one step from `current`: the destination of the first transition that
      fires, or `current` when none does. */
  function Step(sm: StateMachine, current: nat, values: map<string, int>): (next: nat)
    requires current < |sm.states|
    ensures WellFormed(sm) ==> next < |sm.states|
  {
    var ts := sm.states[current].transitions;
    match FirstFiring(ts, values)
    case None => current
    case Some(k) => ts[k].destination
  }

  /** A toggle layer follows its parameter: from either state, one step with a non-negative
      parameter value lands in the triggered state, playing the slot's clip, exactly when the
      value is above zero, and in the idle state, playing nothing, when it is zero. */
  lemma ToggleLayerFollowsParameter(i: nat, clip: Clip, mask: AvatarMask, values: map<string, int>, current: nat)
    requires current < 2
    requires SlotParamName(i) in values && values[SlotParamName(i)] >= 0
    ensures var sm := ToggleLayer(i, clip, mask).stateMachine;
      && Step(sm, current, values) == (if values[SlotParamName(i)] > 0 then ToggleState else NullState)
      && sm.states[Step(sm, current, values)].motion == (if values[SlotParamName(i)] > 0 then Some(clip) else None)
  {
    var sm := ToggleLayer(i, clip, mask).stateMachine;
    var ts := sm.states[current].transitions;
    assert Fires(ts[0], values) <==> ConditionHolds(ts[0].conditions[0], values);
  }

  /** Layers are isolated: a toggle layer's step depends on its own slot parameter only. */
  lemma ToggleLayerReadsOwnParameter(i: nat, clip: Clip, mask: AvatarMask, v1: map<string, int>, v2: map<string, int>, current: nat)
    requires current < 2
    requires SlotParamName(i) in v1 <==> SlotParamName(i) in v2
    requires SlotParamName(i) in v1 ==> v1[SlotParamName(i)] == v2[SlotParamName(i)]
    ensures var sm := ToggleLayer(i, clip, mask).stateMachine;
      Step(sm, current, v1) == Step(sm, current, v2)
  {
  }
}
