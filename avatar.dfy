/** The host avatar descriptor and the replacement of its inventory layer on the avatar. */
module Avatar {
  import opened Wrappers
  import opened Animator
  import opened Menus
  import opened ExpressionParams

  /** The playable-layer slots of an avatar. */
  datatype AnimLayerType = Base | Deprecated0 | Additive | Gesture | Action | FX | Sitting | TPose | IKPose

  /** One playable layer of the avatar; a default-constructed one is disabled and has no mask. */
  datatype CustomAnimLayer = CustomAnimLayer(
    isEnabled: bool,
    layerType: AnimLayerType,
    animatorController: AnimatorController?,
    mask: AvatarMask?,
    isDefault: bool)

  /** The avatar descriptor the inventory is attached to. */
  class AvatarDescriptor {
    var expressionsMenu: ExpressionsMenu?
    var expressionParameters: ExpressionParameters?
    const baseAnimationLayers: array<CustomAnimLayer>

    /** Test fixture: a descriptor with the given playable layers and no expression assets. */
    constructor (layers: seq<CustomAnimLayer>)
      ensures expressionsMenu == null && expressionParameters == null
      ensures fresh(baseAnimationLayers) && baseAnimationLayers[..] == layers
    {
      expressionsMenu, expressionParameters := null, null;
      baseAnimationLayers := new CustomAnimLayer[|layers|](i requires 0 <= i < |layers| => layers[i]);
    }
  }

  /** Index of the first layer of type `t`. */
  function FirstOfType(layers: seq<CustomAnimLayer>, t: AnimLayerType): (r: Option<nat>)
    ensures r.Some? ==> r.value < |layers| && layers[r.value].layerType == t &&
                        forall j :: 0 <= j < r.value ==> layers[j].layerType != t
    ensures r.None? ==> forall j :: 0 <= j < |layers| ==> layers[j].layerType != t
    decreases |layers|
  {
    if layers == [] then None
    else if layers[0].layerType == t then Some(0)
    else match FirstOfType(layers[1..], t)
         case None => None
         case Some(k) => Some(k + 1)
  }

  /** The layer list after replacing its first layer of type `t` by `layer`. */
  function ReplacedFirst(layers: seq<CustomAnimLayer>, t: AnimLayerType, layer: CustomAnimLayer): (r: seq<CustomAnimLayer>) {
    match FirstOfType(layers, t)
    case None => layers
    case Some(i) => layers[i := layer]
  }

  /** Exactly the first entry of type `t` is replaced and every other entry is kept; a list with
      no entry of that type is left as it is. */
  lemma ReplacedFirstChangesOnlyFirstMatch(layers: seq<CustomAnimLayer>, t: AnimLayerType, layer: CustomAnimLayer)
    ensures var r := ReplacedFirst(layers, t, layer);
      && |r| == |layers|
      && ((forall j :: 0 <= j < |layers| ==> layers[j].layerType != t) ==> r == layers)
      && (forall i ::
            (0 <= i < |layers| && layers[i].layerType == t && forall j :: 0 <= j < i ==> layers[j].layerType != t)
            ==> r == layers[i := layer])
  {
  }

  /** Running the generation again replaces the same entry: the inventory layer keeps its type. */
  lemma ReplacedFirstTwice(layers: seq<CustomAnimLayer>, t: AnimLayerType, first: CustomAnimLayer, second: CustomAnimLayer)
    requires first.layerType == t
    ensures ReplacedFirst(ReplacedFirst(layers, t, first), t, second) == ReplacedFirst(layers, t, second)
  {
    var once := ReplacedFirst(layers, t, first);
    match FirstOfType(layers, t)
    case None =>
    case Some(i) =>
      assert FirstOfType(once, t) == Some(i) by {
        FirstOfTypeUnique(once, t, i);
      }
      assert once[i := second] == layers[i := second];
  }

  /** The index characterised by the contract of FirstOfType is the one it returns. */
  lemma FirstOfTypeUnique(layers: seq<CustomAnimLayer>, t: AnimLayerType, i: nat)
    requires i < |layers| && layers[i].layerType == t
    requires forall j :: 0 <= j < i ==> layers[j].layerType != t
    ensures FirstOfType(layers, t) == Some(i)
  {
  }

  /** Overwrites the first layer of type `t` in place and stops there. */
  method ReplaceFirstOfType(layers: array<CustomAnimLayer>, t: AnimLayerType, layer: CustomAnimLayer)
    modifies layers
    ensures layers[..] == ReplacedFirst(old(layers[..]), t, layer)
  {
    for i := 0 to layers.Length
      invariant layers[..] == old(layers[..])
      invariant forall j :: 0 <= j < i ==> layers[j].layerType != t
    {
      if layers[i].layerType == t {
        FirstOfTypeUnique(layers[..], t, i);
        layers[i] := layer;
        return;
      }
    }
    assert FirstOfType(old(layers[..]), t).None?;
  }
}
