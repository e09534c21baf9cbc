# VRC-Inventory generation pass, modelled in Dafny

The project models the generation pass of the VRChat inventory component
(`InventoryDescriptor.GenerateInventory` and its two helpers `GetGameObjectAnimPath` and
`GenerateToggleClip`). From a list of inventory slots the pass compiles:

- an expression-parameter table of 16 entries: the named basis parameters, one Int parameter
  `GenInventorySlot{i}` per slot, then blank Float placeholders; too many slots is an error
  reported before the avatar, the menu, the controller or any target is changed;
- an expressions menu: the basis controls followed by one Toggle control per slot;
- an animator controller: the basis parameters and layers followed, per slot, by one Int
  parameter and one two-state toggle layer `GenToggleLayer{i}` that plays the slot's clip
  `toggleAnim{i}` while the parameter is above zero; all toggle layers share one avatar mask
  that blocks every humanoid body part;
- a patched avatar descriptor: it gets the new menu and parameters, and its first playable
  layer of the configured type is replaced by one that uses the new controller.

Each slot's targets are switched to the slot's resting flag (`startEnabled`), and the slot's
clip holds each of them at the opposite flag, so selecting the item in the menu flips every
target that no later slot lists; a target listed by several slots rests at the last one's flag.

Modules, one per concern of the pass:

| file | module | what it holds |
|---|---|---|
| `naming.dfy` | `Naming` | the generated names (`GenInventorySlot{i}`, `GenToggleLayer{i}`, `toggleAnim{i}`) and their injectivity |
| `hierarchy.dfy` | `Hierarchy` | scene objects with a finite parent chain, the animation path and its resolver loop |
| `clips.dfy` | `Clips` | curve bindings, replace-or-append curve setting, the toggle clip loop |
| `expression_params.dfy` | `ExpressionParams` | the parameter table and its allocator |
| `menus.dfy` | `Menus` | menu controls and the menu asset |
| `animator.dfy` | `Animator` | masks, controllers, toggle layers, and a one-step reference semantics of a state machine |
| `avatar.dfy` | `Avatar` | the avatar descriptor and the replace-first-layer loop |
| `inventory.dfy` | `Inventory` | slots, the phases of the pass, the descriptor class and `GenerateInventory` |
| `wrappers.dfy` | `Wrappers` | `Option` |

Unity objects the pass changes in place (parameter asset, menu, controller, mask, avatar
descriptor, scene objects) are classes; everything the pass builds as a value (parameters,
controls, bindings, clips, transitions, states, layers) is a datatype. Copying a basis asset is
modelled as a fresh object with the same contents.

## Model

| member | source | states |
|---|---|---|
| Naming.Decimal | Assets/Merlin/Inventory/InventoryDescriptor.cs:170 | the interpolated index is a non-empty string of decimal digits with no leading zero |
| Naming.DecimalValue | Assets/Merlin/Inventory/InventoryDescriptor.cs:170 | read back most significant digit first, the rendering stands for the index itself, so `GenInventorySlot12` ends in the digits 1, 2 |
| Naming.DecimalInjective | Assets/Merlin/Inventory/InventoryDescriptor.cs:170 | different indices render differently |
| Naming.SlotParamNameDistinct | Assets/Merlin/Inventory/InventoryDescriptor.cs:170 | `GenInventorySlot{i}` is never blank, and two slots share a parameter name only if they are the same slot |
| Naming.LayerNameDistinct | Assets/Merlin/Inventory/InventoryDescriptor.cs:173 | two slots share a layer name only if they are the same slot |
| Hierarchy.GetGameObjectAnimPath | Assets/Merlin/Inventory/InventoryDescriptor.cs:233-245 | the loop returns the object's animation path: ancestor names below the topmost ancestor, top-down, `/`-joined, then its own name |
| Hierarchy.AnimPathNearRoot | Assets/Merlin/Inventory/InventoryDescriptor.cs:235-238 | the topmost object and its direct children resolve to their own name |
| Hierarchy.AnimPathOfChild | Assets/Merlin/Inventory/InventoryDescriptor.cs:238-242 | below the first level, a path is the parent's path, `/`, and the object's name |
| Hierarchy.AnimPathThreeLevels | Assets/Merlin/Inventory/InventoryDescriptor.cs:233-245 | a target three levels down resolves to `level1/level2/target`; the topmost object contributes no component |
| Clips.SetCurve | Assets/Merlin/Inventory/InventoryDescriptor.cs:256 | setting a curve replaces the first curve on the same path, type and property, and appends when there is none |
| Clips.ToggleValue | Assets/Merlin/Inventory/InventoryDescriptor.cs:255 | the keyframe value is 1 exactly when the clip enables, else 0 |
| Clips.LiveTargets | Assets/Merlin/Inventory/InventoryDescriptor.cs:251-253 | an entry is live exactly when it is a non-null entry of the list |
| Clips.LiveTargetsInOrder | Assets/Merlin/Inventory/InventoryDescriptor.cs:251-253 | the live targets are the non-null entries, each exactly once and in list order: a non-null entry sits at the position counted by the non-null entries before it |
| Clips.LivePaths | Assets/Merlin/Inventory/InventoryDescriptor.cs:251-256 | every non-null target's path is among the resolved paths |
| Clips.LivePathsOfLiveTargets | Assets/Merlin/Inventory/InventoryDescriptor.cs:251-256 | the resolved paths are the paths of the live targets, one for one and in the same order, so each resolved path belongs to a live target |
| Clips.SetCurveAlreadyThere | Assets/Merlin/Inventory/InventoryDescriptor.cs:256 | setting a curve that is already on a clip with distinct paths leaves the clip as it is |
| Clips.SetCurveNew | Assets/Merlin/Inventory/InventoryDescriptor.cs:256 | setting a curve on a path the clip does not animate appends it and keeps the paths distinct |
| Clips.SetToggleCurve | Assets/Merlin/Inventory/InventoryDescriptor.cs:256 | setting one more `m_IsActive` curve keeps every curve a toggle at the same value, adds exactly the new path, and keeps paths distinct |
| Clips.ToggleBindingsSound | Assets/Merlin/Inventory/InventoryDescriptor.cs:247-261 | every curve of a toggle clip sets `m_IsActive` of a GameObject to the requested value; the animated paths are exactly the live targets' paths, each once |
| Clips.ToggleBindingsOnePerTarget | Assets/Merlin/Inventory/InventoryDescriptor.cs:247-261 | when live targets resolve to distinct paths, the clip has exactly one curve per live target, in target order; null targets are skipped |
| Clips.GenerateToggleClip | Assets/Merlin/Inventory/InventoryDescriptor.cs:247-261 | the loop builds an unnamed clip whose curves are the toggle curves of the targets |
| ExpressionParams.ExpressionParameters.Empty | Assets/Merlin/Inventory/InventoryDescriptor.cs:61-62 | a newly created parameter asset has no table |
| ExpressionParams.ExpressionParameters.CopyOf | Assets/Merlin/Inventory/InventoryDescriptor.cs:56-57 | a copied asset has a table of its own with the basis table's entries, or none when the basis has none |
| ExpressionParams.CollectNamedParams | Assets/Merlin/Inventory/InventoryDescriptor.cs:65-76 | the loop gathers the entries with a non-blank name, in order, by name and type; a missing table gives none |
| ExpressionParams.NamedParamsFilter | Assets/Merlin/Inventory/InventoryDescriptor.cs:69-75 | a parameter is carried over exactly when it is in the table with a non-blank name; a table without blanks is carried over whole |
| ExpressionParams.NamedParamsInOrder | Assets/Merlin/Inventory/InventoryDescriptor.cs:67-76 | the carried-over parameters are the named entries copied by name and type, each exactly once and in table order, blanks anywhere: a named entry sits at the position counted by the named entries before it, and their number is the count behind the capacity check |
| ExpressionParams.GeneratedParams | Assets/Merlin/Inventory/InventoryDescriptor.cs:89-90 | entry i of the generated block is the Int parameter `GenInventorySlot{i}` |
| ExpressionParams.FillTable | Assets/Merlin/Inventory/InventoryDescriptor.cs:84-93 | the three loops lay the new 16-entry table out as carried block, generated block, placeholder block |
| ExpressionParams.WriteCarried | Assets/Merlin/Inventory/InventoryDescriptor.cs:87 | the first loop copies the carried parameters to the front of the table |
| ExpressionParams.WriteGenerated | Assets/Merlin/Inventory/InventoryDescriptor.cs:89-90 | the second loop writes `GenInventorySlot{j}` as an Int parameter right after the carried block and touches nothing beyond it |
| ExpressionParams.WritePlaceholders | Assets/Merlin/Inventory/InventoryDescriptor.cs:92-93 | the third loop fills the rest of the table with blank Float entries and keeps the front |
| ExpressionParams.ExpressionParameters.AllocateSlots | Assets/Merlin/Inventory/InventoryDescriptor.cs:65-93 | the error is raised exactly when slots plus named basis parameters exceed 16, reports the slots that would fit and leaves the table alone; otherwise a fresh table is laid out in the three blocks |
| ExpressionParams.NamedParamsOfLayout | Assets/Merlin/Inventory/InventoryDescriptor.cs:84-93 | gathering the named parameters of a laid-out table gives back the carried block followed by the generated block, so a run whose basis is this table carries the slots' parameters over |
| ExpressionParams.NamedParamsBlankTail | Assets/Merlin/Inventory/InventoryDescriptor.cs:92-93 | the placeholder block contributes no named parameter |
| Menus.ExpressionsMenu.Empty | Assets/Merlin/Inventory/InventoryDescriptor.cs:105-106 | a newly created menu has no controls |
| Menus.ExpressionsMenu.CopyOf | Assets/Merlin/Inventory/InventoryDescriptor.cs:100-101 | a copied menu has the basis menu's controls |
| Menus.ExpressionsMenu.Add | Assets/Merlin/Inventory/InventoryDescriptor.cs:111 | adding a control appends it after the existing ones |
| Inventory.AppendSlotControls | Assets/Merlin/Inventory/InventoryDescriptor.cs:109-119 | the menu keeps its controls and gains one control per slot, in slot order |
| Inventory.BuildMenu | Assets/Merlin/Inventory/InventoryDescriptor.cs:96-119 | the new menu holds the basis controls (none without a basis) followed by the slot controls |
| Inventory.SlotWiring | Assets/Merlin/Inventory/InventoryDescriptor.cs:109-119 | control i (`Menus.SlotControl`) has the slot's name and icon, type Toggle, value 1 and parameter `GenInventorySlot{i}`, which is also generated parameter i (Int), controller parameter i (Int) and the parameter of layer i; no other slot uses it |
| Animator.AvatarMask.constructor | Assets/Merlin/Inventory/InventoryDescriptor.cs:139 | a new mask has a table of 13 humanoid body parts, all enabled, and no name |
| Animator.MaskEverything | Assets/Merlin/Inventory/InventoryDescriptor.cs:139-143 | the new mask is named `maskEverythingMask` and disables every humanoid body part |
| Animator.AnimatorController.Create | Assets/Merlin/Inventory/InventoryDescriptor.cs:133 | a new controller has no parameters and one empty base layer |
| Animator.AnimatorController.CopyOf | Assets/Merlin/Inventory/InventoryDescriptor.cs:127-129 | a copied controller has the basis controller's parameters and layers |
| Animator.AnimatorController.AddParameter | Assets/Merlin/Inventory/InventoryDescriptor.cs:171 | adding a parameter appends it and keeps the layers |
| Animator.AnimatorController.AddLayer | Assets/Merlin/Inventory/InventoryDescriptor.cs:207 | adding a layer appends it and keeps the parameters |
| Animator.ToggleLayer | Assets/Merlin/Inventory/InventoryDescriptor.cs:173-205 | the layer's machine is well formed: every transition leads to one of its two states |
| Animator.FirstFiring | Assets/Merlin/Inventory/InventoryDescriptor.cs:192-205 | the transition taken is the first whose conditions all hold |
| Animator.ToggleLayerFollowsParameter | Assets/Merlin/Inventory/InventoryDescriptor.cs:188-205 | from either state, a parameter above zero leads to the state playing the clip, and zero leads to the idle state playing nothing |
| Animator.ToggleLayerReadsOwnParameter | Assets/Merlin/Inventory/InventoryDescriptor.cs:204-205 | a toggle layer's step depends only on its own slot parameter |
| Inventory.AddToggleLayers | Assets/Merlin/Inventory/InventoryDescriptor.cs:168-208 | the controller keeps its parameters and layers and gains, in slot order, one Int parameter and one toggle layer per slot |
| Inventory.SetInitialState | Assets/Merlin/Inventory/InventoryDescriptor.cs:152-154 | every live target of the slot is switched to the given flag |
| Inventory.GenerateClips | Assets/Merlin/Inventory/InventoryDescriptor.cs:147-165 | clip i is `SlotClip` of slot i: the toggle clip over the slot's targets at `!startEnabled`, named `toggleAnim{i}`; every target ends at the flag of the last slot listing it |
| Inventory.RestingStateOfLastLister | Assets/Merlin/Inventory/InventoryDescriptor.cs:147-154 | a target's final flag is the `startEnabled` of the last slot that lists it |
| Inventory.SlotClipOpposesRest | Assets/Merlin/Inventory/InventoryDescriptor.cs:152-163 | slot i's clip sets every live target of the slot to `!startEnabled` and does nothing else; for a target no later slot lists, that is the opposite of the flag it is left at |
| Inventory.SelectingSlotPlaysItsClip | Assets/Merlin/Inventory/InventoryDescriptor.cs:109-119 | while control i holds its value the slot's layer steps to the state playing clip i, and at zero to the idle state playing nothing |
| Inventory.BuildParameters | Assets/Merlin/Inventory/InventoryDescriptor.cs:54-93 | a copy of the basis table (or an empty asset) is allocated, with the error condition of the allocator |
| Inventory.BuildController | Assets/Merlin/Inventory/InventoryDescriptor.cs:121-208 | the new controller holds the basis parameters and layers (a base layer without a basis) followed by the slot parameters and toggle layers over the shared mask; every target is at rest |
| Inventory.AttachToAvatar | Assets/Merlin/Inventory/InventoryDescriptor.cs:211-228 | the descriptor gets the new menu and parameters and its layer list is replaced at the first match only |
| Avatar.FirstOfType | Assets/Merlin/Inventory/InventoryDescriptor.cs:221-225 | the index found is the first layer of the type, or none has the type |
| Avatar.ReplaceFirstOfType | Assets/Merlin/Inventory/InventoryDescriptor.cs:221-227 | the loop overwrites in place the first layer of the type and stops; the list is unchanged when none matches |
| Avatar.ReplacedFirstChangesOnlyFirstMatch | Assets/Merlin/Inventory/InventoryDescriptor.cs:221-227 | only the first entry of the type is replaced; with no entry of the type the list is kept |
| Avatar.ReplacedFirstTwice | Assets/Merlin/Inventory/InventoryDescriptor.cs:216-227 | running the patch again replaces the same entry, since the inserted layer keeps the type |
| Inventory.InventoryDescriptor.GenerateInventory | Assets/Merlin/Inventory/InventoryDescriptor.cs:41-231 | the capacity error happens exactly when slots plus named basis parameters exceed 16 and leaves the avatar and the targets untouched; otherwise the fresh table, menu, controller and mask are as above, attached to the avatar, whose first layer of the inventory type becomes `InventoryLayer`: not default, disabled, no mask, the new controller, that type; every target is at rest |

## Left out

- Directory creation, asset copying, loading, creation, sub-asset registration and saving (lines 43-48, 56-62, 100-106, 125-134, 144, 164, 183-184, 230) are not modelled; a copied basis asset is a fresh object with the same contents, and the unused clip path (line 156) is dropped.
- Inventory.InventoryDescriptor.GenerateInventory: on a capacity error the model promises nothing about the file system; in the source the output directory (lines 43-48) and the copied or created `customStageParams.asset` (lines 54-63) are already written before the check at line 78 and are not rolled back, and that asset may be the one an earlier run attached to the avatar (line 214).
- The error message of line 80 is not printed; the capacity error is returned as a value carrying the number of slots that would fit.
- The inspector GUI, `Reset` and the `GetComponent` lookup: UI code, GUID generation and asset loading; the avatar descriptor is a field of the component.
- Animator.AnimatorController.AddParameter: appends the name as given; the editor renames a parameter whose name is already taken (a basis controller that already holds `GenInventorySlot0`), which the model does not capture.
- Floats: layer weights, keyframe times and values, transition durations, exit times and condition thresholds are integers holding the constants of the source; state positions and `hideFlags` are dropped.
- Animator.Step: a reference semantics for integer parameters that ignores exit times; the generated transitions have none.
- Null strings and null entries in a basis parameter table: names are never null in the model, and a null entry (which would throw in the source) is not modelled.
- Scene activation: only `activeSelf` is modelled; Unity's destroyed-object equality with null is modelled as a plain null entry.
- Clips.ToggleBindingsOnePerTarget: "one curve per live target" holds only when live targets resolve to distinct paths; two targets with the same path share one curve, since setting a curve replaces the one already on that binding.
- Menus: the runtime limit on the number of controls in one menu page is not enforced by the pass and not modelled.
