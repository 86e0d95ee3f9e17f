# Tool-mode selection, modelled in Dafny

This project models the per-player tool-mode selection of the Vintage Story
library *toolmodelib*. A collectible (an item or a block) carries an ordered
array of tool modes. A player's choice is stored per player in three string
trees:

- `toolmodelib:group`, keyed by mode group;
- `toolmodelib:item`, keyed by item code;
- `toolmodelib:block`, keyed by block code.

When a client writes a choice it sends a sync packet, and the server applies
that packet without sending one back. Held-item events are routed to the
current mode. A mode answers with a handling signal: PassThrough,
PreventDefault or PreventSubsequent. The signal decides whether the engine's
own behaviour still runs. There are two routing variants:

- Harmony prefixes on `CollectibleObject`;
- overrides in `ItemWithModes`.

They are modelled separately, because they differ. On top of that sit the
multi-break item, which breaks or damages nearby blocks, and the scythe modes,
which sweep grass in a timed swing.

Modules, one per source file:

| module | source file | form |
|---|---|---|
| `Types` | shared value types | values |
| `ToolModes` | `Common/ToolMode.cs` | mode class, visibility and index resolution |
| `Registry` | `System/ToolModeSystem.cs` | registry class with map fields and an outbox |
| `ToolModeApi` | `System/ToolModeApi.cs` | pure lookups; setters on a `Player` whose trees change |
| `ServerSync` | `System/ToolModeSystem.cs` | the server-side packet handler, in its own module to avoid an import cycle |
| `Patches` | `Patches/CollectibleObjectPatches.cs` | the prefix variant |
| `ModeDecls` | shared array-building step | the loop over declared modes that item and block share |
| `ItemModes` | `Common/ItemWithModes.cs` | the override variant |
| `BlockModes` | `Common/BlockWithModes.cs` | block array building |
| `Dispatch` | both variants | compared with each other and with the model's reference meaning of the signals |
| `MultiBreak` | `Item/ItemMultiBreakWithModes.cs` | multi-break item and mode |
| `Scythe` | `Item/ItemScytheWithModes.cs` | scythe item and modes |

The model follows the code. These points are worth knowing about what the
code does, some of them measured against the model's reference meaning of the
signals (`Dispatch.ReferenceMeaning`: the default runs only on PassThrough,
and secondary effects such as the attack sound survive everything but
PreventSubsequent):

- Writing a selection on the wrong side is not an error. The code returns
  without writing and without sending.
- Resolving the selection of a block-class collectible goes through
  `GetCollectibleToolMode`. That throws `NotImplementedException`, so the
  `GetToolMode` prefix and every event prefix of a block-class collectible
  with registered modes end in `Err(NotImplemented)`
  (`Dispatch.BlockClassPrefixesThrow`). The `GetToolModes` prefix never
  resolves a selection, and the `SetToolMode` prefix returns without a write
  when there are no visible items, so neither of those throws there.
- The event routing looks modes up with `GetToolModeObj`, which finds the mode
  whose code equals the stored selection. It has no index-0 fallback: with no
  match, the prefix lets the original method run. Only the `GetToolMode`
  index falls back to 0.
- A mode created for a collectible has Group set to the collectible's code,
  not null.
- Under the reference meaning PreventDefault keeps the secondary effects.
  `ItemWithModes.OnHeldAttackStart` does the opposite: on PreventDefault it
  still calls base but drops the attack sound, and it plays the sound only on
  PassThrough. `OnHeldInteractStep` and `OnHeldInteractCancel` also call base
  on PreventDefault. The prefix variant follows the reference meaning. See
  `Dispatch.ItemAttackStartDepartsAtPreventDefault` and
  `Dispatch.PatchAttackStartFollowsReference`.
- `ToolModeMultiBreak.OnBlockBrokenWith` tests its quota only after a break.
  A quantity of 0 or less still breaks one neighbour, and the contract
  states the bound as `max(quantity, 1)`. `DamageNearbyBlocks` tests its
  quota `min(quantity, durability)` before each damage: a quota of 0 damages
  none, and a negative quantity or durability damages every accessible
  neighbour (`MultiBreak.DamagedIsAccessiblePrefix`).

## Model

| member | source | states |
|---|---|---|
| Registry.ToolModeRegistry.RegisterToolMode | toolmodelib/src/System/ToolModeSystem.cs:56-59 | A code already present fails with DuplicateRegistration and leaves the map unchanged. Otherwise exactly that code is added. |
| Registry.ToolModeRegistry.RegisterModeGroup | toolmodelib/src/System/ToolModeSystem.cs:61-71 | Appends the types to the group's members in argument order. An absent group starts empty. Earlier members and other groups are kept. |
| Registry.ToolModeRegistry.Instantiate | toolmodelib/src/System/ToolModeSystem.cs:73-81 | Returns a fresh, not yet initialised mode of the given type, whose Group is the given group code and whose Code is still unset. |
| Registry.ToolModeRegistry.CreateToolModeForCollectible | toolmodelib/src/System/ToolModeSystem.cs:83-91 | Fails exactly for an unregistered code. Otherwise returns a fresh mode with that code, whose Group is the collectible's code. |
| Registry.ToolModeRegistry.CreateToolModeInGroup | toolmodelib/src/System/ToolModeSystem.cs:93-101 | Fails exactly for an unregistered code. Otherwise returns a fresh mode with that code, whose Group is the given group. |
| Registry.ToolModeRegistry.CreateToolModeGroup | toolmodelib/src/System/ToolModeSystem.cs:103-113 | An unknown group fails with UnknownGroup. Otherwise the call fails exactly when some member is unregistered, reporting the first such member. On success it returns one distinct fresh mode per member, in member order, with that member's code and Group equal to the group. |
| Registry.ToolModeRegistry.CreateToolModeGroupTwice | toolmodelib/src/System/ToolModeSystem.cs:103-113 | Two expansions against an unchanged registry succeed together and give the same code sequence. The instances differ. |
| Registry.ToolModeRegistry.SendSyncPacket | toolmodelib/src/System/ToolModeSystem.cs:136-143 | Appends exactly one (tree, key, value) packet to the outbox. |
| ServerSync.HandleSyncPacket | toolmodelib/src/System/ToolModeSystem.cs:121-123 | On the server, writes packet.value under packet.key in packet.tree and sends nothing. |
| ServerSync.DeliverAll | toolmodelib/src/System/ToolModeSystem.cs:118-124 | Handling a packet sequence in order applies every packet in order, and sends nothing. |
| ServerSync.SelectOnClientAndSync | toolmodelib/src/System/ToolModeApi.cs:185-197 | If client and server trees start equal, a client item selection followed by delivery of its packets leaves them equal again. The server then resolves the item to the chosen code. |
| ToolModes.ToolMode.constructor | toolmodelib/src/Common/ToolMode.cs:23-25 | Stores Group. Code and properties stay unset. |
| ToolModes.ToolMode.Initialize | toolmodelib/src/Common/ToolMode.cs:27-30 | Stores the properties string and nothing else. |
| ToolModes.ToolMode.OnLoaded | toolmodelib/src/Common/ToolMode.cs:32 | Marks the mode loaded. |
| ToolModes.ToolMode.OnUnloaded | toolmodelib/src/Common/ToolMode.cs:33 | Marks the mode unloaded. |
| ToolModes.DefaultShouldDisplay | toolmodelib/src/Common/ToolMode.cs:34 | Every mode is displayed by default. |
| ToolModes.DefaultAttackStart | toolmodelib/src/Common/ToolMode.cs:38-39 | PassThrough, with the caller's hand handling unchanged. |
| ToolModes.DefaultAttackCancel | toolmodelib/src/Common/ToolMode.cs:41-42 | PassThrough, and false: the attack is not cancelled. |
| ToolModes.DefaultAttackStep | toolmodelib/src/Common/ToolMode.cs:44-45 | PassThrough, and false: the attack does not continue. |
| ToolModes.DefaultAttackStop | toolmodelib/src/Common/ToolMode.cs:47-48 | PassThrough. |
| ToolModes.DefaultBlockBreaking | toolmodelib/src/Common/ToolMode.cs:50-51 | PassThrough, with the remaining resistance unchanged. |
| ToolModes.DefaultBlockBrokenWith | toolmodelib/src/Common/ToolMode.cs:53-54 | Leaves the caller's signal as it is and returns true. |
| ToolModes.DefaultInteractStart | toolmodelib/src/Common/ToolMode.cs:56-57 | PassThrough, with the caller's hand handling unchanged. |
| ToolModes.DefaultInteractStep | toolmodelib/src/Common/ToolMode.cs:59-60 | PassThrough, and true: the interaction continues. |
| ToolModes.DefaultInteractCancel | toolmodelib/src/Common/ToolMode.cs:62-63 | PassThrough, and true: the interaction may be cancelled. |
| ToolModes.DefaultInteractStop | toolmodelib/src/Common/ToolMode.cs:65-66 | PassThrough. |
| ToolModes.DefaultHeldInteractionHelp | toolmodelib/src/Common/ToolMode.cs:68-69 | An empty help list. |
| ToolModes.DefaultHandlersPassThrough | toolmodelib/src/Common/ToolMode.cs:34-69 | Every default handler except OnBlockBrokenWith answers PassThrough and keeps the hand handling. Breaking keeps the resistance. BrokenWith returns true and keeps the caller's signal. Attack cancel and step return false. Interact step and cancel return true. ShouldDisplay is true and the help list is empty. |
| ToolModes.VisibleModes | toolmodelib/src/Common/ItemWithModes.cs:77-84 | Keeps exactly the modes that pass ShouldDisplay, takes nothing else, and is no longer than the array. |
| ToolModes.CollectVisibleItems | toolmodelib/src/Patches/CollectibleObjectPatches.cs:89-96 | The filtering loop yields the display items of the visible modes, in array order. |
| ToolModes.PickVisible | toolmodelib/src/Patches/CollectibleObjectPatches.cs:148-151 | `visibleItems[toolMode]` fails exactly outside the visible range. Otherwise the `First` lookup returns a mode from the array with that item's code, so the lookup always finds one. |
| ToolModes.VisibleItemHasMode | toolmodelib/src/Patches/CollectibleObjectPatches.cs:148-151 | Every visible item names the code of some mode in the array, so the `First` lookup of SetToolMode cannot fail. |
| ToolModes.PickedMode | toolmodelib/src/Common/ItemWithModes.cs:107 | The mode chosen for a visible index is one of the array's modes and carries the code of the visible mode at that index. |
| ToolModes.FirstMatch | toolmodelib/src/Patches/CollectibleObjectPatches.cs:123-130 | The first index whose code matches, or none exactly when no mode matches. |
| ToolModes.FirstWithCode | toolmodelib/src/System/ToolModeApi.cs:61 | `FirstOrDefault` finds a mode exactly when some mode has the code, and the mode it finds has that code. |
| ToolModes.SelectedIndex | toolmodelib/src/Patches/CollectibleObjectPatches.cs:119-130 | With no mode of the selected code the index is 0. Otherwise it is the first index whose mode has that code. |
| ToolModes.SelectedIndexInRange | toolmodelib/src/Patches/CollectibleObjectPatches.cs:119-130 | For a non-empty array, the index chosen for a selection is a valid index. |
| ToolModes.ResolvedIndex | toolmodelib/src/Common/ItemWithModes.cs:86-94 | The index lies in [0, len) for a non-empty array. It is 0 without a selection or without a match, else the first matching index. |
| ToolModes.IndexOfCode | toolmodelib/src/Patches/CollectibleObjectPatches.cs:119-130 | The index loop gives the first mode with the selected code, or 0 when none matches. |
| ToolModes.LoadAll | toolmodelib/src/Patches/CollectibleObjectPatches.cs:39-42 | Every mode has received OnLoaded. Codes and properties are unchanged. |
| ToolModes.UnloadAll | toolmodelib/src/Common/ItemWithModes.cs:51-57 | Every mode has received OnUnloaded. Codes and properties are unchanged. |
| ToolModeApi.GetTreeToolMode | toolmodelib/src/System/ToolModeApi.cs:78-83 | A selection is found exactly when the tree has the key, and it is the stored value. |
| ToolModeApi.GetGroupToolMode | toolmodelib/src/System/ToolModeApi.cs:92-93 | A group's selection is found exactly when the group tree has the group's key, and it is the stored value. |
| ToolModeApi.GetItemToolMode | toolmodelib/src/System/ToolModeApi.cs:112-121 | The item's own entry wins. Without one, an item with a group reads the group's entry, and an item without a group has no selection. |
| ToolModeApi.GetBlockToolMode | toolmodelib/src/System/ToolModeApi.cs:123-132 | A block with a group whose entry exists reads the group's entry. Otherwise it reads the block's own entry. |
| ToolModeApi.ApplyPacket | toolmodelib/src/System/ToolModeApi.cs:134-140 | After the write the packet's key reads back the packet's value (none for a removal), and every other key of every tree reads as before. |
| ToolModeApi.ItemWrites | toolmodelib/src/System/ToolModeApi.cs:185-197 | Two writes exactly when the mode's group is the item's group: the group entry, then the cleared item entry. Otherwise one write of the mode's code under the item's code. |
| ToolModeApi.BlockWrites | toolmodelib/src/System/ToolModeApi.cs:199-208 | The last write stores the mode's code under the block's code. Before it, a mode whose group is not the block's code writes the group entry, or else a block with a group has its group entry cleared. There is one write exactly when neither applies. |
| ToolModeApi.GetCollectibleToolMode | toolmodelib/src/System/ToolModeApi.cs:95-102 | An item resolves through GetItemToolMode. A block-class collectible throws NotImplemented. |
| ToolModeApi.GetToolModeObj | toolmodelib/src/System/ToolModeApi.cs:55-62 | No cached modes gives null, and a block class throws. Otherwise the result is a cached mode whose code equals the item's resolved selection, present exactly when such a mode exists. There is no index-0 fallback. |
| ToolModeApi.WriteTree | toolmodelib/src/System/ToolModeApi.cs:134-144 | Afterwards the key reads back the written value, and a null write reads back as absent. Other keys and other trees are unchanged. |
| ToolModeApi.ItemOwnBeatsGroup | toolmodelib/src/System/ToolModeApi.cs:112-121 | For an item with a group, its own entry wins when present, else the group entry. |
| ToolModeApi.BlockGroupBeatsOwn | toolmodelib/src/System/ToolModeApi.cs:123-132 | For a block with a group, the group entry wins when present, else the block's own entry. |
| ToolModeApi.PrecedenceIsAsymmetric | toolmodelib/src/System/ToolModeApi.cs:112-132 | With both entries present, item and block resolve to different picks. |
| ToolModeApi.SetTreeToolMode | toolmodelib/src/System/ToolModeApi.cs:134-144 | The player's trees become the write. On the client exactly one packet is sent, on the server none. |
| ToolModeApi.SetTreeToolModeOf | toolmodelib/src/System/ToolModeApi.cs:146-156 | The mode overload writes the mode's code, or removes the key for a null mode, with the same packet rule. |
| ToolModeApi.SetGroupToolMode | toolmodelib/src/System/ToolModeApi.cs:164-167 | Writes the group tree under the group. |
| ToolModeApi.SetItemToolMode | toolmodelib/src/System/ToolModeApi.cs:185-197 | The trees become the item writes applied in order, and the outbox gains the same packets on the client only. |
| ToolModeApi.SetBlockToolMode | toolmodelib/src/System/ToolModeApi.cs:199-208 | The trees become the block writes applied in order: first the group entry of the mode's group, or else the clearing of the block's own group entry, when either applies, then the block entry, with the same packet rule. |
| ToolModeApi.SetCollectibleToolMode | toolmodelib/src/System/ToolModeApi.cs:169-176 | An item is set through SetItemToolMode. A block class throws before anything is written or sent. |
| ToolModeApi.ItemSelectThenGet | toolmodelib/src/System/ToolModeApi.cs:185-197 | After selecting a mode, GetItemToolMode returns its code. A group-compatible pick lands in the group tree and clears the item entry. Any other pick writes only the item entry. |
| ToolModeApi.ItemClearFallsBackToGroup | toolmodelib/src/System/ToolModeApi.cs:193-196 | Selecting null falls back to the group entry, or to nothing for an item without a group. |
| ToolModeApi.BlockSelectThenGet | toolmodelib/src/System/ToolModeApi.cs:199-208 | A block pick whose group is the block's own code or the block's group reads back through GetBlockToolMode, and the block entry holds it. |
| ToolModeApi.OwnPickSurvivesGroupPick | toolmodelib/src/System/ToolModeApi.cs:112-121 | A later group pick does not override an item's own pick. Clearing the own pick then exposes the group pick. |
| ToolModeApi.ObjectMatchesIndex | toolmodelib/src/System/ToolModeApi.cs:55-62 | When the selection matches, GetToolModeObj and the GetToolMode index agree on the mode. When it does not, the object is null while the index is 0. |
| ToolModeApi.WriteTreeIdempotent | toolmodelib/src/System/ToolModeApi.cs:134-144 | Writing the same value twice equals writing it once. |
| ToolModeApi.WriteTreeLastWins | toolmodelib/src/System/ToolModeApi.cs:134-144 | Of two writes to one key, the second decides. |
| ToolModeApi.WriteTreeCommutes | toolmodelib/src/System/ToolModeApi.cs:134-144 | Writes to different keys or trees commute. |
| ToolModeApi.SameKeyOrderMatters | toolmodelib/src/System/ToolModeApi.cs:134-144 | Writes to the same key do not commute, so packet order matters. |
| ToolModeApi.ApplyAllAppend | toolmodelib/src/System/ToolModeSystem.cs:121-123 | Applying a + b equals applying a, then b. |
| ToolModeApi.ApplyAllTwice | toolmodelib/src/System/ToolModeSystem.cs:121-123 | Applying the same packet twice equals applying it once. |
| ModeDecls.DeclaredList | toolmodelib/src/Common/ItemWithModes.cs:31-33 | A missing "toolmodes" array declares no modes. A present array is used as is. |
| ModeDecls.CreateDeclaredModes | toolmodelib/src/Common/ItemWithModes.cs:33-45 | Fails exactly when a declared name is unregistered, reporting the first. Otherwise it returns one fresh mode per declaration, in order, with Group equal to the owner's code. Initialize runs exactly for declarations with properties. |
| ModeDecls.LoadDeclared | toolmodelib/src/Common/ItemWithModes.cs:33-48 | Fails exactly when a declared name is unregistered, and then loads nothing. On success the array is the given modes, unchanged in code and properties, followed by one fresh mode per declaration, and every mode is loaded. |
| Patches.OnLoadedNative | toolmodelib/src/Patches/CollectibleObjectPatches.cs:15-44 | Missing attributes store nothing. Otherwise the list is the group's members, then the "toolmodes" entries, in order. Group members get the group, the others the collectible's code. If the list is empty nothing is stored. Every mode is loaded before storing. Failure happens exactly when the group or a name is unregistered. |
| Patches.HeldInteractionHelp | toolmodelib/src/Patches/CollectibleObjectPatches.cs:60-72 | Appends the set-tool-mode help exactly when modes are registered. |
| Patches.GetToolModes | toolmodelib/src/Patches/CollectibleObjectPatches.cs:78-104 | Without an api the prefix returns null and skips. Without modes the original runs. Otherwise it returns the visible display items in order, or null when none is visible. |
| Patches.GetToolMode | toolmodelib/src/Patches/CollectibleObjectPatches.cs:110-133 | Without a player or modes the original runs. Otherwise the result lies in [0, len): 0 without a selection, else the first matching index. A block class throws. |
| Patches.SetToolMode | toolmodelib/src/Patches/CollectibleObjectPatches.cs:139-154 | Nothing is written on the server (its visible list is null) or when nothing is visible. An index outside the visible items throws. Otherwise the mode with the chosen item's code is stored through SetCollectibleToolMode. |
| Patches.ValueEvent | toolmodelib/src/Patches/CollectibleObjectPatches.cs:180-197 | The original runs when the api, the player or the mode is missing. Any signal but PassThrough skips it and substitutes the mode's value. Resolution faults propagate. |
| Patches.BlockBreaking | toolmodelib/src/Patches/CollectibleObjectPatches.cs:160-174 | The same rule, with the player as the only guard. |
| Patches.VoidEvent | toolmodelib/src/Patches/CollectibleObjectPatches.cs:281-297 | The stop events skip the original exactly on a non-PassThrough signal. |
| Patches.AttackStart | toolmodelib/src/Patches/CollectibleObjectPatches.cs:203-229 | Skips on any non-PassThrough signal and copies the mode's hand handling. The attack sound plays exactly on PreventDefault, with a sound, on the client. |
| Patches.InteractStart | toolmodelib/src/Patches/CollectibleObjectPatches.cs:303-322 | Skips on any non-PassThrough signal and copies the mode's hand handling. |
| ItemModes.ItemWithModes.CurrentModeAsWritten | toolmodelib/src/Common/ItemWithModes.cs:115-116 | As written, a missing player (no trees) throws NullReference and an empty mode array throws IndexOutOfRange. Otherwise the current mode is one of the array's modes. |
| ItemModes.ItemWithModes.CurrentMode | toolmodelib/src/Common/ItemWithModes.cs:115-116 | A missing player (no trees) throws NullReference. Otherwise there is a current mode exactly when the array is non-empty, and it is one of the array's modes. |
| ItemModes.ItemWithModes.OnLoaded | toolmodelib/src/Common/ItemWithModes.cs:25-49 | Fails exactly on an uncreatable group, missing attributes or an unregistered name. On success the array is group modes, then declared modes, all fresh and all loaded. A missing "toolmodes" adds nothing. |
| ItemModes.ItemWithModes.OnUnloaded | toolmodelib/src/Common/ItemWithModes.cs:51-57 | Every mode has received OnUnloaded. |
| ItemModes.ItemWithModes.GetToolModes | toolmodelib/src/Common/ItemWithModes.cs:77-84 | Null exactly when nothing is visible. Otherwise the visible display items, in order. |
| ItemModes.ItemWithModes.GetToolMode | toolmodelib/src/Common/ItemWithModes.cs:86-94 | A null player throws. Otherwise the result is the resolved index of the item's selection. |
| ItemModes.ItemWithModes.GetRealToolMode | toolmodelib/src/Common/ItemWithModes.cs:96-99 | The mode at that index. An empty array throws. |
| ItemModes.ItemWithModes.SetToolMode | toolmodelib/src/Common/ItemWithModes.cs:101-110 | The server, or nothing visible, writes nothing. An out-of-range index throws. Otherwise the chosen visible mode is written through SetItemToolMode. |
| ItemModes.ItemWithModes.AsWrittenNeverFallsBack | toolmodelib/src/Common/ItemWithModes.cs:115 | As written, the current-mode lookup throws exactly for an item without modes, so the null fallback cannot be reached. |
| ItemModes.ItemWithModes.CurrentModeFallsBack | toolmodelib/src/Common/ItemWithModes.cs:115-116 | The corrected lookup gives no mode exactly for an empty array. Otherwise it gives the mode at GetToolMode's index, the same mode as as written. |
| ItemModes.ValueEvent | toolmodelib/src/Common/ItemWithModes.cs:112-127 | BrokenWith and attack cancel/step return the mode's value exactly on a non-PassThrough signal. Otherwise they call base. |
| ItemModes.PreventSubsequentEvent | toolmodelib/src/Common/ItemWithModes.cs:233-261 | Interact step and cancel return the mode's value only on PreventSubsequent. |
| ItemModes.VoidEvent | toolmodelib/src/Common/ItemWithModes.cs:201-215 | The stop events skip base exactly on PreventSubsequent. |
| ItemModes.BlockBreaking | toolmodelib/src/Common/ItemWithModes.cs:129-142 | PassThrough calls base with the original resistance. PreventDefault calls base with the mode's value. PreventSubsequent returns the mode's value without base. |
| ItemModes.AttackStart | toolmodelib/src/Common/ItemWithModes.cs:144-165 | PreventSubsequent returns at once. Otherwise base runs, and the sound plays exactly on PassThrough, with a sound, on the client. |
| ItemModes.InteractStart | toolmodelib/src/Common/ItemWithModes.cs:217-231 | Base is skipped exactly on PreventSubsequent. No sound plays. |
| BlockModes.BlockWithModes.OnLoaded | toolmodelib/src/Common/BlockWithModes.cs:19-43 | Same layout as the item, built with the corrected missing-array guard. A block without "toolmodes" gets just its group modes. |
| BlockModes.BlockWithModes.OnUnloaded | toolmodelib/src/Common/BlockWithModes.cs:45-51 | Every mode has received OnUnloaded. |
| BlockModes.BlockWithModes.GetToolModes | toolmodelib/src/Common/BlockWithModes.cs:53-60 | The visible display items in order, possibly empty, never null. |
| BlockModes.DeclaredListAsWritten | toolmodelib/src/Common/BlockWithModes.cs:25-27 | As written, a missing "toolmodes" array throws. Otherwise the array is used as is. |
| BlockModes.MissingToolModesThrowsAsWritten | toolmodelib/src/Common/BlockWithModes.cs:25-27 | A missing array throws as written, while the item's guard declares nothing. Where the array exists the two agree. |
| Dispatch.NoModeIsTransparent | toolmodelib/src/Patches/CollectibleObjectPatches.cs:162-166 | Without a current mode, every event of both variants lets the original or base run with the caller's own arguments. |
| Dispatch.DefaultModeIsTransparent | toolmodelib/src/Common/ToolMode.cs:38-66 | A mode that overrides nothing is transparent in every prefix event and in every override event except attack start. There the override plays the attack sound on the client for the PassThrough answer (ItemWithModes.cs:157-161), which the no-mode path does not. |
| Dispatch.PatchValueEventsFollowReference | toolmodelib/src/Patches/CollectibleObjectPatches.cs:191-196 | The prefix value events follow the reference meaning of the signals, and treat PreventDefault and PreventSubsequent alike. |
| Dispatch.PatchAttackStartFollowsReference | toolmodelib/src/Patches/CollectibleObjectPatches.cs:214-228 | The attack-start prefix follows the reference meaning for all three signals. |
| Dispatch.ItemAttackStartDepartsAtPreventDefault | toolmodelib/src/Common/ItemWithModes.cs:153-164 | The override agrees with the reference meaning exactly when the signal is not PreventDefault. On PreventDefault it runs base and drops the sound. |
| Dispatch.AttackSoundRulesOpposite | toolmodelib/src/Common/ItemWithModes.cs:156-161 | The prefix sounds only on PreventDefault and the override only on PassThrough. No signal plays the sound in both. |
| Dispatch.InteractStepVariantsDiffer | toolmodelib/src/Common/ItemWithModes.cs:244 | On PreventDefault the prefix substitutes the value while the override calls base. On the other signals they agree. |
| Dispatch.ValueEventVariantsAgree | toolmodelib/src/Common/ItemWithModes.cs:112-127 | BrokenWith and attack cancel/step agree between the variants for every signal and value. |
| Dispatch.BlockBreakingVariants | toolmodelib/src/Common/ItemWithModes.cs:138-141 | Block breaking in the two variants, per signal. On PreventDefault the prefix returns the mode's value, while the override feeds that value into base. |
| Dispatch.BlockClassPrefixesThrow | toolmodelib/src/System/ToolModeApi.cs:97-101 | Every prefix of a block-class collectible with cached modes throws NotImplemented. |
| MultiBreak.GetNearbyMultibreakables | toolmodelib/src/Item/ItemMultiBreakWithModes.cs:111-133 | The triple loop yields the breakable cells of the cube in loop order, leaving out the origin (the reference list Kept). |
| MultiBreak.ScanColumn | toolmodelib/src/Item/ItemMultiBreakWithModes.cs:119-127 | The innermost dz loop extends the reference list by the next three cells of the cube. |
| MultiBreak.CellAt | toolmodelib/src/Item/ItemMultiBreakWithModes.cs:115-124 | The offsets (dx, dy, dz) of the loops visit the cube cell of index 9(dx+1) + 3(dy+1) + (dz+1). |
| MultiBreak.CellIsNearby | toolmodelib/src/Item/ItemMultiBreakWithModes.cs:115-124 | Every cube cell differs from the origin by at most one in each coordinate. |
| MultiBreak.CellInjective | toolmodelib/src/Item/ItemMultiBreakWithModes.cs:115-124 | Distinct loop steps visit distinct cells. |
| MultiBreak.KeptMembers | toolmodelib/src/Item/ItemMultiBreakWithModes.cs:121-126 | After k steps, a position has been added exactly when it is breakable, not the origin, and one of the first k cells. |
| MultiBreak.KeptFacts | toolmodelib/src/Item/ItemMultiBreakWithModes.cs:121-126 | After k steps no position has been added twice, and the origin's step adds nothing. |
| MultiBreak.CandidatesAreBreakableNeighbours | toolmodelib/src/Item/ItemMultiBreakWithModes.cs:115-127 | A position is a candidate exactly when it is one of the 26 neighbours and breakable. There are at most 26 candidates and none is repeated, so the dictionary Add never fails. |
| MultiBreak.OrderByDistance | toolmodelib/src/Item/ItemMultiBreakWithModes.cs:59 | A permutation of the candidates in ascending distance. |
| MultiBreak.Insert | toolmodelib/src/Item/ItemMultiBreakWithModes.cs:59 | Inserting into a sorted list keeps it sorted and adds exactly the new element. |
| MultiBreak.InsertHead | toolmodelib/src/Item/ItemMultiBreakWithModes.cs:59 | Putting the head back in front of a sorted insertion into the tail keeps the list sorted and adds exactly the new element. |
| MultiBreak.Accessible | toolmodelib/src/Item/ItemMultiBreakWithModes.cs:65 | The positions that pass the claim test, in order: exactly the listed positions that are accessible. |
| MultiBreak.OrderedAreBreakableNeighbours | toolmodelib/src/Item/ItemMultiBreakWithModes.cs:58-59 | The ordered positions are exactly the breakable neighbours, at most 26, sorted by distance. |
| MultiBreak.DamageOrdered | toolmodelib/src/Item/ItemMultiBreakWithModes.cs:61-69 | The quota loop damages what the reference DamagedFrom names. |
| MultiBreak.DamagedIsAccessiblePrefix | toolmodelib/src/Item/ItemMultiBreakWithModes.cs:61-69 | The damaged positions are the first min(q, n) accessible positions. Inaccessible ones use no quota. A negative quota damages all accessible positions. |
| MultiBreak.DamageNearbyBlocks | toolmodelib/src/Item/ItemMultiBreakWithModes.cs:50-70 | Nothing for a non-multi-break item or an unbreakable origin. Otherwise the quota loop runs over the ordered candidates. |
| MultiBreak.DamageNearbyBounds | toolmodelib/src/Item/ItemMultiBreakWithModes.cs:57-69 | At most min(quantity, durability) positions are damaged, at most 26, each an accessible breakable neighbour, nearest first. |
| MultiBreak.BreakOrdered | toolmodelib/src/Item/ItemMultiBreakWithModes.cs:92-100 | The break loop breaks what the reference BrokenFrom names, with one DamageItem per break. |
| MultiBreak.BrokenIsAccessiblePrefix | toolmodelib/src/Item/ItemMultiBreakWithModes.cs:92-100 | The broken neighbours are a prefix of the accessible ones, at most max(quantity, 1). With a lasting itemstack they are exactly min(quantity, accessible). |
| MultiBreak.OnBlockBrokenWith | toolmodelib/src/Item/ItemMultiBreakWithModes.cs:72-102 | Always PreventSubsequent and true. Without a player, a stack or the item, nothing is broken. Otherwise the origin is broken first, then, if it qualifies, the neighbours by quota with one damage each. |
| MultiBreak.DefaultBreaksAtMostFive | toolmodelib/src/Item/ItemMultiBreakWithModes.cs:39 | With the default quantity 5, at most five accessible breakable neighbours follow the origin, nearest first. Exactly min(5, accessible) do while the itemstack lasts. |
| MultiBreak.OnBlockBreaking | toolmodelib/src/Item/ItemMultiBreakWithModes.cs:21-29 | The resistance is base's value through the ItemWithModes chain. Damage happens only through a mode that implements OnBlockBreakingAfter, and then exactly the quota walk of DamagedFrom when the item is a multi-break item and the origin qualifies, nothing otherwise. |
| MultiBreak.OnBlockBreakingAfter | toolmodelib/src/Item/ItemMultiBreakWithModes.cs:43-48 | Returns the resistance unchanged and damages the nearby blocks. |
| MultiBreak.DefaultCanMultiBreak | toolmodelib/src/Item/ItemMultiBreakWithModes.cs:17-19 | The default qualification test accepts every block. |
| Scythe.CanMultiBreak | toolmodelib/src/Item/ItemScytheWithModes.cs:29-40 | Null prefixes throw. Otherwise the result is true exactly when some prefix starts the path and, if suffixes are given, none ends it. |
| Scythe.Perform | toolmodelib/src/Item/ItemScytheWithModes.cs:108-133 | When armed, the sound plays exactly once the time passes 0.75 and its flag is clear. The break is invoked exactly once the time passes 1.05, its flag is clear, on the server with access. Each flag only turns on. |
| Scythe.AtMostOnce | toolmodelib/src/Item/ItemScytheWithModes.cs:121-132 | Over any sequence of calls there is at most one sound and at most one break, none once the flag is set, and set flags stay set. |
| Scythe.SoundPlaysOnce | toolmodelib/src/Item/ItemScytheWithModes.cs:121-124 | From cleared flags, a swing that reaches 0.75 while armed sounds exactly once. On the client it never breaks. |
| Scythe.SoundFromCleared | toolmodelib/src/Item/ItemScytheWithModes.cs:121-124 | From any flags with the sound flag clear, a swing with an armed tick past 0.75 plays exactly one sound. |
| Scythe.ClientNeverBreaks | toolmodelib/src/Item/ItemScytheWithModes.cs:126-132 | Ticks that all run on the client never invoke the break. |
| Scythe.Swinger.OnHeldAttackStart | toolmodelib/src/Item/ItemScytheWithModes.cs:50-62 | Without a selection, a player or access, nothing changes. Otherwise both flags are cleared, the mode sets PreventSubsequent and the hand handling is PreventDefault. |
| Scythe.Swinger.PerformActions | toolmodelib/src/Item/ItemScytheWithModes.cs:108-133 | The new flags and the effects are those of Perform. |
| Scythe.Swinger.OnHeldAttackStep | toolmodelib/src/Item/ItemScytheWithModes.cs:95-99 | Always PreventSubsequent. The swing continues on the server, or on the client while under 2 seconds. |
| Scythe.Swinger.OnHeldAttackStop | toolmodelib/src/Item/ItemScytheWithModes.cs:102-106 | PreventSubsequent, then the actions once more. |
| Scythe.Trimmed | toolmodelib/src/Item/ItemScytheWithModes.cs:168 | `CodeWithVariant("tallgrass", "eaten")` keeps the base code and every other variant, sets tallgrass to eaten, and gives the block itself exactly when its tallgrass is already eaten. |
| Scythe.BreakMultiBlockTrim | toolmodelib/src/Item/ItemScytheWithModes.cs:163-182 | A registered tallgrass block whose tallgrass is already eaten is left alone. Tallgrass whose eaten variant is registered is replaced by that variant. A block without a tallgrass variant, or whose eaten variant is not registered, takes the base break. |
| Scythe.TrimTwiceIsTrimOnce | toolmodelib/src/Item/ItemScytheWithModes.cs:168-172 | The block a trim puts in place is left alone by a second trim, for every block and every registry. |

## Left out

- Harmony patch application and the IL transpilers of the renderer patches. Each prefix is modelled as "run the original, or skip it with a result".
- The network channel and its transport. Sending appends to an outbox sequence, and delivery is an explicit call.
- Instantiation by reflection (`Activator.CreateInstance`). It is a constructor over an opaque mode type.
- The registry cache: `GetCollectibleToolModes`, `SetCollectibleToolModes`, `UnloadCollectibleToolModes` and `GetCollectibleGroup` are not shown in the source. The cached array and the reported group are parameters, and the patch's `OnUnloaded` postfix, which only forwards to the cache, is not modelled.
- `ToolModeGroupLoader` (asset loading) and `AssetLocation` parsing. Codes are opaque strings with equality, and domain defaulting is not modelled.
- Mode handlers are opaque functions from the mode to its reply. `ShouldDisplay` is a caller-supplied predicate. A mode's display item carries only its code (no icons, no `Lang` text).
- `ItemWithModes.GetHeldInteractionHelp` and the mode's own help text, because they are UI text.
- The world, block accessor, land claims, sounds, block damage and `SquareDistanceTo`. These are predicates and functions passed as parameters. Sounds and breaks are reported as effects.
- `DamageItem` and the itemstack: whether the stack survives the n-th damage is a parameter.
- The client-side held-item animation of the scythe swing. Only the time thresholds are kept.
- `float` is modelled as `real`, so float rounding of the 0.75, 1.05 and 2 thresholds is not captured.
- `ItemScytheWithModes.OnLoaded` (reading the two attribute arrays) is a parameter of `CanMultiBreak`, and null elements inside those arrays are not modelled.
- The trim mode's block-entity conversion after replacement, and the Remove mode, which adds only UI.
- `BlockWithModes.GetToolMode` defers to the base implementation, which is the patch prefix `Patches.GetToolMode`. It has no separate member.
- ToolModes.PickVisible: a mode's display item is modelled as carrying the mode's own code. `GetDisplaySkillItem` is abstract (Common/ToolMode.cs:36) and written by each mode's author; an item carrying another code would make the `First` lookup (Common/ItemWithModes.cs:107, Patches/CollectibleObjectPatches.cs:151) throw InvalidOperationException, which the model does not capture.
- ToolModes.VisibleItemHasMode: holds only under the same assumption that each display item carries its mode's code.
- MultiBreak.OnBlockBrokenWith: the world is one snapshot. The source reads the origin block (Item/ItemMultiBreakWithModes.cs:75) before breaking it (:83) and reads the neighbours after that break (:87); the model judges both with the same `canBreak`, so a break that changes a neighbour is not captured.
- MultiBreak.OnBlockBreaking: one current mode stands for both lookups, the override chain's and the `GetRealToolMode` call at Item/ItemMultiBreakWithModes.cs:24. The corrected model treats that second lookup as "no mode" for an item without modes as well, while as written `ToolModes[...]` (Common/ItemWithModes.cs:98) throws IndexOutOfRange there.
- MultiBreak.OrderByDistance: proves the result is sorted and a permutation, but not that LINQ's sort is stable for equal distances.
- The `JsonObject` properties of a mode are an opaque string (`Initialize` stores it). A declared mode's name is assumed present.
- Engine events without a current mode, or events that call base, are not modelled any further: `CallBase`/`RunOriginal` stand for the engine's own behaviour.

## Findings

| source | as written | input that shows it | evidently intended | confidence | as-written member | corrected member |
|---|---|---|---|---|---|---|
| toolmodelib/src/Common/BlockWithModes.cs:25-27 | `toolModesArray.Any()` is called without a null check, after `Attributes["toolmodes"]?.ToArray()` | A block whose attributes have no "toolmodes" entry: the array is null and `Any()` throws ArgumentNullException | Declare no block-specific modes, as `ItemWithModes` does with `?.Any() ?? false` | not executed; high | BlockModes.DeclaredListAsWritten, BlockModes.MissingToolModesThrowsAsWritten | BlockModes.BlockWithModes.OnLoaded (via ModeDecls.DeclaredList) |
| toolmodelib/src/Common/ItemWithModes.cs:115-116 | `ToolModes.GetValue(GetToolMode(...)) as ToolMode`, followed by a `currentMode == null` fallback to base (same at 131, 147, 170, 188, 204, 220, 236, 251, 266; `GetRealToolMode`, Common/ItemWithModes.cs:98, called at Item/ItemMultiBreakWithModes.cs:24, indexes the same empty array and throws too) | An item without modes: GetToolMode returns 0 and `GetValue(0)` on an empty array throws IndexOutOfRangeException, so the null fallback is never reached | No current mode, and each event falls back to base | not executed; medium | ItemModes.ItemWithModes.CurrentModeAsWritten, ItemModes.ItemWithModes.AsWrittenNeverFallsBack | ItemModes.ItemWithModes.CurrentMode, ItemModes.ItemWithModes.CurrentModeFallsBack |
