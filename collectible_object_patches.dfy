/** The prefixes and postfixes on CollectibleObject
    (Patches/CollectibleObjectPatches.cs). A prefix either lets the original
    method run or skips it with a result of its own. */
module Patches {
  import opened Types
  import opened ToolModes
  import opened Registry
  import opened ToolModeApi

  /** A prefix's answer: `true` (run the original) or `false` with __result set. */
  datatype Prefix<T> = RunOriginal | Skip(result: T)

  // ---------------------------------------------------------------------------
  // OnLoadedNative postfix: building the mode list of a plain collectible.

  /** The two attributes the postfix reads ("toolmodegroup", "toolmodes"). */
  datatype PatchAttributes = PatchAttributes(toolModeGroup: Option<Code>, toolModes: Option<seq<Code>>)

  /** The member codes contributed by the group attribute, if it names a registered group. */
  function GroupPart(registry: ToolModeRegistry, attributes: PatchAttributes): seq<Code>
    reads registry
  {
    if attributes.toolModeGroup.Some? && attributes.toolModeGroup.value in registry.groupModes
    then registry.groupModes[attributes.toolModeGroup.value] else []
  }

  function NamedPart(attributes: PatchAttributes): seq<Code>
  {
    if attributes.toolModes.Some? then attributes.toolModes.value else []
  }

  /** The codes of the list, in order: group members, then "toolmodes" entries. */
  function LoadedCodes(registry: ToolModeRegistry, attributes: PatchAttributes): seq<Code>
    reads registry
  {
    GroupPart(registry, attributes) + NamedPart(attributes)
  }

  /** The conditions under which building the list throws: an unknown group,
      a group member without a registered type, or an unregistered "toolmodes" entry. */
  predicate LoadFails(registry: ToolModeRegistry, attributes: PatchAttributes)
    reads registry
  {
    (attributes.toolModeGroup.Some? && !registry.CanCreateGroup(attributes.toolModeGroup.value))
    || exists k :: 0 <= k < |NamedPart(attributes)| && NamedPart(attributes)[k] !in registry.codeToType
  }

  /** The array the postfix hands to SetCollectibleToolModes: None when the
      collectible has no attributes or the list is empty (nothing is stored). */
  method OnLoadedNative(registry: ToolModeRegistry, collectible: Collectible, attributes: Option<PatchAttributes>)
    returns (r: Result<Option<seq<ToolMode>>>)
    ensures attributes.None? ==> r == Ok(None)
    ensures attributes.Some? ==> (r.Err? <==> LoadFails(registry, attributes.value))
    ensures attributes.Some? && r.Ok? ==> (r.value.None? <==> LoadedCodes(registry, attributes.value) == [])
    ensures r.Ok? && r.value.Some? ==>
              attributes.Some? && |r.value.value| == |LoadedCodes(registry, attributes.value)|
    ensures r.Ok? && r.value.Some? ==>
              forall i :: 0 <= i < |r.value.value| ==>
                fresh(r.value.value[i]) && r.value.value[i].lifecycle == Loaded
                && r.value.value[i].code == Some(LoadedCodes(registry, attributes.value)[i])
                && r.value.value[i].group ==
                     (if i < |GroupPart(registry, attributes.value)| then attributes.value.toolModeGroup.value
                      else collectible.code)
  {
    if attributes.None? {
      return Ok(None);
    }
    var attrs := attributes.value;
    var modes: seq<ToolMode> := [];
    if attrs.toolModeGroup.Some? {
      var created := registry.CreateToolModeGroup(attrs.toolModeGroup.value);
      if created.Err? {
        return Err(created.fault);
      }
      modes := created.value;
    }
    ghost var groupPart := GroupPart(registry, attrs);
    assert |modes| == |groupPart|;
    var names := NamedPart(attrs);
    var i := 0;
    while i < |names|
      invariant 0 <= i <= |names|
      invariant |modes| == |groupPart| + i
      invariant forall j :: 0 <= j < i ==> names[j] in registry.codeToType
      invariant forall j :: 0 <= j < |modes| ==> fresh(modes[j]) && modes[j].lifecycle == Created
      invariant forall j :: 0 <= j < |groupPart| ==>
                  modes[j].code == Some(groupPart[j]) && modes[j].group == attrs.toolModeGroup.value
      invariant forall j :: |groupPart| <= j < |modes| ==>
                  modes[j].code == Some(names[j - |groupPart|]) && modes[j].group == collectible.code
    {
      var made := registry.CreateToolModeInGroup(collectible.code, names[i]);
      if made.Err? {
        return Err(made.fault);
      }
      modes := modes + [made.value];
      i := i + 1;
    }
    if |modes| == 0 {
      return Ok(None);
    }
    ghost var codes := LoadedCodes(registry, attrs);
    assert forall j :: 0 <= j < |modes| ==> modes[j].code == Some(codes[j]);
    LoadAll(modes);
    return Ok(Some(modes));
  }

  // ---------------------------------------------------------------------------
  // GetHeldInteractionHelp postfix.

  datatype WorldInteraction = WorldInteraction(actionLangCode: string, hotKeyCode: string)

  const SetToolModeHelp := WorldInteraction("heldhelp-settoolmode", "toolmodeselect")

  /** One "set tool mode" hint is appended exactly when modes are cached. */
  function HeldInteractionHelp(original: seq<WorldInteraction>, cached: Option<seq<ToolMode>>): (r: seq<WorldInteraction>)
    ensures cached.Some? && cached.value != [] ==> r == original + [SetToolModeHelp]
    ensures cached.None? || cached.value == [] ==> r == original
  {
    if cached.Some? && |cached.value| > 0 then original + [SetToolModeHelp] else original
  }

  // ---------------------------------------------------------------------------
  // GetToolModes / GetToolMode / SetToolMode prefixes.

  /** `hasApi` is forPlayer?.Entity.Api != null; `shown` is ShouldDisplay in this call's context. */
  method GetToolModes(hasApi: bool, cached: Option<seq<ToolMode>>, shown: ToolMode -> bool)
    returns (r: Prefix<Option<seq<SkillItem>>>)
    ensures !hasApi ==> r == Skip(None)
    ensures hasApi && (cached.None? || cached.value == []) ==> r == RunOriginal
    ensures hasApi && cached.Some? && cached.value != [] ==>
              r.Skip? && (r.result.None? <==> VisibleModes(cached.value, shown) == [])
              && (r.result.Some? ==> r.result.value == SkillItems(VisibleModes(cached.value, shown)))
  {
    if !hasApi {
      return Skip(None);
    }
    if cached.None? || |cached.value| == 0 {
      return RunOriginal;
    }
    var items := CollectVisibleItems(cached.value, shown);
    ghost var visible := VisibleModes(cached.value, shown);
    if visible != [] {
      SkillItemsAt(visible, 0);
    }
    if |items| == 0 {
      return Skip(None);
    }
    return Skip(Some(items));
  }

  /** The index of the selected mode; the item-class resolution is the only
      one implemented, so a block with cached modes fails. */
  method GetToolMode(byPlayer: Option<Player>, cached: Option<seq<ToolMode>>, collectible: Collectible)
    returns (r: Result<Prefix<nat>>)
    ensures byPlayer.None? || cached.None? || cached.value == [] ==> r == Ok(RunOriginal)
    ensures byPlayer.Some? && cached.Some? && cached.value != [] && collectible.itemClass == Block ==>
              r == Err(NotImplemented)
    ensures byPlayer.Some? && cached.Some? && cached.value != [] && collectible.itemClass == Item ==>
              r.Ok? && r.value.Skip? && r.value.result < |cached.value|
              && (GetItemToolMode(byPlayer.value.trees, collectible).None? ==> r.value.result == 0)
              && (GetItemToolMode(byPlayer.value.trees, collectible).Some? ==>
                    r.value.result == SelectedIndex(cached.value, GetItemToolMode(byPlayer.value.trees, collectible).value))
  {
    if byPlayer.None? || cached.None? || |cached.value| == 0 {
      return Ok(RunOriginal);
    }
    var resolved := GetCollectibleToolMode(byPlayer.value.trees, collectible);
    if resolved.Err? {
      return Err(resolved.fault);
    }
    if resolved.value.None? {
      return Ok(Skip(0));
    }
    var index := IndexOfCode(cached.value, resolved.value.value);
    return Ok(Skip(index));
  }

  /** Maps the UI index back to a mode and stores it. `visibleItems` comes from
      GetToolModes with `byPlayer as IClientPlayer`, which has no api on the
      server, so only a client player gets past the null check. */
  method SetToolMode(byPlayer: Player, hasApi: bool, registry: ToolModeRegistry, cached: Option<seq<ToolMode>>,
                     shown: ToolMode -> bool, collectible: Collectible, toolMode: int)
    returns (r: Result<bool>)
    requires cached.Some? ==> Coded(cached.value)
    modifies byPlayer`trees, registry`outbox
    ensures !hasApi || cached.None? || cached.value == [] ==>
              r == Ok(true) && byPlayer.trees == old(byPlayer.trees) && registry.outbox == old(registry.outbox)
    ensures hasApi && cached.Some? && cached.value != [] && (byPlayer.side == Server || VisibleModes(cached.value, shown) == []) ==>
              r == Ok(false) && byPlayer.trees == old(byPlayer.trees) && registry.outbox == old(registry.outbox)
    ensures hasApi && cached.Some? && cached.value != [] && byPlayer.side == Client && VisibleModes(cached.value, shown) != []
            && !(0 <= toolMode < |VisibleModes(cached.value, shown)|) ==>
              r == Err(IndexOutOfRange) && byPlayer.trees == old(byPlayer.trees) && registry.outbox == old(registry.outbox)
    ensures hasApi && cached.Some? && byPlayer.side == Client && 0 <= toolMode < |VisibleModes(cached.value, shown)| ==>
              var picked := old(IdOf(Some(PickedMode(cached.value, shown, toolMode))));
              (collectible.itemClass == Block ==>
                 r == Err(NotImplemented) && byPlayer.trees == old(byPlayer.trees) && registry.outbox == old(registry.outbox))
              && (collectible.itemClass == Item ==>
                 r == Ok(false) && byPlayer.trees == ApplyAll(old(byPlayer.trees), ItemWrites(collectible, picked))
                 && registry.outbox == old(registry.outbox) + Sent(byPlayer.side, ItemWrites(collectible, picked)))
  {
    if !hasApi || cached.None? || |cached.value| == 0 {
      return Ok(true);
    }
    var modes := cached.value;
    var listed := GetToolModes(byPlayer.side == Client, cached, shown);
    var visibleItems := if listed.Skip? then listed.result else None;
    if visibleItems.None? {
      return Ok(false);
    }
    var picked := PickVisible(modes, shown, visibleItems.value, toolMode);
    if picked.Err? {
      return Err(picked.fault);
    }
    ghost var id := IdOf(Some(picked.value));
    var outcome := SetCollectibleToolMode(byPlayer, registry, collectible, Some(picked.value));
    assert IdOf(Some(picked.value)) == id;
    if outcome.Fail? {
      return Err(outcome.fault);
    }
    return Ok(false);
  }

  // ---------------------------------------------------------------------------
  // Event prefixes. Each one runs the original when the api, the player or the
  // current mode is missing; otherwise it asks the mode, starting from
  // PassThrough, and skips the original on any other signal. `resolved` is
  // GetToolModeObj for the event's player; a handler stands for the mode's
  // override of that event.

  /** OnBlockBreaking, OnBlockBrokenWith, OnHeldAttackCancel/Step and
      OnHeldInteractCancel/Step: the mode's value replaces the original's. */
  function ValueEvent<T>(hasApi: bool, hasPlayer: bool, resolved: Result<Option<ToolMode>>, handler: ToolMode -> Reply<T>)
    : (r: Result<Prefix<T>>)
    ensures !hasApi || !hasPlayer || resolved == Ok(None) ==> r == Ok(RunOriginal)
    ensures hasApi && hasPlayer && resolved.Err? ==> r == Err(resolved.fault)
    ensures r.Ok? && r.value.Skip? <==>
              hasApi && hasPlayer && resolved.Ok? && resolved.value.Some? && handler(resolved.value.value).handling != PassThrough
    ensures r.Ok? && r.value.Skip? ==> r.value.result == handler(resolved.value.value).value
  {
    if !hasApi || !hasPlayer then Ok(RunOriginal)
    else match resolved
      case Err(fault) => Err(fault)
      case Ok(None) => Ok(RunOriginal)
      case Ok(Some(mode)) =>
        var reply := handler(mode);
        if reply.handling == PassThrough then Ok(RunOriginal) else Ok(Skip(reply.value))
  }

  /** OnBlockBreaking reads the api through the player, so the two checks are one. */
  function BlockBreaking(hasPlayer: bool, resolved: Result<Option<ToolMode>>, handler: ToolMode -> Reply<real>)
    : (r: Result<Prefix<real>>)
    ensures !hasPlayer || resolved == Ok(None) ==> r == Ok(RunOriginal)
    ensures hasPlayer && resolved.Err? ==> r == Err(resolved.fault)
    ensures r.Ok? && r.value.Skip? <==>
              hasPlayer && resolved.Ok? && resolved.value.Some? && handler(resolved.value.value).handling != PassThrough
    ensures r.Ok? && r.value.Skip? ==> r.value.result == handler(resolved.value.value).value
  {
    ValueEvent(hasPlayer, hasPlayer, resolved, handler)
  }

  /** OnHeldAttackStop and OnHeldInteractStop: no value, only whether the original runs. */
  function VoidEvent(hasApi: bool, hasPlayer: bool, resolved: Result<Option<ToolMode>>, handler: ToolMode -> Handling)
    : (r: Result<Prefix<()>>)
    ensures !hasApi || !hasPlayer || resolved == Ok(None) ==> r == Ok(RunOriginal)
    ensures hasApi && hasPlayer && resolved.Err? ==> r == Err(resolved.fault)
    ensures r == Ok(Skip(())) <==>
              hasApi && hasPlayer && resolved.Ok? && resolved.value.Some? && handler(resolved.value.value) != PassThrough
  {
    if !hasApi || !hasPlayer then Ok(RunOriginal)
    else match resolved
      case Err(fault) => Err(fault)
      case Ok(None) => Ok(RunOriginal)
      case Ok(Some(mode)) => if handler(mode) == PassThrough then Ok(RunOriginal) else Ok(Skip(()))
  }

  /** What a skipping OnHeldAttackStart leaves behind: the hand handling it
      copies out, and whether it plays the collectible's attack sound. */
  datatype AttackStartEffect = AttackStartEffect(hand: HandHandling, playSound: bool)

  /** The handler is asked with a fresh tmHandHandling = NotHandled. The sound is
      played only for PreventDefault, when the collectible has an attack sound
      and the world is the client's. */
  function AttackStart(hasApi: bool, hasPlayer: bool, resolved: Result<Option<ToolMode>>, handler: (ToolMode, HandHandling) -> HandReply,
                       hasAttackSound: bool, side: Side)
    : (r: Result<Prefix<AttackStartEffect>>)
    ensures !hasApi || !hasPlayer || resolved == Ok(None) ==> r == Ok(RunOriginal)
    ensures hasApi && hasPlayer && resolved.Err? ==> r == Err(resolved.fault)
    ensures r.Ok? && r.value.Skip? <==>
              hasApi && hasPlayer && resolved.Ok? && resolved.value.Some? && handler(resolved.value.value, NotHandled).handling != PassThrough
    ensures r.Ok? && r.value.Skip? ==>
              var reply := handler(resolved.value.value, NotHandled);
              r.value.result.hand == reply.hand
              && (r.value.result.playSound <==> reply.handling == PreventDefault && hasAttackSound && side == Client)
  {
    if !hasApi || !hasPlayer then Ok(RunOriginal)
    else match resolved
      case Err(fault) => Err(fault)
      case Ok(None) => Ok(RunOriginal)
      case Ok(Some(mode)) =>
        var reply := handler(mode, NotHandled);
        if reply.handling == PassThrough then Ok(RunOriginal)
        else Ok(Skip(AttackStartEffect(reply.hand, reply.handling == PreventDefault && hasAttackSound && side == Client)))
  }

  /** OnHeldInteractStart: the handler is asked with NotHandled, and a
      skipping prefix copies the mode's hand handling. */
  function InteractStart(hasApi: bool, hasPlayer: bool, resolved: Result<Option<ToolMode>>, handler: (ToolMode, HandHandling) -> HandReply)
    : (r: Result<Prefix<HandHandling>>)
    ensures !hasApi || !hasPlayer || resolved == Ok(None) ==> r == Ok(RunOriginal)
    ensures hasApi && hasPlayer && resolved.Err? ==> r == Err(resolved.fault)
    ensures r.Ok? && r.value.Skip? <==>
              hasApi && hasPlayer && resolved.Ok? && resolved.value.Some? && handler(resolved.value.value, NotHandled).handling != PassThrough
    ensures r.Ok? && r.value.Skip? ==> r.value.result == handler(resolved.value.value, NotHandled).hand
  {
    if !hasApi || !hasPlayer then Ok(RunOriginal)
    else match resolved
      case Err(fault) => Err(fault)
      case Ok(None) => Ok(RunOriginal)
      case Ok(Some(mode)) =>
        var reply := handler(mode, NotHandled);
        if reply.handling == PassThrough then Ok(RunOriginal) else Ok(Skip(reply.hand))
  }
}
