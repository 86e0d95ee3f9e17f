/** ItemWithModes (Common/ItemWithModes.cs): an item that owns its mode array
    and routes its events through the current mode before calling the base
    implementation. */
module ItemModes {
  import opened Types
  import opened ToolModes
  import opened Registry
  import opened ToolModeApi
  import opened ModeDecls

  class ItemWithModes {
    const code: Code
    /** The Group property: null unless a subclass names a group. */
    const group: Option<Code>
    /** ToolModes: group modes first, then the item-specific ones. */
    var toolModes: seq<ToolMode>

    constructor (code: Code, group: Option<Code>)
      ensures this.code == code && this.group == group && toolModes == []
    {
      this.code := code;
      this.group := group;
      toolModes := [];
    }

    /** The item as the selection store sees it, with the group the registry
        reports for it (GetToolModeGroup). */
    function View(reportedGroup: Option<Code>): Collectible
    {
      Collectible(code, Item, reportedGroup)
    }

    /** `attributes` is None when Attributes is null, else the value of
        Attributes["toolmodes"]?.AsArray(). A failure after the group was
        expanded leaves the group modes in ToolModes, not yet loaded. */
    method OnLoaded(registry: ToolModeRegistry, attributes: Option<Option<seq<ModeDecl>>>) returns (r: Outcome)
      modifies this`toolModes, toolModes
      ensures r.Fail? <==> (group.Some? && !registry.CanCreateGroup(group.value)) || attributes.None?
                           || DeclFails(registry, DeclaredList(attributes.value))
      ensures group.Some? && !registry.CanCreateGroup(group.value) ==> toolModes == old(toolModes)
      ensures r.Fail? && group.None? ==> toolModes == old(toolModes)
      ensures r.Fail? && group.Some? && registry.CanCreateGroup(group.value) ==>
                |toolModes| == |registry.groupModes[group.value]|
                && forall i :: 0 <= i < |toolModes| ==> fresh(toolModes[i]) && toolModes[i].lifecycle == Created
      ensures r.Pass? ==>
                var baseLen := if group.Some? then |registry.groupModes[group.value]| else |old(toolModes)|;
                var decls := DeclaredList(attributes.value);
                |toolModes| == baseLen + |decls|
                && (forall i :: 0 <= i < baseLen ==>
                      (group.Some? ==> fresh(toolModes[i]) && toolModes[i].code == Some(registry.groupModes[group.value][i])
                                       && toolModes[i].group == group.value && toolModes[i].properties == None)
                      && (group.None? ==> toolModes[i] == old(toolModes)[i]))
                && (forall i :: baseLen <= i < |toolModes| ==>
                      fresh(toolModes[i]) && toolModes[i].code == Some(decls[i - baseLen].name)
                      && toolModes[i].group == code && toolModes[i].properties == decls[i - baseLen].properties)
                && (forall i :: 0 <= i < |toolModes| ==> toolModes[i].lifecycle == Loaded)
    {
      var base := toolModes;
      if group.Some? {
        var created := registry.CreateToolModeGroup(group.value);
        if created.Err? {
          return Fail(created.fault);
        }
        base := created.value;
        toolModes := base;
      }
      if attributes.None? {
        return Fail(NullReference);
      }
      var decls := DeclaredList(attributes.value);
      var loaded := LoadDeclared(registry, View(group), base, decls);
      if loaded.Err? {
        return Fail(loaded.fault);
      }
      toolModes := loaded.value;
      return Pass;
    }

    method OnUnloaded()
      modifies toolModes
      ensures forall i :: 0 <= i < |toolModes| ==> toolModes[i].lifecycle == Unloaded
    {
      UnloadAll(toolModes);
    }

    /** The display items of the visible modes, in array order; null when none is visible. */
    method GetToolModes(shown: ToolMode -> bool) returns (r: Option<seq<SkillItem>>)
      ensures r.None? <==> VisibleModes(toolModes, shown) == []
      ensures r.Some? ==> r.value == SkillItems(VisibleModes(toolModes, shown))
    {
      var items := CollectVisibleItems(toolModes, shown);
      ghost var visible := VisibleModes(toolModes, shown);
      if visible != [] {
        SkillItemsAt(visible, 0);
      }
      if |items| == 0 {
        return None;
      }
      return Some(items);
    }

    /** `trees` is None when there is no player (GetItemToolMode then
        dereferences null). */
    method GetToolMode(trees: Option<Trees>, reportedGroup: Option<Code>) returns (r: Result<nat>)
      ensures trees.None? ==> r == Err(NullReference)
      ensures trees.Some? ==> r.Ok? && r.value == ResolvedIndex(toolModes, GetItemToolMode(trees.value, View(reportedGroup)))
    {
      if trees.None? {
        return Err(NullReference);
      }
      var modeCode := GetItemToolMode(trees.value, View(reportedGroup));
      if modeCode.None? {
        return Ok(0);
      }
      var index := IndexOfCode(toolModes, modeCode.value);
      return Ok(index);
    }

    /** ToolModes[GetToolMode(...)]: throws on an empty array. */
    method GetRealToolMode(trees: Option<Trees>, reportedGroup: Option<Code>) returns (r: Result<ToolMode>)
      ensures trees.None? ==> r == Err(NullReference)
      ensures trees.Some? && toolModes == [] ==> r == Err(IndexOutOfRange)
      ensures trees.Some? && toolModes != [] ==>
                r == Ok(toolModes[ResolvedIndex(toolModes, GetItemToolMode(trees.value, View(reportedGroup)))])
    {
      var index := GetToolMode(trees, reportedGroup);
      if index.Err? {
        return Err(index.fault);
      }
      if index.value >= |toolModes| {
        return Err(IndexOutOfRange);
      }
      return Ok(toolModes[index.value]);
    }

    /** Only the client writes; the picked mode is the first one whose code is
        the code of the visible item at `selection`. */
    method SetToolMode(byPlayer: Player, registry: ToolModeRegistry, reportedGroup: Option<Code>,
                       shown: ToolMode -> bool, selection: int)
      returns (r: Outcome)
      requires Coded(toolModes)
      modifies byPlayer`trees, registry`outbox
      ensures byPlayer.side == Server || VisibleModes(toolModes, shown) == [] ==>
                r == Pass && byPlayer.trees == old(byPlayer.trees) && registry.outbox == old(registry.outbox)
      ensures byPlayer.side == Client && VisibleModes(toolModes, shown) != [] && !(0 <= selection < |VisibleModes(toolModes, shown)|) ==>
                r == Fail(IndexOutOfRange) && byPlayer.trees == old(byPlayer.trees) && registry.outbox == old(registry.outbox)
      ensures byPlayer.side == Client && 0 <= selection < |VisibleModes(toolModes, shown)| ==>
                var picked := old(IdOf(Some(PickedMode(toolModes, shown, selection))));
                r == Pass && byPlayer.trees == ApplyAll(old(byPlayer.trees), ItemWrites(View(reportedGroup), picked))
                && registry.outbox == old(registry.outbox) + Sent(Client, ItemWrites(View(reportedGroup), picked))
    {
      if byPlayer.side == Server {
        return Pass;
      }
      var visibleItems := GetToolModes(shown);
      if visibleItems.None? {
        return Pass;
      }
      var picked := PickVisible(toolModes, shown, visibleItems.value, selection);
      if picked.Err? {
        return Fail(picked.fault);
      }
      SetItemToolMode(byPlayer, registry, View(reportedGroup), Some(picked.value));
      return Pass;
    }

    /** As written: `ToolModes.GetValue(GetToolMode(...)) as ToolMode`.
        Array.GetValue throws outside the array instead of yielding null. */
    function CurrentModeAsWritten(trees: Option<Trees>, reportedGroup: Option<Code>): (r: Result<ToolMode>)
      reads this, toolModes
      ensures trees.None? ==> r == Err(NullReference)
      ensures trees.Some? ==> (r.Err? <==> toolModes == []) && (r.Err? ==> r.fault == IndexOutOfRange)
      ensures r.Ok? ==> r.value in toolModes
    {
      if trees.None? then Err(NullReference)
      else
        var index := ResolvedIndex(toolModes, GetItemToolMode(trees.value, View(reportedGroup)));
        if index < |toolModes| then Ok(toolModes[index]) else Err(IndexOutOfRange)
    }

    /** The lookup the `currentMode == null` fallbacks expect: no mode when the
        array is empty. The event chains below take its result. */
    function CurrentMode(trees: Option<Trees>, reportedGroup: Option<Code>): (r: Result<Option<ToolMode>>)
      reads this, toolModes
      ensures trees.None? ==> r == Err(NullReference)
      ensures trees.Some? ==> r.Ok? && (r.value.None? <==> toolModes == [])
      ensures r.Ok? && r.value.Some? ==> r.value.value in toolModes
    {
      if trees.None? then Err(NullReference)
      else
        var index := ResolvedIndex(toolModes, GetItemToolMode(trees.value, View(reportedGroup)));
        if index < |toolModes| then Ok(Some(toolModes[index])) else Ok(None)
    }

    /** As written, the no-mode fallback of every event is unreachable: with
        a player the lookup either yields a mode or throws, and it throws
        exactly for an item without modes. */
    lemma AsWrittenNeverFallsBack(trees: Trees, reportedGroup: Option<Code>)
      ensures toolModes == [] <==> CurrentModeAsWritten(Some(trees), reportedGroup) == Err(IndexOutOfRange)
      ensures toolModes != [] ==> CurrentModeAsWritten(Some(trees), reportedGroup).Ok?
    {
    }

    /** With the corrected lookup an item without modes has no current mode,
        and otherwise the current mode is the one GetToolMode designates. */
    lemma CurrentModeFallsBack(trees: Trees, reportedGroup: Option<Code>)
      ensures toolModes == [] <==> CurrentMode(Some(trees), reportedGroup) == Ok(None)
      ensures toolModes != [] ==>
                CurrentMode(Some(trees), reportedGroup)
                  == Ok(Some(toolModes[ResolvedIndex(toolModes, GetItemToolMode(trees, View(reportedGroup)))]))
      ensures forall m :: CurrentMode(Some(trees), reportedGroup) == Ok(Some(m)) ==>
                CurrentModeAsWritten(Some(trees), reportedGroup) == Ok(m)
    {
    }
  }

  // ---------------------------------------------------------------------------
  // Event chains of the subclass variant: with no current mode the base
  // implementation runs; otherwise the mode is asked first (from PassThrough)
  // and its signal decides per event whether base still runs.

  /** A value event's continuation: call base, or return the mode's value. */
  datatype Chain<T> = CallBase | Return(value: T)

  /** OnBlockBrokenWith, OnHeldAttackCancel, OnHeldAttackStep: any signal but
      PassThrough returns the mode's value. */
  function ValueEvent<T>(current: Option<ToolMode>, handler: ToolMode -> Reply<T>): (r: Chain<T>)
    ensures current.None? ==> r == CallBase
    ensures r.Return? <==> current.Some? && handler(current.value).handling != PassThrough
    ensures r.Return? ==> r.value == handler(current.value).value
  {
    if current.None? then CallBase
    else
      var reply := handler(current.value);
      if reply.handling != PassThrough then Return(reply.value) else CallBase
  }

  /** OnHeldInteractStep and OnHeldInteractCancel: only PreventSubsequent
      returns the mode's value. */
  function PreventSubsequentEvent<T>(current: Option<ToolMode>, handler: ToolMode -> Reply<T>): (r: Chain<T>)
    ensures current.None? ==> r == CallBase
    ensures r.Return? <==> current.Some? && handler(current.value).handling == PreventSubsequent
    ensures r.Return? ==> r.value == handler(current.value).value
  {
    if current.None? then CallBase
    else
      var reply := handler(current.value);
      if reply.handling == PreventSubsequent then Return(reply.value) else CallBase
  }

  /** OnHeldAttackStop and OnHeldInteractStop: whether base runs. */
  function VoidEvent(current: Option<ToolMode>, handler: ToolMode -> Handling): (callBase: bool)
    ensures !callBase <==> current.Some? && handler(current.value) == PreventSubsequent
  {
    current.None? || handler(current.value) != PreventSubsequent
  }

  /** OnBlockBreaking: base with a resistance, or a final result. */
  datatype Breaking = BaseWith(resistance: real) | Final(result: real)

  /** Any signal but PassThrough replaces the resistance; PreventSubsequent
      also returns it without calling base. */
  function BlockBreaking(current: Option<ToolMode>, handler: ToolMode -> Reply<real>, remainingResistance: real): (r: Breaking)
    ensures current.None? ==> r == BaseWith(remainingResistance)
    ensures r.Final? <==> current.Some? && handler(current.value).handling == PreventSubsequent
    ensures r.Final? ==> r.result == handler(current.value).value
    ensures r.BaseWith? ==>
              r.resistance == if current.Some? && handler(current.value).handling == PreventDefault
                              then handler(current.value).value else remainingResistance
  {
    if current.None? then BaseWith(remainingResistance)
    else
      var reply := handler(current.value);
      if reply.handling == PreventSubsequent then Final(reply.value)
      else if reply.handling == PreventDefault then BaseWith(reply.value)
      else BaseWith(remainingResistance)
  }

  /** For the start events the mode writes the caller's hand handling itself;
      what remains is whether the library plays the attack sound and whether
      base runs. */
  datatype StartStep = StartStep(hand: HandHandling, playSound: bool, callBase: bool)

  /** OnHeldAttackStart: PreventSubsequent returns at once; the sound is
      played only for PassThrough (with an attack sound, on the client). */
  function AttackStart(current: Option<ToolMode>, handler: (ToolMode, HandHandling) -> HandReply, hand: HandHandling,
                       hasAttackSound: bool, side: Side): (r: StartStep)
    ensures current.None? ==> r == StartStep(hand, false, true)
    ensures current.Some? ==> r.hand == handler(current.value, hand).hand
    ensures !r.callBase <==> current.Some? && handler(current.value, hand).handling == PreventSubsequent
    ensures r.playSound <==> current.Some? && handler(current.value, hand).handling == PassThrough && hasAttackSound && side == Client
  {
    if current.None? then StartStep(hand, false, true)
    else
      var reply := handler(current.value, hand);
      if reply.handling == PreventSubsequent then StartStep(reply.hand, false, false)
      else StartStep(reply.hand, reply.handling != PreventDefault && hasAttackSound && side == Client, true)
  }

  /** OnHeldInteractStart: only PreventSubsequent skips base. */
  function InteractStart(current: Option<ToolMode>, handler: (ToolMode, HandHandling) -> HandReply, hand: HandHandling): (r: StartStep)
    ensures current.None? ==> r == StartStep(hand, false, true)
    ensures current.Some? ==> r.hand == handler(current.value, hand).hand
    ensures !r.callBase <==> current.Some? && handler(current.value, hand).handling == PreventSubsequent
    ensures !r.playSound
  {
    if current.None? then StartStep(hand, false, true)
    else
      var reply := handler(current.value, hand);
      StartStep(reply.hand, false, reply.handling != PreventSubsequent)
  }
}
