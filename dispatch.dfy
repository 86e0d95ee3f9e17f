/** The two dispatch variants side by side: the Harmony prefixes of
    CollectibleObjectPatches and the overrides of ItemWithModes. Each is
    compared with ReferenceMeaning, the model's own reading of what each
    handling signal should mean for the host, and with the other variant. */
module Dispatch {
  import opened Types
  import opened ToolModes
  import opened ToolModeApi
  import Patches
  import ItemModes

  /** What a signal should mean for the host: whether the default behaviour
      runs, and whether the host's secondary effects (the attack sound) still
      happen. PassThrough keeps both, PreventDefault only the secondary
      effects, PreventSubsequent neither. The library states no such rule;
      this is the model's reference reading of the signal names, against
      which both variants are compared. */
  datatype ChainEffect = ChainEffect(runsDefault: bool, secondary: bool)

  function ReferenceMeaning(h: Handling): (e: ChainEffect)
    ensures e.runsDefault <==> h == PassThrough
    ensures e.secondary <==> h != PreventSubsequent
  {
    match h
    case PassThrough => ChainEffect(true, true)
    case PreventDefault => ChainEffect(false, true)
    case PreventSubsequent => ChainEffect(false, false)
  }

  /** Without a current mode every event of both variants is transparent: the
      prefix lets the original run and the override calls base with the
      caller's own arguments. */
  lemma NoModeIsTransparent<T>(hasApi: bool, hasPlayer: bool, value: ToolMode -> Reply<T>, void: ToolMode -> Handling,
                               start: (ToolMode, HandHandling) -> HandReply, breaking: ToolMode -> Reply<real>,
                               hand: HandHandling, remaining: real, hasAttackSound: bool, side: Side)
    ensures Patches.ValueEvent(hasApi, hasPlayer, Ok(None), value) == Ok(Patches.RunOriginal)
    ensures Patches.BlockBreaking(hasPlayer, Ok(None), breaking) == Ok(Patches.RunOriginal)
    ensures Patches.VoidEvent(hasApi, hasPlayer, Ok(None), void) == Ok(Patches.RunOriginal)
    ensures Patches.AttackStart(hasApi, hasPlayer, Ok(None), start, hasAttackSound, side) == Ok(Patches.RunOriginal)
    ensures Patches.InteractStart(hasApi, hasPlayer, Ok(None), start) == Ok(Patches.RunOriginal)
    ensures ItemModes.ValueEvent(None, value) == ItemModes.CallBase
    ensures ItemModes.PreventSubsequentEvent(None, value) == ItemModes.CallBase
    ensures ItemModes.VoidEvent(None, void)
    ensures ItemModes.BlockBreaking(None, breaking, remaining) == ItemModes.BaseWith(remaining)
    ensures ItemModes.AttackStart(None, start, hand, hasAttackSound, side) == ItemModes.StartStep(hand, false, true)
    ensures ItemModes.InteractStart(None, start, hand) == ItemModes.StartStep(hand, false, true)
  {
  }

  /** A mode that overrides nothing is transparent in both variants too: the
      base-class handlers of ToolMode all answer PassThrough (OnBlockBrokenWith
      keeps the PassThrough its caller starts from). The one difference is the
      override's attack start, which plays the item's attack sound on the
      client for a PassThrough answer where the no-mode path leaves that to
      the base call. */
  lemma DefaultModeIsTransparent(mode: ToolMode, hand: HandHandling, remaining: real, hasAttackSound: bool, side: Side)
    ensures Patches.ValueEvent(true, true, Ok(Some(mode)), _ => DefaultAttackCancel()) == Ok(Patches.RunOriginal)
    ensures Patches.ValueEvent(true, true, Ok(Some(mode)), _ => DefaultAttackStep()) == Ok(Patches.RunOriginal)
    ensures Patches.ValueEvent(true, true, Ok(Some(mode)), _ => DefaultInteractStep()) == Ok(Patches.RunOriginal)
    ensures Patches.ValueEvent(true, true, Ok(Some(mode)), _ => DefaultInteractCancel()) == Ok(Patches.RunOriginal)
    ensures Patches.ValueEvent(true, true, Ok(Some(mode)), _ => DefaultBlockBrokenWith(PassThrough)) == Ok(Patches.RunOriginal)
    ensures Patches.BlockBreaking(true, Ok(Some(mode)), _ => DefaultBlockBreaking(remaining)) == Ok(Patches.RunOriginal)
    ensures Patches.VoidEvent(true, true, Ok(Some(mode)), _ => DefaultAttackStop()) == Ok(Patches.RunOriginal)
    ensures Patches.VoidEvent(true, true, Ok(Some(mode)), _ => DefaultInteractStop()) == Ok(Patches.RunOriginal)
    ensures Patches.AttackStart(true, true, Ok(Some(mode)), (_, h) => DefaultAttackStart(h), hasAttackSound, side) == Ok(Patches.RunOriginal)
    ensures Patches.InteractStart(true, true, Ok(Some(mode)), (_, h) => DefaultInteractStart(h)) == Ok(Patches.RunOriginal)
    ensures ItemModes.ValueEvent(Some(mode), _ => DefaultAttackCancel()) == ItemModes.CallBase
    ensures ItemModes.ValueEvent(Some(mode), _ => DefaultAttackStep()) == ItemModes.CallBase
    ensures ItemModes.ValueEvent(Some(mode), _ => DefaultBlockBrokenWith(PassThrough)) == ItemModes.CallBase
    ensures ItemModes.PreventSubsequentEvent(Some(mode), _ => DefaultInteractStep()) == ItemModes.CallBase
    ensures ItemModes.PreventSubsequentEvent(Some(mode), _ => DefaultInteractCancel()) == ItemModes.CallBase
    ensures ItemModes.BlockBreaking(Some(mode), _ => DefaultBlockBreaking(remaining), remaining) == ItemModes.BaseWith(remaining)
    ensures ItemModes.VoidEvent(Some(mode), _ => DefaultAttackStop()) && ItemModes.VoidEvent(Some(mode), _ => DefaultInteractStop())
    ensures ItemModes.AttackStart(Some(mode), (_, h) => DefaultAttackStart(h), hand, hasAttackSound, side)
              == ItemModes.StartStep(hand, hasAttackSound && side == Client, true)
    ensures ItemModes.InteractStart(Some(mode), (_, h) => DefaultInteractStart(h), hand) == ItemModes.StartStep(hand, false, true)
  {
  }

  /** The prefix variant follows the reference meaning for every value event,
      and cannot tell PreventDefault from PreventSubsequent. */
  lemma PatchValueEventsFollowReference<T>(mode: ToolMode, handler: ToolMode -> Reply<T>)
    ensures Patches.ValueEvent(true, true, Ok(Some(mode)), handler).Ok?
    ensures (Patches.ValueEvent(true, true, Ok(Some(mode)), handler).value.RunOriginal?
             <==> ReferenceMeaning(handler(mode).handling).runsDefault)
    ensures !ReferenceMeaning(handler(mode).handling).runsDefault ==>
              Patches.ValueEvent(true, true, Ok(Some(mode)), handler) == Ok(Patches.Skip(handler(mode).value))
    ensures Patches.ValueEvent(true, true, Ok(Some(mode)), _ => Reply(handler(mode).value, PreventDefault))
              == Patches.ValueEvent(true, true, Ok(Some(mode)), _ => Reply(handler(mode).value, PreventSubsequent))
  {
  }

  /** The attack-start prefix follows the reference meaning: the original runs
      only on PassThrough, and a skipping prefix plays the sound exactly when
      the signal keeps secondary effects (given a sound and the client). */
  lemma PatchAttackStartFollowsReference(mode: ToolMode, handler: (ToolMode, HandHandling) -> HandReply)
    ensures var r := Patches.AttackStart(true, true, Ok(Some(mode)), handler, true, Client);
            var e := ReferenceMeaning(handler(mode, NotHandled).handling);
            r.Ok? && (r.value.RunOriginal? <==> e.runsDefault)
            && (r.value.Skip? ==> (r.value.result.playSound <==> e.secondary))
  {
  }

  /** The override variant departs from the reference meaning exactly at
      PreventDefault on attack start: base still runs and the sound is
      dropped; the other two signals agree with it. */
  lemma ItemAttackStartDepartsAtPreventDefault(mode: ToolMode, handler: (ToolMode, HandHandling) -> HandReply, hand: HandHandling)
    ensures var r := ItemModes.AttackStart(Some(mode), handler, hand, true, Client);
            var h := handler(mode, hand).handling;
            var e := ReferenceMeaning(h);
            (r.callBase == e.runsDefault && r.playSound == e.secondary <==> h != PreventDefault)
            && (h == PreventDefault ==> r.callBase && !r.playSound)
  {
  }

  /** The sound rules of the two variants are opposite: for a sounding
      collectible on the client, the prefix plays it only for PreventDefault,
      the override only for PassThrough, and no signal plays it in both. */
  lemma AttackSoundRulesOpposite(mode: ToolMode, handler: (ToolMode, HandHandling) -> HandReply)
    ensures var p := Patches.AttackStart(true, true, Ok(Some(mode)), handler, true, Client);
            var q := ItemModes.AttackStart(Some(mode), handler, NotHandled, true, Client);
            var h := handler(mode, NotHandled).handling;
            (p.Ok? && p.value.Skip? && p.value.result.playSound <==> h == PreventDefault)
            && (q.playSound <==> h == PassThrough)
            && !(p.Ok? && p.value.Skip? && p.value.result.playSound && q.playSound)
  {
  }

  /** Interact step and cancel: on PreventDefault the prefix substitutes the
      mode's value but the override calls base; on the other two signals the
      variants agree. */
  lemma InteractStepVariantsDiffer<T>(mode: ToolMode, handler: ToolMode -> Reply<T>)
    ensures handler(mode).handling == PreventDefault ==>
              Patches.ValueEvent(true, true, Ok(Some(mode)), handler) == Ok(Patches.Skip(handler(mode).value))
              && ItemModes.PreventSubsequentEvent(Some(mode), handler) == ItemModes.CallBase
    ensures handler(mode).handling != PreventDefault ==>
              (Patches.ValueEvent(true, true, Ok(Some(mode)), handler) == Ok(Patches.RunOriginal)
               <==> ItemModes.PreventSubsequentEvent(Some(mode), handler) == ItemModes.CallBase)
    ensures forall v: T :: ItemModes.PreventSubsequentEvent(Some(mode), handler) == ItemModes.Return(v) ==>
              Patches.ValueEvent(true, true, Ok(Some(mode)), handler) == Ok(Patches.Skip(v))
  {
  }

  /** Broken-with and attack cancel/step: the two variants agree for every
      signal, a substituted value in one is the same value in the other. */
  lemma ValueEventVariantsAgree<T>(mode: ToolMode, handler: ToolMode -> Reply<T>)
    ensures (Patches.ValueEvent(true, true, Ok(Some(mode)), handler) == Ok(Patches.RunOriginal)
             <==> ItemModes.ValueEvent(Some(mode), handler) == ItemModes.CallBase)
    ensures forall v: T :: Patches.ValueEvent(true, true, Ok(Some(mode)), handler) == Ok(Patches.Skip(v))
              <==> ItemModes.ValueEvent(Some(mode), handler) == ItemModes.Return(v)
  {
  }

  /** Block breaking: PreventSubsequent and PassThrough agree, but on
      PreventDefault the override still runs base, fed the mode's resistance,
      while the prefix returns that resistance directly. */
  lemma BlockBreakingVariants(mode: ToolMode, handler: ToolMode -> Reply<real>, remaining: real)
    ensures var p := Patches.BlockBreaking(true, Ok(Some(mode)), handler);
            var q := ItemModes.BlockBreaking(Some(mode), handler, remaining);
            var reply := handler(mode);
            (reply.handling == PassThrough ==> p == Ok(Patches.RunOriginal) && q == ItemModes.BaseWith(remaining))
            && (reply.handling == PreventDefault ==> p == Ok(Patches.Skip(reply.value)) && q == ItemModes.BaseWith(reply.value))
            && (reply.handling == PreventSubsequent ==> p == Ok(Patches.Skip(reply.value)) && q == ItemModes.Final(reply.value))
  {
  }

  /** A block-class collectible with cached modes makes every prefix throw
      once api and player are present: GetCollectibleToolMode has no block
      branch. */
  lemma BlockClassPrefixesThrow<T>(cached: seq<ToolMode>, trees: Trees, collectible: Collectible, value: ToolMode -> Reply<T>,
                                   void: ToolMode -> Handling, start: (ToolMode, HandHandling) -> HandReply,
                                   breaking: ToolMode -> Reply<real>, hasAttackSound: bool, side: Side)
    requires collectible.itemClass == Block
    ensures var resolved := GetToolModeObj(Some(cached), trees, collectible);
            Patches.ValueEvent(true, true, resolved, value) == Err(NotImplemented)
            && Patches.BlockBreaking(true, resolved, breaking) == Err(NotImplemented)
            && Patches.VoidEvent(true, true, resolved, void) == Err(NotImplemented)
            && Patches.AttackStart(true, true, resolved, start, hasAttackSound, side) == Err(NotImplemented)
            && Patches.InteractStart(true, true, resolved, start) == Err(NotImplemented)
  {
  }
}
