/** ItemScytheWithModes, ToolModeScythe and ToolModeScytheTrim
    (Item/ItemScytheWithModes.cs): which blocks a scythe sweeps, the timed
    sound-then-break sequence of a held attack, and the trim variant's block
    replacement. */
module Scythe {
  import opened Types
  import opened ToolModes

  /** ToolModeScythe.MultiBreakQuantity */
  const ScytheQuantity: int := 5
  /** The held-attack thresholds, in seconds (0.75f and 1.05f). */
  const SoundAt: real := 0.75
  const BreakAt: real := 1.05
  /** The client keeps the attack going while secondsPassed < 2f. */
  const SwingLength: real := 2.0

  predicate StartsWith(path: string, prefix: string) {
    prefix <= path
  }

  predicate EndsWith(path: string, suffix: string) {
    |suffix| <= |path| && path[|path| - |suffix|..] == suffix
  }

  // ---------------------------------------------------------------------------
  // CanMultiBreak

  /** The allowed prefixes ("codePrefixes") and disallowed suffixes
      ("disallowedSuffixes") read on load; a missing attribute is null. A
      block qualifies when its path has an allowed prefix and, if suffixes are
      given, ends with none of them. Because the suffix test does not depend on
      which prefix matched, the first matching prefix decides the same as any
      would. A null prefix array throws in the foreach. */
  method CanMultiBreak(allowedPrefixes: Option<seq<string>>, disallowedSuffixes: Option<seq<string>>, path: string)
    returns (r: Result<bool>)
    ensures allowedPrefixes.None? ==> r == Err(NullReference)
    ensures allowedPrefixes.Some? ==> r.Ok?
    ensures allowedPrefixes.Some? ==>
              (r.value <==> (exists i :: 0 <= i < |allowedPrefixes.value| && StartsWith(path, allowedPrefixes.value[i]))
                            && (disallowedSuffixes.None?
                                || forall j :: 0 <= j < |disallowedSuffixes.value| ==> !EndsWith(path, disallowedSuffixes.value[j])))
  {
    if allowedPrefixes.None? {
      return Err(NullReference);
    }
    var prefixes := allowedPrefixes.value;
    var i := 0;
    while i < |prefixes|
      invariant 0 <= i <= |prefixes|
      invariant forall k :: 0 <= k < i ==> !StartsWith(path, prefixes[k])
    {
      if StartsWith(path, prefixes[i]) {
        if disallowedSuffixes.None? {
          return Ok(true);
        }
        var suffixes := disallowedSuffixes.value;
        var j := 0;
        while j < |suffixes|
          invariant 0 <= j <= |suffixes|
          invariant forall k :: 0 <= k < j ==> !EndsWith(path, suffixes[k])
        {
          if EndsWith(path, suffixes[j]) {
            return Ok(false);
          }
          j := j + 1;
        }
        return Ok(true);
      }
      i := i + 1;
    }
    return Ok(false);
  }

  // ---------------------------------------------------------------------------
  // The held attack: two entity flags driving one sound and one break

  /** The entity attributes "didBreakBlocks" and "didPlayScytheSound" (GetBool
      reads an absent attribute as false). */
  datatype Flags = Flags(didBreakBlocks: bool, didPlayScytheSound: bool)

  /** What one PerformActions call sees: the elapsed time, whether there is a
      block selection and a player, whether the held item is a multi-break
      item and CanMultiBreak holds for the selected block, the world's side
      and whether the player may break at the selection. */
  datatype Tick = Tick(secondsPassed: real, hasBlockSel: bool, hasPlayer: bool, isMultiBreakItem: bool,
                       canMultiBreak: bool, side: Side, access: bool)

  /** Whether PerformActions gets past its guards. */
  predicate Armed(t: Tick) {
    t.hasBlockSel && t.hasPlayer && t.isMultiBreakItem && t.canMultiBreak
  }

  /** The effects of one PerformActions call: the scythe sound is played, the
      item's OnBlockBrokenWith is invoked. */
  datatype Actions = Actions(playSound: bool, breakBlocks: bool)

  /** One PerformActions call on the flags. */
  function Perform(f: Flags, t: Tick): (r: (Flags, Actions))
    ensures r.1.playSound <==> Armed(t) && t.secondsPassed > SoundAt && !f.didPlayScytheSound
    ensures r.1.breakBlocks <==>
              Armed(t) && t.secondsPassed > BreakAt && !f.didBreakBlocks && t.side == Server && t.access
    ensures r.0.didPlayScytheSound <==> f.didPlayScytheSound || (Armed(t) && t.secondsPassed > SoundAt)
    ensures r.0.didBreakBlocks <==> f.didBreakBlocks || (Armed(t) && t.secondsPassed > BreakAt)
  {
    if !Armed(t) then (f, Actions(false, false))
    else
      var sound := t.secondsPassed > SoundAt && !f.didPlayScytheSound;
      var passed := t.secondsPassed > BreakAt && !f.didBreakBlocks;
      (Flags(f.didBreakBlocks || passed, f.didPlayScytheSound || sound),
       Actions(sound, passed && t.side == Server && t.access))
  }

  /** The flags after a sequence of PerformActions calls. */
  function After(f: Flags, ticks: seq<Tick>): Flags
    decreases |ticks|
  {
    if ticks == [] then f else After(Perform(f, ticks[0]).0, ticks[1..])
  }

  /** How many of those calls play the sound, and how many break. */
  function Sounds(f: Flags, ticks: seq<Tick>): nat
    decreases |ticks|
  {
    if ticks == [] then 0
    else (if Perform(f, ticks[0]).1.playSound then 1 else 0) + Sounds(Perform(f, ticks[0]).0, ticks[1..])
  }

  function Breaks(f: Flags, ticks: seq<Tick>): nat
    decreases |ticks|
  {
    if ticks == [] then 0
    else (if Perform(f, ticks[0]).1.breakBlocks then 1 else 0) + Breaks(Perform(f, ticks[0]).0, ticks[1..])
  }

  /** Over any sequence of calls the sound plays at most once, and never once
      its flag is set; likewise the break. The flags only go from false to
      true. */
  lemma {:induction false} AtMostOnce(f: Flags, ticks: seq<Tick>)
    ensures Sounds(f, ticks) <= if f.didPlayScytheSound then 0 else 1
    ensures Breaks(f, ticks) <= if f.didBreakBlocks then 0 else 1
    ensures f.didPlayScytheSound ==> After(f, ticks).didPlayScytheSound
    ensures f.didBreakBlocks ==> After(f, ticks).didBreakBlocks
    decreases |ticks|
  {
    if ticks != [] {
      AtMostOnce(Perform(f, ticks[0]).0, ticks[1..]);
    }
  }

  /** A swing that reaches the sound threshold while armed, starting from
      the flags OnHeldAttackStart clears, plays the sound exactly once; on the
      client it never invokes the break. */
  lemma {:induction false} SoundPlaysOnce(ticks: seq<Tick>)
    requires exists i :: 0 <= i < |ticks| && Armed(ticks[i]) && ticks[i].secondsPassed > SoundAt
    ensures Sounds(Flags(false, false), ticks) == 1
    ensures (forall i :: 0 <= i < |ticks| ==> ticks[i].side == Client) ==> Breaks(Flags(false, false), ticks) == 0
  {
    SoundFromCleared(Flags(false, false), ticks);
    ClientNeverBreaks(Flags(false, false), ticks);
  }

  lemma {:induction false} SoundFromCleared(f: Flags, ticks: seq<Tick>)
    requires !f.didPlayScytheSound
    requires exists i :: 0 <= i < |ticks| && Armed(ticks[i]) && ticks[i].secondsPassed > SoundAt
    ensures Sounds(f, ticks) == 1
    decreases |ticks|
  {
    var next := Perform(f, ticks[0]).0;
    if Perform(f, ticks[0]).1.playSound {
      AtMostOnce(next, ticks[1..]);
    } else {
      var i :| 0 <= i < |ticks| && Armed(ticks[i]) && ticks[i].secondsPassed > SoundAt;
      assert i > 0;
      assert ticks[1..][i - 1] == ticks[i];
      SoundFromCleared(next, ticks[1..]);
    }
  }

  lemma {:induction false} ClientNeverBreaks(f: Flags, ticks: seq<Tick>)
    ensures (forall i :: 0 <= i < |ticks| ==> ticks[i].side == Client) ==> Breaks(f, ticks) == 0
    decreases |ticks|
  {
    if ticks != [] {
      ClientNeverBreaks(Perform(f, ticks[0]).0, ticks[1..]);
      if forall i :: 0 <= i < |ticks| ==> ticks[i].side == Client {
        assert ticks[0].side == Client;
        assert forall i :: 0 <= i < |ticks[1..]| ==> ticks[1..][i] == ticks[i + 1];
      }
    }
  }

  /** The attacking entity's attribute tree, as far as the scythe uses it. */
  class Swinger {
    var didBreakBlocks: bool
    var didPlayScytheSound: bool

    constructor ()
      ensures !didBreakBlocks && !didPlayScytheSound
    {
      didBreakBlocks := false;
      didPlayScytheSound := false;
    }

    function Current(): Flags
      reads this
    {
      Flags(didBreakBlocks, didPlayScytheSound)
    }

    /** ToolModeScythe.OnHeldAttackStart: without a block selection, a player
        or access it leaves everything as it was; otherwise it clears both
        flags and claims the attack (PreventSubsequent, hand PreventDefault). */
    method OnHeldAttackStart(hasBlockSel: bool, hasPlayer: bool, access: bool, handHandling: HandHandling, handling: Handling)
      returns (hand: HandHandling, signal: Handling)
      modifies this
      ensures !(hasBlockSel && hasPlayer && access) ==>
                hand == handHandling && signal == handling && Current() == old(Current())
      ensures hasBlockSel && hasPlayer && access ==>
                hand == HandPreventDefault && signal == PreventSubsequent && Current() == Flags(false, false)
    {
      if !hasBlockSel || !hasPlayer || !access {
        return handHandling, handling;
      }
      didBreakBlocks := false;
      didPlayScytheSound := false;
      return HandPreventDefault, PreventSubsequent;
    }

    /** ToolModeScythe.PerformActions. */
    method PerformActions(t: Tick) returns (a: Actions)
      modifies this
      ensures Current() == Perform(old(Current()), t).0 && a == Perform(old(Current()), t).1
    {
      if !t.hasBlockSel || !t.hasPlayer || !t.isMultiBreakItem || !t.canMultiBreak {
        return Actions(false, false);
      }
      var sound := false;
      var breaks := false;
      if t.secondsPassed > SoundAt && !didPlayScytheSound {
        sound := true;
        didPlayScytheSound := true;
      }
      if t.secondsPassed > BreakAt && !didBreakBlocks {
        breaks := t.side == Server && t.access;
        didBreakBlocks := true;
      }
      return Actions(sound, breaks);
    }

    /** ToolModeScythe.OnHeldAttackStep, less the client-side animation: it
        always claims the step, and keeps the attack going on the server, or
        on the client until two seconds have passed. */
    method OnHeldAttackStep(t: Tick) returns (signal: Handling, keepGoing: bool, a: Actions)
      modifies this
      ensures signal == PreventSubsequent
      ensures keepGoing <==> t.side == Server || t.secondsPassed < SwingLength
      ensures Current() == Perform(old(Current()), t).0 && a == Perform(old(Current()), t).1
    {
      a := PerformActions(t);
      signal := PreventSubsequent;
      keepGoing := t.side == Server || t.secondsPassed < SwingLength;
    }

    /** ToolModeScythe.OnHeldAttackStop: claims the stop and runs the actions once more. */
    method OnHeldAttackStop(t: Tick) returns (signal: Handling, a: Actions)
      modifies this
      ensures signal == PreventSubsequent
      ensures Current() == Perform(old(Current()), t).0 && a == Perform(old(Current()), t).1
    {
      signal := PreventSubsequent;
      a := PerformActions(t);
    }
  }

  // ---------------------------------------------------------------------------
  // ToolModeScytheTrim.BreakMultiBlock

  /** What trimming does at a position: nothing, replace the block by its
      trimmed variant (after breaking it), or the plain multi-break. */
  /** A block as the trim reads it: its code without variant, and its variant
      map ("tallgrass" -> "eaten", ...). Two blocks are the same block exactly
      when their codes, hence these two parts, agree. */
  datatype BlockDesc = BlockDesc(base: string, variant: map<string, string>)

  /** block.CodeWithVariant("tallgrass", "eaten"): the same block with its
      tallgrass variant set to eaten. Only read when the block has a tallgrass
      variant. */
  function Trimmed(block: BlockDesc): (r: BlockDesc)
    requires "tallgrass" in block.variant
    ensures r.base == block.base
    ensures "tallgrass" in r.variant && r.variant["tallgrass"] == "eaten"
    ensures forall k :: k in block.variant && k != "tallgrass" ==> k in r.variant && r.variant[k] == block.variant[k]
    ensures r.variant.Keys == block.variant.Keys
    ensures r == block <==> block.variant["tallgrass"] == "eaten"
  {
    block.(variant := block.variant["tallgrass" := "eaten"])
  }

  datatype TrimAction = AlreadyTrimmed | ReplaceWith(trimmed: BlockDesc) | BaseBreak

  /** `block` is the block at the position and `registered` tells which codes
      world.GetBlock resolves (null otherwise). A tallgrass block that is its
      own eaten variant is left as it is; a tallgrass block whose eaten variant
      exists is broken and replaced by it; anything else falls back to the
      plain multi-break. */
  function BreakMultiBlockTrim(block: BlockDesc, registered: BlockDesc -> bool): (r: TrimAction)
    ensures r == AlreadyTrimmed <==>
              "tallgrass" in block.variant && block.variant["tallgrass"] == "eaten" && registered(block)
    ensures r.ReplaceWith? <==>
              "tallgrass" in block.variant && block.variant["tallgrass"] != "eaten" && registered(Trimmed(block))
    ensures r.ReplaceWith? ==> r.trimmed == Trimmed(block)
    ensures r == BaseBreak <==> "tallgrass" !in block.variant || !registered(Trimmed(block))
  {
    var isTallgrass := "tallgrass" in block.variant;
    var trimmed := if isTallgrass && registered(Trimmed(block)) then Some(Trimmed(block)) else None;
    if isTallgrass && trimmed == Some(block) then AlreadyTrimmed
    else if isTallgrass && trimmed.Some? then ReplaceWith(trimmed.value)
    else BaseBreak
  }

  /** Trimming is idempotent: the block a trim puts in place is its own eaten
      variant, so trimming that position again leaves it as it is. */
  lemma TrimTwiceIsTrimOnce(block: BlockDesc, registered: BlockDesc -> bool)
    requires BreakMultiBlockTrim(block, registered).ReplaceWith?
    ensures BreakMultiBlockTrim(BreakMultiBlockTrim(block, registered).trimmed, registered) == AlreadyTrimmed
  {
  }
}
