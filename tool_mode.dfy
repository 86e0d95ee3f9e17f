/** ToolMode (Common/ToolMode.cs): one selectable behaviour variant attached to
    a collectible, plus the searches over an ordered array of modes that the
    patch, the item subclass and the block subclass all perform. */
module ToolModes {
  import opened Types

  /** The C# type registered for a mode code; instantiated opaquely. */
  datatype ModeType = ModeType(name: string)

  /** Which lifecycle hook ran last on a mode instance. */
  datatype Lifecycle = Created | Loaded | Unloaded

  class ToolMode {
    const modeType: ModeType
    /** Set by the registry right after construction, never by the constructor. */
    var code: Option<Code>
    /** Group or collectible code the mode was instantiated under. */
    const group: Code
    /** propertiesAsString: the configuration blob given to Initialize. */
    var properties: Option<string>
    var lifecycle: Lifecycle

    constructor (modeType: ModeType, group: Code)
      ensures this.modeType == modeType && this.group == group
      ensures code == None && properties == None && lifecycle == Created
    {
      this.modeType := modeType;
      this.group := group;
      code := None;
      properties := None;
      lifecycle := Created;
    }

    method Initialize(json: string)
      modifies this`properties
      ensures properties == Some(json)
    {
      properties := Some(json);
    }

    method OnLoaded()
      modifies this`lifecycle
      ensures lifecycle == Loaded
    {
      lifecycle := Loaded;
    }

    method OnUnloaded()
      modifies this`lifecycle
      ensures lifecycle == Unloaded
    {
      lifecycle := Unloaded;
    }
  }

  /** The part of a SkillItem the library reads back: its code. Both concrete
      modes of the library build their display item with the mode's own code. */
  datatype SkillItem = SkillItem(code: Option<Code>)

  function DisplayItem(m: ToolMode): SkillItem
    reads m
  {
    SkillItem(m.code)
  }

  /** The codes of an ordered mode array. */
  function CodesOf(modes: seq<ToolMode>): (r: seq<Option<Code>>)
    reads modes
    ensures |r| == |modes|
    ensures forall i :: 0 <= i < |modes| ==> r[i] == modes[i].code
  {
    if modes == [] then [] else CodesOf(modes[..|modes| - 1]) + [modes[|modes| - 1].code]
  }

  // ---------------------------------------------------------------------------
  // Visibility filter (the ShouldDisplay loops of all three host variants).
  // `shown` is ShouldDisplay evaluated in the caller's context for each mode.

  function VisibleModes(modes: seq<ToolMode>, shown: ToolMode -> bool): (r: seq<ToolMode>)
    ensures |r| <= |modes|
    ensures forall i :: 0 <= i < |r| ==> r[i] in modes && shown(r[i])
    ensures forall i :: 0 <= i < |modes| && shown(modes[i]) ==> modes[i] in r
  {
    if modes == [] then []
    else
      var last := modes[|modes| - 1];
      VisibleModes(modes[..|modes| - 1], shown) + (if shown(last) then [last] else [])
  }

  function SkillItems(modes: seq<ToolMode>): (r: seq<SkillItem>)
    reads modes
  {
    if modes == [] then [] else SkillItems(modes[..|modes| - 1]) + [DisplayItem(modes[|modes| - 1])]
  }

  lemma {:induction false} SkillItemsAt(modes: seq<ToolMode>, k: nat)
    requires k < |modes|
    ensures |SkillItems(modes)| == |modes| && SkillItems(modes)[k] == SkillItem(modes[k].code)
  {
    if k < |modes| - 1 {
      SkillItemsAt(modes[..|modes| - 1], k);
    } else if |modes| > 1 {
      SkillItemsAt(modes[..|modes| - 1], 0);
    }
  }

  /** Every visible item shown at index k names the code of a shown mode that
      occurs in the array, so the "first mode with that code" that every
      SetToolMode looks up exists. */
  lemma VisibleItemHasMode(modes: seq<ToolMode>, shown: ToolMode -> bool, k: nat)
    requires k < |SkillItems(VisibleModes(modes, shown))|
    ensures FirstMatch(modes, SkillItems(VisibleModes(modes, shown))[k].code).Some?
  {
    var vis := VisibleModes(modes, shown);
    if k >= |vis| {
      SkillItemsAt(vis, 0);
    }
    SkillItemsAt(vis, k);
    assert vis[k] in modes;
    var j :| 0 <= j < |modes| && modes[j] == vis[k];
    assert modes[j].code == SkillItems(vis)[k].code;
  }

  /** The mode a visible index stands for: the first cached mode whose code is
      the code of the visible item at that index. */
  function PickedMode(modes: seq<ToolMode>, shown: ToolMode -> bool, index: nat): (r: ToolMode)
    requires index < |VisibleModes(modes, shown)|
    reads modes
    ensures r in modes && r.code == VisibleModes(modes, shown)[index].code
    ensures Coded(modes) ==> r.code.Some?
  {
    SkillItemsAt(VisibleModes(modes, shown), index);
    VisibleItemHasMode(modes, shown, index);
    modes[FirstMatch(modes, SkillItems(VisibleModes(modes, shown))[index].code).value]
  }

  /** `modes.First(mode => mode.Code == visibleItems[selection].Code)`: the
      bounds check of the index, then the search, which cannot fail. */
  method PickVisible(modes: seq<ToolMode>, shown: ToolMode -> bool, visibleItems: seq<SkillItem>, selection: int)
    returns (r: Result<ToolMode>)
    requires visibleItems == SkillItems(VisibleModes(modes, shown))
    ensures r.Err? <==> !(0 <= selection < |VisibleModes(modes, shown)|)
    ensures r.Err? ==> r.fault == IndexOutOfRange
    ensures r.Ok? ==> r.value == PickedMode(modes, shown, selection)
  {
    ghost var visible := VisibleModes(modes, shown);
    if visible != [] {
      SkillItemsAt(visible, 0);
    }
    if !(0 <= selection < |visibleItems|) {
      return Err(IndexOutOfRange);
    }
    SkillItemsAt(visible, selection);
    VisibleItemHasMode(modes, shown, selection);
    var index := FirstMatch(modes, visibleItems[selection].code).value;
    return Ok(modes[index]);
  }

  /** The ShouldDisplay loop: display items of the shown modes, in mode order. */
  method CollectVisibleItems(modes: seq<ToolMode>, shown: ToolMode -> bool) returns (items: seq<SkillItem>)
    ensures items == SkillItems(VisibleModes(modes, shown))
  {
    items := [];
    var i := 0;
    while i < |modes|
      invariant 0 <= i <= |modes|
      invariant items == SkillItems(VisibleModes(modes[..i], shown))
    {
      var mode := modes[i];
      ghost var before := VisibleModes(modes[..i], shown);
      assert modes[..i + 1][..i] == modes[..i];
      assert VisibleModes(modes[..i + 1], shown) == before + (if shown(mode) then [mode] else []);
      if shown(mode) {
        assert (before + [mode])[..|before|] == before;
        items := items + [DisplayItem(mode)];
      } else {
        assert before + [] == before;
      }
      i := i + 1;
    }
    assert modes[..i] == modes;
  }

  // ---------------------------------------------------------------------------
  // Searching a mode array by code.

  /** Every mode of the array has had its code assigned (true of every mode
      the registry creates). */
  predicate Coded(modes: seq<ToolMode>)
    reads modes
  {
    forall i :: 0 <= i < |modes| ==> modes[i].code.Some?
  }

  /** The index of the first mode whose code is `code`, if any. */
  function FirstMatch(modes: seq<ToolMode>, code: Option<Code>): (r: Option<nat>)
    reads modes
    ensures r.None? <==> forall j :: 0 <= j < |modes| ==> modes[j].code != code
    ensures r.Some? ==> r.value < |modes| && modes[r.value].code == code
    ensures r.Some? ==> forall j :: 0 <= j < r.value ==> modes[j].code != code
  {
    if modes == [] then None
    else if modes[0].code == code then Some(0)
    else
      match FirstMatch(modes[1..], code)
      case None => None
      case Some(k) => Some(k + 1)
  }

  /** Enumerable.FirstOrDefault(mode => mode.Code == code). */
  function FirstWithCode(modes: seq<ToolMode>, code: Option<Code>): (r: Option<ToolMode>)
    reads modes
    ensures r.Some? <==> exists j :: 0 <= j < |modes| && modes[j].code == code
    ensures r.Some? ==> r.value in modes && r.value.code == code
  {
    match FirstMatch(modes, code)
    case None => None
    case Some(k) => Some(modes[k])
  }

  /** The resolution index used by both GetToolMode implementations when a
      selection exists: the first index whose code matches, else 0. */
  function SelectedIndex(modes: seq<ToolMode>, code: Code): (r: nat)
    reads modes
    ensures (forall j :: 0 <= j < |modes| ==> modes[j].code != Some(code)) ==> r == 0
    ensures (exists j :: 0 <= j < |modes| && modes[j].code == Some(code)) ==>
              r < |modes| && modes[r].code == Some(code) && forall j :: 0 <= j < r ==> modes[j].code != Some(code)
  {
    match FirstMatch(modes, Some(code))
    case None => 0
    case Some(k) => k
  }

  lemma SelectedIndexInRange(modes: seq<ToolMode>, code: Code)
    requires |modes| > 0
    ensures SelectedIndex(modes, code) < |modes|
  {
  }

  /** The index both GetToolMode implementations answer for a resolved
      selection: 0 when there is none, else SelectedIndex. */
  function ResolvedIndex(modes: seq<ToolMode>, selection: Option<Code>): (r: nat)
    reads modes
    ensures |modes| > 0 ==> r < |modes|
    ensures |modes| == 0 ==> r == 0
    ensures selection.None? ==> r == 0
    ensures selection.Some? && FirstMatch(modes, selection).Some? ==>
              modes[r].code == selection && forall j :: 0 <= j < r ==> modes[j].code != selection
    ensures selection.Some? && FirstMatch(modes, selection).None? ==> r == 0
  {
    if selection.None? then 0 else SelectedIndex(modes, selection.value)
  }

  /** The index loop shared by CollectibleObjectPatch_GetToolMode and
      ItemWithModes.GetToolMode: the first index whose code matches, else 0. */
  method IndexOfCode(modes: seq<ToolMode>, code: Code) returns (i: nat)
    ensures i < |modes| || (|modes| == 0 && i == 0)
    ensures (exists j :: 0 <= j < |modes| && modes[j].code == Some(code)) ==>
              modes[i].code == Some(code) && forall j :: 0 <= j < i ==> modes[j].code != Some(code)
    ensures (forall j :: 0 <= j < |modes| ==> modes[j].code != Some(code)) ==> i == 0
    ensures i == SelectedIndex(modes, code)
  {
    var k := 0;
    while k < |modes|
      invariant 0 <= k <= |modes|
      invariant forall j :: 0 <= j < k ==> modes[j].code != Some(code)
    {
      if modes[k].code == Some(code) {
        return k;
      }
      k := k + 1;
    }
    return 0;
  }

  // ---------------------------------------------------------------------------
  // Lifecycle loops: OnLoaded / OnUnloaded on every mode in array order.

  method LoadAll(modes: seq<ToolMode>)
    modifies modes
    ensures forall i :: 0 <= i < |modes| ==> modes[i].lifecycle == Loaded
    ensures forall i :: 0 <= i < |modes| ==> modes[i].code == old(modes[i].code) && modes[i].properties == old(modes[i].properties)
  {
    var i := 0;
    while i < |modes|
      invariant 0 <= i <= |modes|
      invariant forall j :: 0 <= j < i ==> modes[j].lifecycle == Loaded
      invariant forall j :: 0 <= j < |modes| ==> modes[j].code == old(modes[j].code) && modes[j].properties == old(modes[j].properties)
    {
      modes[i].OnLoaded();
      i := i + 1;
    }
  }

  method UnloadAll(modes: seq<ToolMode>)
    modifies modes
    ensures forall i :: 0 <= i < |modes| ==> modes[i].lifecycle == Unloaded
    ensures forall i :: 0 <= i < |modes| ==> modes[i].code == old(modes[i].code) && modes[i].properties == old(modes[i].properties)
  {
    var i := 0;
    while i < |modes|
      invariant 0 <= i <= |modes|
      invariant forall j :: 0 <= j < i ==> modes[j].lifecycle == Unloaded
      invariant forall j :: 0 <= j < |modes| ==> modes[j].code == old(modes[j].code) && modes[j].properties == old(modes[j].properties)
    {
      modes[i].OnUnloaded();
      i := i + 1;
    }
  }

  // ---------------------------------------------------------------------------
  // Handler results. A handler returns a value (for value events) and writes
  // its `ref EnumHandling`; start events also write a `ref EnumHandHandling`.

  datatype Reply<T> = Reply(value: T, handling: Handling)
  datatype HandReply = HandReply(hand: HandHandling, handling: Handling)

  // The base-class handlers (ToolMode.cs:34-69): each one leaves the event to
  // the host, so its signal is PassThrough (OnBlockBrokenWith leaves the
  // signal where its caller put it).
  function DefaultShouldDisplay(): (r: bool)
    ensures r
  { true }
  function DefaultHeldInteractionHelp(): (r: seq<string>)
    ensures r == []
  { [] }
  function DefaultAttackStart(hand: HandHandling): (r: HandReply)
    ensures r.handling == PassThrough && r.hand == hand
  { HandReply(hand, PassThrough) }
  function DefaultAttackCancel(): (r: Reply<bool>)
    ensures r.handling == PassThrough && !r.value
  { Reply(false, PassThrough) }
  function DefaultAttackStep(): (r: Reply<bool>)
    ensures r.handling == PassThrough && !r.value
  { Reply(false, PassThrough) }
  function DefaultAttackStop(): (r: Handling)
    ensures r == PassThrough
  { PassThrough }
  function DefaultBlockBreaking(remainingResistance: real): (r: Reply<real>)
    ensures r.handling == PassThrough && r.value == remainingResistance
  { Reply(remainingResistance, PassThrough) }
  /** Leaves `handling` as the caller initialised it. */
  function DefaultBlockBrokenWith(handling: Handling): (r: Reply<bool>)
    ensures r.handling == handling && r.value
  { Reply(true, handling) }
  function DefaultInteractStart(hand: HandHandling): (r: HandReply)
    ensures r.handling == PassThrough && r.hand == hand
  { HandReply(hand, PassThrough) }
  function DefaultInteractStep(): (r: Reply<bool>)
    ensures r.handling == PassThrough && r.value
  { Reply(true, PassThrough) }
  function DefaultInteractCancel(): (r: Reply<bool>)
    ensures r.handling == PassThrough && r.value
  { Reply(true, PassThrough) }
  function DefaultInteractStop(): (r: Handling)
    ensures r == PassThrough
  { PassThrough }

  /** Every default handler but OnBlockBrokenWith answers PassThrough and keeps
      the hand handling it was given; the value defaults are fixed. */
  lemma DefaultHandlersPassThrough(hand: HandHandling, resistance: real, handling: Handling)
    ensures DefaultAttackStart(hand) == HandReply(hand, PassThrough)
    ensures DefaultInteractStart(hand) == HandReply(hand, PassThrough)
    ensures DefaultAttackStop() == PassThrough && DefaultInteractStop() == PassThrough
    ensures DefaultAttackCancel() == Reply(false, PassThrough) && DefaultAttackStep() == Reply(false, PassThrough)
    ensures DefaultInteractStep() == Reply(true, PassThrough) && DefaultInteractCancel() == Reply(true, PassThrough)
    ensures DefaultBlockBreaking(resistance) == Reply(resistance, PassThrough)
    ensures DefaultBlockBrokenWith(handling) == Reply(true, handling)
    ensures DefaultShouldDisplay() && DefaultHeldInteractionHelp() == []
  {
  }
}
