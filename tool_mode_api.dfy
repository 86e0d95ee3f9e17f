/** ToolModeAPI (System/ToolModeApi.cs): the per-player selection store, read
    resolution with its asymmetric group/own precedence, and the write paths
    that update the store and emit sync packets on the client. */
module ToolModeApi {
  import opened Types
  import opened ToolModes
  import opened Registry

  /** One tree attribute of the player entity: key code -> selected mode code. */
  type Tree = map<Code, Code>
  /** All tree attributes of the player entity, by tree key. */
  type Trees = map<string, Tree>

  /** The player whose entity attributes hold the selection trees. */
  class Player {
    /** Side of the player's API (byPlayer.Entity.Api.Side). */
    const side: Side
    var trees: Trees

    constructor (side: Side)
      ensures this.side == side && trees == map[]
    {
      this.side := side;
      trees := map[];
    }
  }

  /** A mode as the write paths see it: its code and its group. */
  datatype ModeId = ModeId(code: Code, group: Code)

  function IdOf(mode: Option<ToolMode>): Option<ModeId>
    requires mode.Some? ==> mode.value.code.Some?
    reads if mode.Some? then {mode.value} else {}
  {
    if mode.None? then None else Some(ModeId(mode.value.code.value, mode.value.group))
  }

  function CodeOf(mode: Option<ModeId>): Option<Code>
  {
    if mode.None? then None else Some(mode.value.code)
  }

  // ---------------------------------------------------------------------------
  // Reads

  /** GetOrAddTreeAttribute: a tree that does not exist yet reads as empty. */
  function TreeOf(trees: Trees, treeKey: string): Tree
  {
    if treeKey in trees then trees[treeKey] else map[]
  }

  /** A stored code, or null for a missing tree or a missing key. */
  function GetTreeToolMode(trees: Trees, key: Code, treeKey: string): (r: Option<Code>)
    ensures r.Some? <==> treeKey in trees && key in trees[treeKey]
    ensures r.Some? ==> r.value == trees[treeKey][key]
  {
    var tree := TreeOf(trees, treeKey);
    if key in tree then Some(tree[key]) else None
  }

  function GetGroupToolMode(trees: Trees, group: Code): (r: Option<Code>)
    ensures r.Some? <==> GroupTreeKey in trees && group in trees[GroupTreeKey]
    ensures r.Some? ==> r.value == trees[GroupTreeKey][group]
  {
    GetTreeToolMode(trees, group, GroupTreeKey)
  }

  /** Items: the item's own entry wins over its group's entry. */
  function GetItemToolMode(trees: Trees, item: Collectible): (r: Option<Code>)
    ensures GetTreeToolMode(trees, item.code, ItemTreeKey).Some? ==> r == GetTreeToolMode(trees, item.code, ItemTreeKey)
    ensures GetTreeToolMode(trees, item.code, ItemTreeKey).None? ==>
              r == (if item.group.Some? then GetGroupToolMode(trees, item.group.value) else None)
  {
    var itemMode := GetTreeToolMode(trees, item.code, ItemTreeKey);
    if item.group.None? then itemMode
    else
      var groupMode := GetGroupToolMode(trees, item.group.value);
      if itemMode.None? then groupMode else itemMode
  }

  /** Blocks: the group's entry wins over the block's own entry. */
  function GetBlockToolMode(trees: Trees, block: Collectible): (r: Option<Code>)
    ensures block.group.Some? && GetGroupToolMode(trees, block.group.value).Some? ==>
              r == GetGroupToolMode(trees, block.group.value)
    ensures block.group.None? || GetGroupToolMode(trees, block.group.value).None? ==>
              r == GetTreeToolMode(trees, block.code, BlockTreeKey)
  {
    var blockMode := GetTreeToolMode(trees, block.code, BlockTreeKey);
    if block.group.None? then blockMode
    else
      var groupMode := GetGroupToolMode(trees, block.group.value);
      if groupMode.Some? then groupMode else blockMode
  }

  /** The switch on the item class: the block branch throws. */
  function GetCollectibleToolMode(trees: Trees, collectible: Collectible): (r: Result<Option<Code>>)
    ensures collectible.itemClass == Block ==> r == Err(NotImplemented)
    ensures collectible.itemClass == Item ==> r == Ok(GetItemToolMode(trees, collectible))
  {
    match collectible.itemClass
    case Block => Err(NotImplemented)
    case Item => Ok(GetItemToolMode(trees, collectible))
  }

  /** GetToolModeObj: the cached mode whose code equals the resolved selection.
      There is no index-0 fallback here. */
  function GetToolModeObj(cached: Option<seq<ToolMode>>, trees: Trees, collectible: Collectible): (r: Result<Option<ToolMode>>)
    reads if cached.Some? then cached.value else []
    ensures cached.None? ==> r == Ok(None)
    ensures cached.Some? && collectible.itemClass == Block ==> r == Err(NotImplemented)
    ensures cached.Some? && collectible.itemClass == Item ==>
              r.Ok? && (r.value.Some? <==> exists j :: 0 <= j < |cached.value| && cached.value[j].code == GetItemToolMode(trees, collectible))
    ensures r.Ok? && r.value.Some? ==>
              cached.Some? && r.value.value in cached.value && r.value.value.code == GetItemToolMode(trees, collectible)
  {
    if cached.None? then Ok(None)
    else
      match GetCollectibleToolMode(trees, collectible)
      case Err(fault) => Err(fault)
      case Ok(code) => Ok(FirstWithCode(cached.value, code))
  }

  // ---------------------------------------------------------------------------
  // Writes

  /** The store after SetTreeToolMode: null removes the key, a code is stored. */
  function WriteTree(trees: Trees, treeKey: string, key: Code, value: Option<Code>): (r: Trees)
    ensures GetTreeToolMode(r, key, treeKey) == value
    ensures forall k :: k != key ==> GetTreeToolMode(r, k, treeKey) == GetTreeToolMode(trees, k, treeKey)
    ensures forall t, k :: t != treeKey ==> GetTreeToolMode(r, k, t) == GetTreeToolMode(trees, k, t)
  {
    trees[treeKey := PutKey(TreeOf(trees, treeKey), key, value)]
  }

  /** One tree after the write: null removes the key, a code is stored. */
  function PutKey(tree: Tree, key: Code, value: Option<Code>): Tree
  {
    if value.None? then tree - {key} else tree[key := value.value]
  }

  lemma PutKeyCommutes(tree: Tree, k1: Code, v1: Option<Code>, k2: Code, v2: Option<Code>)
    requires k1 != k2
    ensures PutKey(PutKey(tree, k1, v1), k2, v2) == PutKey(PutKey(tree, k2, v2), k1, v1)
  {
    var a := PutKey(PutKey(tree, k1, v1), k2, v2);
    var b := PutKey(PutKey(tree, k2, v2), k1, v1);
    assert a.Keys == b.Keys;
  }

  /** The server's handling of one packet: the packet's key reads back its
      value, and every other key of every tree is left as it was. */
  function ApplyPacket(trees: Trees, p: SyncPacket): (r: Trees)
    ensures GetTreeToolMode(r, p.key, p.tree) == p.value
    ensures forall t, k :: (t != p.tree || k != p.key) ==> GetTreeToolMode(r, k, t) == GetTreeToolMode(trees, k, t)
  {
    WriteTree(trees, p.tree, p.key, p.value)
  }

  /** Applying writes (or received packets) in order. */
  function ApplyAll(trees: Trees, ps: seq<SyncPacket>): Trees
    decreases |ps|
  {
    if ps == [] then trees else ApplyAll(ApplyPacket(trees, ps[0]), ps[1..])
  }

  lemma ApplyOne(trees: Trees, p: SyncPacket)
    ensures ApplyAll(trees, [p]) == ApplyPacket(trees, p)
  {
    assert [p][1..] == [];
  }

  lemma ApplyTwo(trees: Trees, p: SyncPacket, q: SyncPacket)
    ensures ApplyAll(trees, [p, q]) == ApplyPacket(ApplyPacket(trees, p), q)
  {
    assert [p, q][1..] == [q];
    ApplyOne(ApplyPacket(trees, p), q);
  }

  /** Applying a batch equals applying its two halves one after the other,
      so packets handled one at a time reach the same store as the batch. */
  lemma {:induction false} ApplyAllAppend(trees: Trees, a: seq<SyncPacket>, b: seq<SyncPacket>)
    ensures ApplyAll(trees, a + b) == ApplyAll(ApplyAll(trees, a), b)
    decreases |a|
  {
    if a == [] {
      assert a + b == b;
    } else {
      assert (a + b)[0] == a[0];
      assert (a + b)[1..] == a[1..] + b;
      ApplyAllAppend(ApplyPacket(trees, a[0]), a[1..], b);
    }
  }

  /** What a side sends for a list of writes: everything on the client, nothing on the server. */
  function Sent(side: Side, writes: seq<SyncPacket>): seq<SyncPacket>
  {
    if side == Client then writes else []
  }

  /** The writes SetItemToolMode performs, in order. */
  function ItemWrites(item: Collectible, mode: Option<ModeId>): (r: seq<SyncPacket>)
    ensures |r| == 2 <==> item.group.Some? && mode.Some? && item.group.value == mode.value.group
    ensures 1 <= |r| <= 2
    ensures |r| == 2 ==> r[0] == SyncPacket(GroupTreeKey, item.group.value, Some(mode.value.code))
    ensures r[|r| - 1].tree == ItemTreeKey && r[|r| - 1].key == item.code
    ensures r[|r| - 1].value == if |r| == 2 then None else CodeOf(mode)
  {
    if item.group.Some? && mode.Some? && item.group.value == mode.value.group then
      [SyncPacket(GroupTreeKey, item.group.value, Some(mode.value.code)), SyncPacket(ItemTreeKey, item.code, None)]
    else
      [SyncPacket(ItemTreeKey, item.code, CodeOf(mode))]
  }

  /** The writes SetBlockToolMode performs, in order. */
  function BlockWrites(block: Collectible, mode: Option<ModeId>): (r: seq<SyncPacket>)
    ensures 1 <= |r| <= 2
    ensures r[|r| - 1] == SyncPacket(BlockTreeKey, block.code, CodeOf(mode))
    ensures mode.Some? && mode.value.group != block.code ==>
              |r| == 2 && r[0] == SyncPacket(GroupTreeKey, mode.value.group, Some(mode.value.code))
    ensures !(mode.Some? && mode.value.group != block.code) && block.group.Some? ==>
              |r| == 2 && r[0] == SyncPacket(GroupTreeKey, block.group.value, None)
    ensures |r| == 1 <==> !(mode.Some? && mode.value.group != block.code) && block.group.None?
  {
    (if mode.Some? && mode.value.group != block.code then
       [SyncPacket(GroupTreeKey, mode.value.group, Some(mode.value.code))]
     else if block.group.Some? then
       [SyncPacket(GroupTreeKey, block.group.value, None)]
     else [])
    + [SyncPacket(BlockTreeKey, block.code, CodeOf(mode))]
  }

  /** SetTreeToolMode (code overload): write, then sync when on the client. */
  method SetTreeToolMode(byPlayer: Player, registry: ToolModeRegistry, treeKey: string, key: Code, mode: Option<Code>)
    modifies byPlayer`trees, registry`outbox
    ensures byPlayer.trees == WriteTree(old(byPlayer.trees), treeKey, key, mode)
    ensures registry.outbox == old(registry.outbox) + Sent(byPlayer.side, [SyncPacket(treeKey, key, mode)])
  {
    byPlayer.trees := WriteTree(byPlayer.trees, treeKey, key, mode);
    if byPlayer.side == Client {
      registry.SendSyncPacket(treeKey, key, mode);
    }
  }

  /** SetTreeToolMode (ToolMode overload): stores mode.Code, sends mode?.Code. */
  method SetTreeToolModeOf(byPlayer: Player, registry: ToolModeRegistry, treeKey: string, key: Code, mode: Option<ToolMode>)
    requires mode.Some? ==> mode.value.code.Some?
    modifies byPlayer`trees, registry`outbox
    ensures byPlayer.trees == WriteTree(old(byPlayer.trees), treeKey, key, CodeOf(IdOf(mode)))
    ensures registry.outbox == old(registry.outbox) + Sent(byPlayer.side, [SyncPacket(treeKey, key, CodeOf(IdOf(mode)))])
  {
    var value := if mode.None? then None else mode.value.code;
    SetTreeToolMode(byPlayer, registry, treeKey, key, value);
  }

  method SetGroupToolMode(byPlayer: Player, registry: ToolModeRegistry, group: Code, mode: Option<ToolMode>)
    requires mode.Some? ==> mode.value.code.Some?
    modifies byPlayer`trees, registry`outbox
    ensures byPlayer.trees == WriteTree(old(byPlayer.trees), GroupTreeKey, group, CodeOf(IdOf(mode)))
    ensures registry.outbox == old(registry.outbox) + Sent(byPlayer.side, [SyncPacket(GroupTreeKey, group, CodeOf(IdOf(mode)))])
  {
    SetTreeToolModeOf(byPlayer, registry, GroupTreeKey, group, mode);
  }

  /** A pick whose Group is the item's group goes to the group tree and clears
      the item's own entry; anything else goes to the item tree. */
  method SetItemToolMode(byPlayer: Player, registry: ToolModeRegistry, item: Collectible, mode: Option<ToolMode>)
    requires mode.Some? ==> mode.value.code.Some?
    modifies byPlayer`trees, registry`outbox
    ensures byPlayer.trees == ApplyAll(old(byPlayer.trees), ItemWrites(item, IdOf(mode)))
    ensures registry.outbox == old(registry.outbox) + Sent(byPlayer.side, ItemWrites(item, IdOf(mode)))
  {
    ghost var writes := ItemWrites(item, IdOf(mode));
    if item.group.Some? && mode.Some? && item.group.value == mode.value.group {
      SetGroupToolMode(byPlayer, registry, item.group.value, mode);
      SetTreeToolModeOf(byPlayer, registry, ItemTreeKey, item.code, None);
      ApplyTwo(old(byPlayer.trees), writes[0], writes[1]);
    } else {
      SetTreeToolModeOf(byPlayer, registry, ItemTreeKey, item.code, mode);
      ApplyOne(old(byPlayer.trees), writes[0]);
    }
  }

  /** A pick from another tree than the block's own code goes to the group
      tree under the pick's Group; otherwise the block's group entry is
      cleared. The block entry is written in every case. */
  method SetBlockToolMode(byPlayer: Player, registry: ToolModeRegistry, block: Collectible, mode: Option<ToolMode>)
    requires mode.Some? ==> mode.value.code.Some?
    modifies byPlayer`trees, registry`outbox
    ensures byPlayer.trees == ApplyAll(old(byPlayer.trees), BlockWrites(block, IdOf(mode)))
    ensures registry.outbox == old(registry.outbox) + Sent(byPlayer.side, BlockWrites(block, IdOf(mode)))
  {
    ghost var writes := BlockWrites(block, IdOf(mode));
    if mode.Some? && mode.value.group != block.code {
      SetGroupToolMode(byPlayer, registry, mode.value.group, mode);
      SetTreeToolModeOf(byPlayer, registry, BlockTreeKey, block.code, mode);
      ApplyTwo(old(byPlayer.trees), writes[0], writes[1]);
    } else if block.group.Some? {
      SetGroupToolMode(byPlayer, registry, block.group.value, None);
      SetTreeToolModeOf(byPlayer, registry, BlockTreeKey, block.code, mode);
      ApplyTwo(old(byPlayer.trees), writes[0], writes[1]);
    } else {
      SetTreeToolModeOf(byPlayer, registry, BlockTreeKey, block.code, mode);
      ApplyOne(old(byPlayer.trees), writes[0]);
    }
  }

  /** The switch on the item class: the block branch throws and writes nothing. */
  method SetCollectibleToolMode(byPlayer: Player, registry: ToolModeRegistry, collectible: Collectible, mode: Option<ToolMode>)
    returns (r: Outcome)
    requires mode.Some? ==> mode.value.code.Some?
    modifies byPlayer`trees, registry`outbox
    ensures collectible.itemClass == Block ==>
              r == Fail(NotImplemented) && byPlayer.trees == old(byPlayer.trees) && registry.outbox == old(registry.outbox)
    ensures collectible.itemClass == Item ==>
              r == Pass && byPlayer.trees == ApplyAll(old(byPlayer.trees), ItemWrites(collectible, IdOf(mode)))
              && registry.outbox == old(registry.outbox) + Sent(byPlayer.side, ItemWrites(collectible, IdOf(mode)))
  {
    if collectible.itemClass == Block {
      return Fail(NotImplemented);
    }
    SetItemToolMode(byPlayer, registry, collectible, mode);
    return Pass;
  }

  // ---------------------------------------------------------------------------
  // Properties of the store

  /** Last write wins, so re-applying the same write changes nothing. */
  lemma WriteTreeIdempotent(trees: Trees, treeKey: string, key: Code, value: Option<Code>)
    ensures WriteTree(WriteTree(trees, treeKey, key, value), treeKey, key, value) == WriteTree(trees, treeKey, key, value)
  {
    var once := WriteTree(trees, treeKey, key, value);
    var tree := TreeOf(once, treeKey);
    if value.None? {
      assert tree - {key} == tree;
    } else {
      assert tree[key := value.value] == tree;
    }
  }

  /** Two writes to the same key: only the later one is visible. */
  lemma WriteTreeLastWins(trees: Trees, treeKey: string, key: Code, first: Option<Code>, second: Option<Code>)
    ensures WriteTree(WriteTree(trees, treeKey, key, first), treeKey, key, second) == WriteTree(trees, treeKey, key, second)
  {
    var tree := TreeOf(trees, treeKey);
    var mid := TreeOf(WriteTree(trees, treeKey, key, first), treeKey);
    if second.None? {
      assert mid - {key} == tree - {key};
    } else {
      assert mid[key := second.value] == tree[key := second.value];
    }
  }

  /** Writes to different keys, or to different trees, commute: only the
      order of writes to one key matters. */
  lemma WriteTreeCommutes(trees: Trees, t1: string, k1: Code, v1: Option<Code>, t2: string, k2: Code, v2: Option<Code>)
    requires t1 != t2 || k1 != k2
    ensures WriteTree(WriteTree(trees, t1, k1, v1), t2, k2, v2) == WriteTree(WriteTree(trees, t2, k2, v2), t1, k1, v1)
  {
    var x1 := PutKey(TreeOf(trees, t1), k1, v1);
    var x2 := PutKey(TreeOf(trees, t2), k2, v2);
    if t1 == t2 {
      PutKeyCommutes(TreeOf(trees, t1), k1, v1, k2, v2);
    } else {
      assert TreeOf(WriteTree(trees, t1, k1, v1), t2) == TreeOf(trees, t2);
      assert TreeOf(WriteTree(trees, t2, k2, v2), t1) == TreeOf(trees, t1);
      assert trees[t1 := x1][t2 := x2] == trees[t2 := x2][t1 := x1];
    }
  }

  /** Writes to the same key in the other order can differ. */
  lemma SameKeyOrderMatters(treeKey: string, key: Code)
    ensures WriteTree(WriteTree(map[], treeKey, key, Some("a")), treeKey, key, Some("b"))
         != WriteTree(WriteTree(map[], treeKey, key, Some("b")), treeKey, key, Some("a"))
  {
    var ab := WriteTree(WriteTree(map[], treeKey, key, Some("a")), treeKey, key, Some("b"));
    assert GetTreeToolMode(ab, key, treeKey) == Some("b");
  }

  /** Re-applying a packet that was just applied leaves the store as is, so a
      duplicated delivery of one packet is harmless. */
  lemma {:induction false} ApplyAllTwice(trees: Trees, p: SyncPacket)
    ensures ApplyAll(ApplyAll(trees, [p]), [p]) == ApplyAll(trees, [p])
  {
    assert [p][1..] == [];
    WriteTreeIdempotent(trees, p.tree, p.key, p.value);
  }

  /** Own beats inherited for items: with both entries present the item entry
      is returned, with only the group entry that one. */
  lemma ItemOwnBeatsGroup(trees: Trees, item: Collectible)
    requires item.group.Some?
    ensures GetTreeToolMode(trees, item.code, ItemTreeKey).Some? ==>
              GetItemToolMode(trees, item) == GetTreeToolMode(trees, item.code, ItemTreeKey)
    ensures GetTreeToolMode(trees, item.code, ItemTreeKey).None? ==>
              GetItemToolMode(trees, item) == GetGroupToolMode(trees, item.group.value)
  {
  }

  /** Blocks resolve the other way round: a group entry hides the block entry. */
  lemma BlockGroupBeatsOwn(trees: Trees, block: Collectible)
    requires block.group.Some?
    ensures GetGroupToolMode(trees, block.group.value).Some? ==>
              GetBlockToolMode(trees, block) == GetGroupToolMode(trees, block.group.value)
    ensures GetGroupToolMode(trees, block.group.value).None? ==>
              GetBlockToolMode(trees, block) == GetTreeToolMode(trees, block.code, BlockTreeKey)
  {
  }

  /** The two precedences really differ: same entries, different answers. */
  lemma PrecedenceIsAsymmetric(c: Code, g: Code)
    requires c != g
    ensures var trees := map[GroupTreeKey := map[g := "group-pick"], ItemTreeKey := map[c := "own-pick"],
                             BlockTreeKey := map[c := "own-pick"]];
            GetItemToolMode(trees, Collectible(c, Item, Some(g))) == Some("own-pick")
            && GetBlockToolMode(trees, Collectible(c, Block, Some(g))) == Some("group-pick")
  {
  }

  /** After SetItemToolMode with a mode, the item resolves to that mode; a
      group-compatible pick also leaves no own entry behind. */
  lemma {:induction false} ItemSelectThenGet(trees: Trees, item: Collectible, mode: ModeId)
    ensures GetItemToolMode(ApplyAll(trees, ItemWrites(item, Some(mode))), item) == Some(mode.code)
    ensures item.group == Some(mode.group) ==>
              GetTreeToolMode(ApplyAll(trees, ItemWrites(item, Some(mode))), item.code, ItemTreeKey) == None
              && GetGroupToolMode(ApplyAll(trees, ItemWrites(item, Some(mode))), mode.group) == Some(mode.code)
    ensures item.group != Some(mode.group) ==>
              ApplyAll(trees, ItemWrites(item, Some(mode))) == WriteTree(trees, ItemTreeKey, item.code, Some(mode.code))
  {
    var writes := ItemWrites(item, Some(mode));
    if item.group == Some(mode.group) {
      ApplyTwo(trees, writes[0], writes[1]);
      assert GroupTreeKey != ItemTreeKey;
    } else {
      ApplyOne(trees, writes[0]);
    }
  }

  /** Clearing an item (a null pick) reverts it to its group's entry. */
  lemma {:induction false} ItemClearFallsBackToGroup(trees: Trees, item: Collectible)
    ensures item.group.Some? ==>
              GetItemToolMode(ApplyAll(trees, ItemWrites(item, None)), item) == GetGroupToolMode(trees, item.group.value)
    ensures item.group.None? ==> GetItemToolMode(ApplyAll(trees, ItemWrites(item, None)), item) == None
  {
    var writes := ItemWrites(item, None);
    ApplyOne(trees, writes[0]);
    assert GroupTreeKey != ItemTreeKey;
  }

  /** After SetBlockToolMode with one of the block's own modes (its group's or
      its item-specific ones), the block resolves to that mode. */
  lemma {:induction false} BlockSelectThenGet(trees: Trees, block: Collectible, mode: ModeId)
    requires mode.group == block.code || block.group == Some(mode.group)
    ensures GetBlockToolMode(ApplyAll(trees, BlockWrites(block, Some(mode))), block) == Some(mode.code)
    ensures GetTreeToolMode(ApplyAll(trees, BlockWrites(block, Some(mode))), block.code, BlockTreeKey) == Some(mode.code)
  {
    var writes := BlockWrites(block, Some(mode));
    assert GroupTreeKey != BlockTreeKey;
    if mode.group != block.code {
      ApplyTwo(trees, writes[0], writes[1]);
    } else if block.group.Some? {
      ApplyTwo(trees, writes[0], writes[1]);
    } else {
      ApplyOne(trees, writes[0]);
    }
  }

  /** Scenario: X in group G; an own pick c survives a later group pick b,
      and clearing c reveals b. */
  lemma {:induction false} OwnPickSurvivesGroupPick(trees: Trees, x: Code, g: Code, c: Code, b: Code)
    requires x != g
    ensures var item := Collectible(x, Item, Some(g));
            var own := ApplyAll(trees, ItemWrites(item, Some(ModeId(c, x))));
            var grouped := WriteTree(own, GroupTreeKey, g, Some(b));
            GetItemToolMode(grouped, item) == Some(c)
            && GetItemToolMode(ApplyAll(grouped, ItemWrites(item, None)), item) == Some(b)
  {
    var item := Collectible(x, Item, Some(g));
    ItemSelectThenGet(trees, item, ModeId(c, x));
    var own := ApplyAll(trees, ItemWrites(item, Some(ModeId(c, x))));
    var grouped := WriteTree(own, GroupTreeKey, g, Some(b));
    ItemClearFallsBackToGroup(grouped, item);
  }

  /** Index stability: when the selection names a cached mode, the object the
      events dispatch to is the mode at the index the UI shows as selected;
      a selection naming no cached mode shows index 0 but dispatches to nothing. */
  lemma ObjectMatchesIndex(modes: seq<ToolMode>, trees: Trees, item: Collectible, code: Code)
    requires item.itemClass == Item
    requires GetItemToolMode(trees, item) == Some(code)
    ensures FirstMatch(modes, Some(code)).Some? ==>
              GetToolModeObj(Some(modes), trees, item) == Ok(Some(modes[SelectedIndex(modes, code)]))
    ensures FirstMatch(modes, Some(code)).None? ==>
              GetToolModeObj(Some(modes), trees, item) == Ok(None) && SelectedIndex(modes, code) == 0
  {
  }
}
