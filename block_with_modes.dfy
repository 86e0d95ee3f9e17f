/** BlockWithModes (Common/BlockWithModes.cs): the block counterpart of
    ItemWithModes. It builds the same array, lists visible modes without a
    null result, and leaves index resolution to the base implementation. */
module BlockModes {
  import opened Types
  import opened ToolModes
  import opened Registry
  import opened ModeDecls

  /** As written: `toolModesArray.Any()` with no null check, so a missing
      "toolmodes" array (a null `?.ToArray()`) throws instead of declaring
      nothing. */
  function DeclaredListAsWritten(toolModesArray: Option<seq<ModeDecl>>): (r: Result<seq<ModeDecl>>)
    ensures r.Err? <==> toolModesArray.None?
    ensures r.Err? ==> r.fault == ArgumentNull
    ensures r.Ok? ==> r.value == toolModesArray.value
  {
    if toolModesArray.None? then Err(ArgumentNull) else Ok(toolModesArray.value)
  }

  /** The discrepancy: a block without "toolmodes" fails to load as written,
      while the item variant's guard (DeclaredList) declares no modes; where
      the array exists the two agree. */
  lemma MissingToolModesThrowsAsWritten(toolModesArray: Option<seq<ModeDecl>>)
    ensures toolModesArray.None? ==> DeclaredListAsWritten(toolModesArray) == Err(ArgumentNull) && DeclaredList(toolModesArray) == []
    ensures toolModesArray.Some? ==> DeclaredListAsWritten(toolModesArray) == Ok(DeclaredList(toolModesArray))
  {
  }

  class BlockWithModes {
    const code: Code
    /** The Group property: null unless a subclass names a group. */
    const group: Option<Code>
    var toolModes: seq<ToolMode>

    constructor (code: Code, group: Option<Code>)
      ensures this.code == code && this.group == group && toolModes == []
    {
      this.code := code;
      this.group := group;
      toolModes := [];
    }

    /** OnLoaded with the missing-array guard of ItemWithModes (DeclaredList).
        `attributes` is None when Attributes is null, else the value of
        Attributes["toolmodes"]?.ToArray(). */
    method OnLoaded(registry: ToolModeRegistry, attributes: Option<Option<seq<ModeDecl>>>) returns (r: Outcome)
      modifies this`toolModes, toolModes
      ensures r.Fail? <==> (group.Some? && !registry.CanCreateGroup(group.value)) || attributes.None?
                           || DeclFails(registry, DeclaredList(attributes.value))
      ensures group.Some? && !registry.CanCreateGroup(group.value) ==> toolModes == old(toolModes)
      ensures r.Fail? && group.None? ==> toolModes == old(toolModes)
      ensures r.Pass? ==>
                var baseLen := if group.Some? then |registry.groupModes[group.value]| else |old(toolModes)|;
                var decls := DeclaredList(attributes.value);
                |toolModes| == baseLen + |decls|
                && (forall i :: 0 <= i < baseLen ==>
                      (group.Some? ==> fresh(toolModes[i]) && toolModes[i].code == Some(registry.groupModes[group.value][i])
                                       && toolModes[i].group == group.value && toolModes[i].properties == None)
                      && (group.None? ==> toolModes[i] == old(toolModes)[i]))
                && (forall i :: baseLen <= i < |toolModes| ==>
                      fresh(toolModes[i]) && toolModes[i].code == Some(decls[i - baseLen].name)
                      && toolModes[i].group == code && toolModes[i].properties == decls[i - baseLen].properties)
                && (forall i :: 0 <= i < |toolModes| ==> toolModes[i].lifecycle == Loaded)
      ensures attributes == Some(None) && (group.None? || registry.CanCreateGroup(group.value)) ==>
                r.Pass? && |toolModes| == (if group.Some? then |registry.groupModes[group.value]| else |old(toolModes)|)
    {
      var base := toolModes;
      if group.Some? {
        var created := registry.CreateToolModeGroup(group.value);
        if created.Err? {
          return Fail(created.fault);
        }
        base := created.value;
        toolModes := base;
      }
      if attributes.None? {
        return Fail(NullReference);
      }
      var decls := DeclaredList(attributes.value);
      var loaded := LoadDeclared(registry, Collectible(code, Block, group), base, decls);
      if loaded.Err? {
        return Fail(loaded.fault);
      }
      toolModes := loaded.value;
      return Pass;
    }

    method OnUnloaded()
      modifies toolModes
      ensures forall i :: 0 <= i < |toolModes| ==> toolModes[i].lifecycle == Unloaded
    {
      UnloadAll(toolModes);
    }

    /** The display items of the visible modes, in array order; possibly
        empty, never null. */
    method GetToolModes(shown: ToolMode -> bool) returns (r: seq<SkillItem>)
      ensures r == SkillItems(VisibleModes(toolModes, shown))
      ensures |r| == |VisibleModes(toolModes, shown)|
    {
      r := CollectVisibleItems(toolModes, shown);
      ghost var visible := VisibleModes(toolModes, shown);
      if visible != [] {
        SkillItemsAt(visible, 0);
      }
    }
  }
}
