/** The "toolmodes" attribute of ItemWithModes and BlockWithModes
    (Common/ItemWithModes.cs, Common/BlockWithModes.cs): a list of
    {"name", "properties"} objects, each turned into a mode of the owner. */
module ModeDecls {
  import opened Types
  import opened ToolModes
  import opened Registry

  /** One declared mode: its code and its optional "properties" object. */
  datatype ModeDecl = ModeDecl(name: Code, properties: Option<string>)

  /** `toolModesArray?.Any() ?? false`: a missing array declares no modes. */
  function DeclaredList(toolModesArray: Option<seq<ModeDecl>>): (r: seq<ModeDecl>)
    ensures toolModesArray.None? ==> r == []
    ensures toolModesArray.Some? ==> r == toolModesArray.value
  {
    if toolModesArray.Some? then toolModesArray.value else []
  }

  predicate DeclFails(registry: ToolModeRegistry, decls: seq<ModeDecl>)
    reads registry
  {
    exists k :: 0 <= k < |decls| && decls[k].name !in registry.codeToType
  }

  /** The item-specific loop: one mode per declaration, bound to the owner's
      code, initialised only when properties are present. */
  method CreateDeclaredModes(registry: ToolModeRegistry, owner: Collectible, decls: seq<ModeDecl>)
    returns (r: Result<seq<ToolMode>>)
    ensures r.Err? <==> DeclFails(registry, decls)
    ensures r.Err? ==> exists k :: 0 <= k < |decls| && r.fault == UnknownModeCode(decls[k].name)
                          && decls[k].name !in registry.codeToType
                          && forall j :: 0 <= j < k ==> decls[j].name in registry.codeToType
    ensures r.Ok? ==> |r.value| == |decls|
    ensures r.Ok? ==> forall i :: 0 <= i < |decls| ==>
              fresh(r.value[i]) && r.value[i].code == Some(decls[i].name) && r.value[i].group == owner.code
              && r.value[i].modeType == registry.codeToType[decls[i].name]
              && r.value[i].properties == decls[i].properties && r.value[i].lifecycle == Created
  {
    var modes: seq<ToolMode> := [];
    var i := 0;
    while i < |decls|
      invariant 0 <= i <= |decls|
      invariant |modes| == i
      invariant forall j :: 0 <= j < i ==> decls[j].name in registry.codeToType
      invariant forall j :: 0 <= j < i ==>
                  fresh(modes[j]) && modes[j].code == Some(decls[j].name) && modes[j].group == owner.code
                  && modes[j].modeType == registry.codeToType[decls[j].name]
                  && modes[j].properties == decls[j].properties && modes[j].lifecycle == Created
    {
      var made := registry.CreateToolModeForCollectible(owner, decls[i].name);
      if made.Err? {
        return Err(made.fault);
      }
      var mode := made.value;
      if decls[i].properties.Some? {
        mode.Initialize(decls[i].properties.value);
      }
      modes := modes + [mode];
      i := i + 1;
    }
    return Ok(modes);
  }

  /** The tail of OnLoaded: group modes, then declared modes, each of them
      then receiving OnLoaded in array order. */
  method LoadConcat(base: seq<ToolMode>, specific: seq<ToolMode>) returns (all: seq<ToolMode>)
    modifies base, specific
    ensures |all| == |base| + |specific|
    ensures forall i :: 0 <= i < |base| ==> all[i] == base[i]
    ensures forall i :: |base| <= i < |all| ==> all[i] == specific[i - |base|]
    ensures forall i :: 0 <= i < |all| ==> all[i].lifecycle == Loaded
    ensures forall i :: 0 <= i < |all| ==> all[i].code == old(all[i].code) && all[i].properties == old(all[i].properties)
  {
    all := base + specific;
    assert forall i :: 0 <= i < |base| ==> all[i] == base[i];
    assert forall i :: |base| <= i < |all| ==> all[i] == specific[i - |base|];
    LoadAll(all);
  }

  /** The rest of OnLoaded once the group modes are in place: create the
      declared modes, append them, and load the whole array. */
  method LoadDeclared(registry: ToolModeRegistry, owner: Collectible, base: seq<ToolMode>, decls: seq<ModeDecl>)
    returns (r: Result<seq<ToolMode>>)
    modifies base
    ensures r.Err? <==> DeclFails(registry, decls)
    ensures r.Err? ==> forall i :: 0 <= i < |base| ==> base[i].lifecycle == old(base[i].lifecycle)
    ensures r.Ok? ==>
              |r.value| == |base| + |decls|
              && (forall i :: 0 <= i < |base| ==>
                    r.value[i] == base[i] && base[i].code == old(base[i].code) && base[i].properties == old(base[i].properties))
              && (forall i :: |base| <= i < |r.value| ==>
                    fresh(r.value[i]) && r.value[i].code == Some(decls[i - |base|].name)
                    && r.value[i].group == owner.code && r.value[i].properties == decls[i - |base|].properties)
              && (forall i :: 0 <= i < |r.value| ==> r.value[i].lifecycle == Loaded)
  {
    var specific := CreateDeclaredModes(registry, owner, decls);
    if specific.Err? {
      return Err(specific.fault);
    }
    var all := LoadConcat(base, specific.value);
    return Ok(all);
  }
}
