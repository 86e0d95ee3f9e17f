/** ToolModeRegistry (System/ToolModeSystem.cs): the mode-code -> type and
    group-code -> member-list dictionaries, mode instantiation, and the client
    side of the sync channel. */
module Registry {
  import opened Types
  import opened ToolModes

  class ToolModeRegistry {
    /** CodeToTypeMapping */
    var codeToType: map<Code, ModeType>
    /** groupModes: the ordered members of each group */
    var groupModes: map<Code, seq<Code>>
    /** Packets handed to the client sync channel, in send order. */
    var outbox: seq<SyncPacket>

    constructor ()
      ensures codeToType == map[] && groupModes == map[] && outbox == []
    {
      codeToType := map[];
      groupModes := map[];
      outbox := [];
    }

    /** The members registered so far for a group (none if it is absent). */
    function Members(group: Code): seq<Code>
      reads this
    {
      if group in groupModes then groupModes[group] else []
    }

    /** CreateToolModeGroup succeeds: the group is known and every member has a type. */
    predicate CanCreateGroup(group: Code)
      reads this
    {
      group in groupModes && forall k :: 0 <= k < |groupModes[group]| ==> groupModes[group][k] in codeToType
    }

    /** Dictionary.Add: a second registration of a code fails and changes nothing. */
    method RegisterToolMode(code: Code, modeType: ModeType) returns (r: Outcome)
      modifies this`codeToType
      ensures r.Fail? <==> code in old(codeToType)
      ensures r.Fail? ==> r.fault == DuplicateRegistration(code) && codeToType == old(codeToType)
      ensures r.Pass? ==> codeToType == old(codeToType)[code := modeType]
    {
      if code in codeToType {
        return Fail(DuplicateRegistration(code));
      }
      codeToType := codeToType[code := modeType];
      return Pass;
    }

    /** Appends `types` to the group's list, creating an empty list first. */
    method RegisterModeGroup(code: Code, types: seq<Code>)
      modifies this`groupModes
      ensures groupModes == old(groupModes)[code := old(Members(code)) + types]
    {
      ghost var earlier := Members(code);
      if code !in groupModes {
        groupModes := groupModes[code := []];
      }
      var i := 0;
      assert earlier + types[..0] == earlier;
      while i < |types|
        invariant 0 <= i <= |types|
        invariant groupModes == old(groupModes)[code := earlier + types[..i]]
      {
        assert earlier + types[..i + 1] == (earlier + types[..i]) + [types[i]];
        groupModes := groupModes[code := groupModes[code] + [types[i]]];
        i := i + 1;
      }
      assert types[..i] == types;
    }

    /** The internal overload: instantiate the registered type bound to a group code. */
    method Instantiate(groupCode: Code, modeType: ModeType) returns (mode: ToolMode)
      ensures fresh(mode) && mode.modeType == modeType && mode.group == groupCode
      ensures mode.code == None && mode.properties == None && mode.lifecycle == Created
    {
      mode := new ToolMode(modeType, groupCode);
    }

    /** CreateToolMode(CollectibleObject, code): the mode's Group is the collectible's code. */
    method CreateToolModeForCollectible(collectible: Collectible, code: Code) returns (r: Result<ToolMode>)
      ensures r.Err? <==> code !in codeToType
      ensures r.Err? ==> r.fault == UnknownModeCode(code)
      ensures r.Ok? ==> fresh(r.value) && r.value.code == Some(code) && r.value.group == collectible.code
      ensures r.Ok? ==> r.value.modeType == codeToType[code] && r.value.properties == None && r.value.lifecycle == Created
    {
      if code !in codeToType {
        return Err(UnknownModeCode(code));
      }
      var mode := Instantiate(collectible.code, codeToType[code]);
      mode.code := Some(code);
      return Ok(mode);
    }

    /** CreateToolMode(AssetLocation group, code): the mode's Group is the given group. */
    method CreateToolModeInGroup(group: Code, code: Code) returns (r: Result<ToolMode>)
      ensures r.Err? <==> code !in codeToType
      ensures r.Err? ==> r.fault == UnknownModeCode(code)
      ensures r.Ok? ==> fresh(r.value) && r.value.code == Some(code) && r.value.group == group
      ensures r.Ok? ==> r.value.modeType == codeToType[code] && r.value.properties == None && r.value.lifecycle == Created
    {
      if code !in codeToType {
        return Err(UnknownModeCode(code));
      }
      var mode := Instantiate(group, codeToType[code]);
      mode.code := Some(code);
      return Ok(mode);
    }

    /** One fresh mode per member, in member order. An unregistered group
        fails; so does the first member that has no registered type. */
    method CreateToolModeGroup(group: Code) returns (r: Result<seq<ToolMode>>)
      ensures group !in groupModes ==> r == Err(UnknownGroup(group))
      ensures group in groupModes ==>
                (r.Err? <==> exists k :: 0 <= k < |groupModes[group]| && groupModes[group][k] !in codeToType)
      ensures group in groupModes && r.Err? ==>
                exists k :: 0 <= k < |groupModes[group]| && r.fault == UnknownModeCode(groupModes[group][k])
                  && groupModes[group][k] !in codeToType
                  && forall j :: 0 <= j < k ==> groupModes[group][j] in codeToType
      ensures r.Ok? ==> group in groupModes && |r.value| == |groupModes[group]|
      ensures r.Ok? ==> forall i :: 0 <= i < |r.value| ==>
                fresh(r.value[i]) && r.value[i].code == Some(groupModes[group][i]) && r.value[i].group == group
                && r.value[i].modeType == codeToType[groupModes[group][i]]
                && r.value[i].properties == None && r.value[i].lifecycle == Created
      ensures r.Ok? ==> forall i, j :: 0 <= i < j < |r.value| ==> r.value[i] != r.value[j]
    {
      if group !in groupModes {
        return Err(UnknownGroup(group));
      }
      var members := groupModes[group];
      var newModes: seq<ToolMode> := [];
      var i := 0;
      while i < |members|
        invariant 0 <= i <= |members|
        invariant |newModes| == i
        invariant forall j :: 0 <= j < i ==> members[j] in codeToType
        invariant forall j :: 0 <= j < i ==>
                    fresh(newModes[j]) && newModes[j].code == Some(members[j]) && newModes[j].group == group
                    && newModes[j].modeType == codeToType[members[j]]
                    && newModes[j].properties == None && newModes[j].lifecycle == Created
        invariant forall j, k :: 0 <= j < k < i ==> newModes[j] != newModes[k]
      {
        var made := CreateToolModeInGroup(group, members[i]);
        if made.Err? {
          return Err(made.fault);
        }
        newModes := newModes + [made.value];
        i := i + 1;
      }
      return Ok(newModes);
    }

    /** Two expansions of the same group against an unchanged registry agree
        on success and on the codes, in order, though the instances differ. */
    method CreateToolModeGroupTwice(group: Code) returns (first: Result<seq<ToolMode>>, second: Result<seq<ToolMode>>)
      ensures first.Ok? <==> second.Ok?
      ensures first.Ok? && second.Ok? ==> CodesOf(first.value) == CodesOf(second.value)
      ensures first.Ok? && second.Ok? && |first.value| > 0 ==> first.value[0] != second.value[0]
    {
      first := CreateToolModeGroup(group);
      second := CreateToolModeGroup(group);
      if first.Ok? && second.Ok? {
        assert |CodesOf(first.value)| == |CodesOf(second.value)|;
      }
    }

    /** SendSyncPacket: hand one packet to the client channel. */
    method SendSyncPacket(forTree: string, key: Code, value: Option<Code>)
      modifies this`outbox
      ensures outbox == old(outbox) + [SyncPacket(forTree, key, value)]
    {
      outbox := outbox + [SyncPacket(forTree, key, value)];
    }
  }
}
