/** What the executor guarantees, stated over the binding strings, the action
    GUIDs and the outcome of `Act`. */
module CoverTacticProperties {
  import opened Wrappers
  import opened PlannerTypes
  import opened CoverTactic
  import DotPath

  // ---------------------------------------------------------------------------
  // Classification

  /** The `switch` in `Act` and the static lookup table classify alike: the
      same name for the three known GUIDs, the empty name for any other. */
  lemma ClassificationAgreesWithLookup(scheduler: ActionScheduler, actionGuid: Guid)
    requires scheduler.Distinct()
    ensures ClassifyAction(scheduler, actionGuid) ==
              match GetActionName(scheduler, actionGuid)
              case Some(name) => name
              case None => ""
  {
  }

  /** The `switch` of `GetActionParametersInfo` picks the parameter names of the
      action class that the classification names, and none for an unknown GUID. */
  lemma ParameterNamesFollowClassification(scheduler: ActionScheduler, actions: ActionTable, actionGuid: Guid)
    ensures ParameterNamesFor(scheduler, actions, actionGuid) ==
              match DefinitionNamed(actions, ClassifyAction(scheduler, actionGuid))
              case Some(d) => d.parameterNames
              case None => []
  {
  }

  // ---------------------------------------------------------------------------
  // The grammar of binding expressions

  lemma TraitNameHasNoDot(kind: TraitKind)
    ensures '.' !in TraitName(kind)
  {
  }

  /** A binding whose first segment is empty (the empty string, or one that
      starts with a dot) throws, whatever the action and the key. */
  lemma EmptyParameterNameThrows(env: Env, i: nat)
    requires i < |env.info.arguments|
    requires env.info.arguments[i] == "" || env.info.arguments[i][0] == '.'
    ensures ResolveBinding(env, i) == Err(EmptyParameterName(env.actionName))
  {
    DotPath.FirstSegmentEmpty(env.info.arguments[i], '.');
  }

  /** A binding whose first segment `name` does not designate an object of the
      key throws what `ParameterObject` throws: an unknown name (index -1), or
      an index the key cannot serve. */
  lemma UnresolvedParameterThrows(env: Env, i: nat, name: string, tail: string)
    requires i < |env.info.arguments|
    requires env.info.arguments[i] == name + tail
    requires '.' !in name
    requires tail == "" || tail[0] == '.'
    requires ParameterObject(env, name).Err?
    ensures ResolveBinding(env, i) == Err(ParameterObject(env, name).error)
  {
    DotPath.HeadSegment(name, '.', tail);
  }

  /** `<name>.<Trait>`: the whole trait struct of that kind on the bound object. */
  lemma {:induction false} TraitBindingYieldsStruct(env: Env, i: nat, name: string, kind: TraitKind, obj: int)
    requires i < |env.info.arguments|
    requires env.info.arguments[i] == name + "." + TraitName(kind)
    requires '.' !in name
    requires ParameterObject(env, name) == Ok(obj)
    ensures ResolveBinding(env, i) == Ok(Boxed(TraitOnObject(env.stateData, kind, obj)))
  {
    TraitNameHasNoDot(kind);
    DotPath.SplitAfterHead(name, '.', TraitName(kind));
    DotPath.SplitNoSeparator(TraitName(kind), '.');
  }

  /** `<name>.<Trait>.<field>`: that field of the very struct the two-segment
      binding yields. */
  lemma {:induction false} FieldBindingYieldsField(env: Env, i: nat, name: string, kind: TraitKind, field: string, obj: int)
    requires i < |env.info.arguments|
    requires env.info.arguments[i] == name + "." + TraitName(kind) + "." + field
    requires '.' !in name && '.' !in field
    requires ParameterObject(env, name) == Ok(obj)
    ensures ResolveBinding(env, i) == Ok(TraitOnObject(env.stateData, kind, obj).fields(field))
  {
    var t := TraitName(kind);
    TraitNameHasNoDot(kind);
    assert name + "." + t + "." + field == name + ['.'] + (t + ['.'] + field);
    DotPath.SplitAfterHead(name, '.', t + ['.'] + field);
    DotPath.SplitAfterHead(t, '.', field);
    DotPath.SplitNoSeparator(field, '.');
    assert DotPath.Split(env.info.arguments[i], '.') == [name, t, field];
  }

  /** `<name>.<Trait>.<a>.<b>...`: four or more segments yield the whole struct,
      not a field, because only exactly three segments select a field. */
  lemma {:induction false} DeepBindingYieldsStruct(env: Env, i: nat, name: string, kind: TraitKind, rest: string, obj: int)
    requires i < |env.info.arguments|
    requires env.info.arguments[i] == name + "." + TraitName(kind) + "." + rest
    requires '.' !in name && '.' in rest
    requires ParameterObject(env, name) == Ok(obj)
    ensures ResolveBinding(env, i) == Ok(Boxed(TraitOnObject(env.stateData, kind, obj)))
  {
    var t := TraitName(kind);
    TraitNameHasNoDot(kind);
    assert name + "." + t + "." + rest == name + ['.'] + (t + ['.'] + rest);
    DotPath.SplitAfterHead(name, '.', t + ['.'] + rest);
    DotPath.SplitAfterHead(t, '.', rest);
    var tailParts := DotPath.Split(rest, '.');
    if |tailParts| == 1 {
      assert false;
    }
    assert |DotPath.Split(env.info.arguments[i], '.')| == 2 + |tailParts|;
  }

  /** `<name>.<segment>...` with a second segment that names no trait: the slot
      stays null and nothing is thrown. */
  lemma {:induction false} UnknownTraitLeavesNull(env: Env, i: nat, name: string, segment: string, tail: string, obj: int)
    requires i < |env.info.arguments|
    requires env.info.arguments[i] == name + "." + segment + tail
    requires '.' !in name && '.' !in segment
    requires tail == "" || tail[0] == '.'
    requires ParseTraitName(segment).None?
    requires ParameterObject(env, name) == Ok(obj)
    ensures ResolveBinding(env, i) == Ok(Null)
  {
    assert name + "." + segment + tail == name + ['.'] + (segment + tail);
    DotPath.SplitAfterHead(name, '.', segment + tail);
    DotPath.HeadSegment(segment, '.', tail);
  }

  /** `<name>`: the live object behind the bound plan-state object, coerced to
      the declared type of parameter `i` (the binding's position, not the
      parameter index). The object is looked up under the remapped game-state id
      when the remap has the plan-state id as a key, under the plan-state id
      otherwise. */
  lemma {:induction false} ObjectBindingUsesRemap(env: Env, i: nat, name: string, obj: int)
    requires i < |env.info.arguments|
    requires env.info.arguments[i] == name
    requires '.' !in name
    requires ParameterObject(env, name) == Ok(obj)
    ensures var planStateId := env.stateData.objectId(obj);
            var dataSource := if planStateId.id in env.idLookup
                              then env.runtime.getDataSource(TraitBasedObjectId(env.idLookup[planStateId.id]))
                              else env.runtime.getDataSource(planStateId);
            ResolveBinding(env, i) == Ok(Coerce(env.runtime, dataSource, env.info.parameterType(i)))
  {
    DotPath.SplitNoSeparator(name, '.');
  }

  // ---------------------------------------------------------------------------
  // The outcome of Act

  /** A dispatch fills exactly one slot per binding, slot `k` from binding `k`,
      and happens only for an action name that has an execution info. */
  lemma DispatchFillsEverySlot(
    scheduler: ActionScheduler, actions: ActionTable, executionInfos: map<string, ExecutionInfo>,
    runtime: UnityRuntime, idLookup: map<int, int>, stateData: StateData, key: ActionKey)
    requires ActOutcomeOf(scheduler, actions, executionInfos, runtime, idLookup, stateData, key).Dispatched?
    ensures var actionName := ClassifyAction(scheduler, key.actionGuid);
            var arguments := ActOutcomeOf(scheduler, actions, executionInfos, runtime, idLookup, stateData, key).arguments;
            actionName in executionInfos &&
            var env := Env(stateData, runtime, idLookup, actions, actionName, executionInfos[actionName], key);
            |arguments| == |env.info.arguments| &&
            forall k :: 0 <= k < |arguments| ==> ResolveBinding(env, k) == Ok(arguments[k])
  {
  }

  /** A failed `Act` reports the exception of the first binding that throws. */
  lemma FailureIsFirstThrow(
    scheduler: ActionScheduler, actions: ActionTable, executionInfos: map<string, ExecutionInfo>,
    runtime: UnityRuntime, idLookup: map<int, int>, stateData: StateData, key: ActionKey)
    requires ActOutcomeOf(scheduler, actions, executionInfos, runtime, idLookup, stateData, key).Failed?
    ensures var actionName := ClassifyAction(scheduler, key.actionGuid);
            var error := ActOutcomeOf(scheduler, actions, executionInfos, runtime, idLookup, stateData, key).error;
            actionName in executionInfos &&
            var env := Env(stateData, runtime, idLookup, actions, actionName, executionInfos[actionName], key);
            exists j :: 0 <= j < |env.info.arguments| && ResolveBinding(env, j) == Err(error) &&
                        forall k :: 0 <= k < j ==> ResolveBinding(env, k).Ok?
  {
  }

  /** One binding that throws is enough to prevent the dispatch. */
  lemma {:induction false} ThrowingBindingPreventsDispatch(
    scheduler: ActionScheduler, actions: ActionTable, executionInfos: map<string, ExecutionInfo>,
    runtime: UnityRuntime, idLookup: map<int, int>, stateData: StateData, key: ActionKey, j: nat)
    requires ClassifyAction(scheduler, key.actionGuid) in executionInfos
    requires var actionName := ClassifyAction(scheduler, key.actionGuid);
             var env := Env(stateData, runtime, idLookup, actions, actionName, executionInfos[actionName], key);
             j < |env.info.arguments| && ResolveBinding(env, j).Err?
    ensures ActOutcomeOf(scheduler, actions, executionInfos, runtime, idLookup, stateData, key).Failed?
  {
    var actionName := ClassifyAction(scheduler, key.actionGuid);
    var env := Env(stateData, runtime, idLookup, actions, actionName, executionInfos[actionName], key);
    var r := ResolveArguments(env);
    if r.Ok? {
      assert false;
    }
  }

  /** Under an action name that is none of the three, every binding throws:
      the parameter index stays -1 (or the first segment is empty). */
  lemma UnknownActionResolvesNoBinding(env: Env, i: nat)
    requires i < |env.info.arguments|
    requires DefinitionNamed(env.actions, env.actionName).None?
    ensures ResolveBinding(env, i).Err?
  {
  }

  /** An unknown GUID never starts the actuator with an argument: without an
      execution info for the empty name nothing happens, and with one only an
      actuator that takes no binding at all can start. */
  lemma {:induction false} UnknownGuidDoesNotDispatch(
    scheduler: ActionScheduler, actions: ActionTable, executionInfos: map<string, ExecutionInfo>,
    runtime: UnityRuntime, idLookup: map<int, int>, stateData: StateData, key: ActionKey)
    requires key.actionGuid !in {scheduler.pickupWeaponGuid, scheduler.takeCoverGuid, scheduler.skipTurnGuid}
    ensures "" !in executionInfos ==>
              ActOutcomeOf(scheduler, actions, executionInfos, runtime, idLookup, stateData, key) == NoDispatch
    ensures ActOutcomeOf(scheduler, actions, executionInfos, runtime, idLookup, stateData, key).Dispatched? ==>
              executionInfos[""].arguments == [] &&
              ActOutcomeOf(scheduler, actions, executionInfos, runtime, idLookup, stateData, key).arguments == []
  {
    var outcome := ActOutcomeOf(scheduler, actions, executionInfos, runtime, idLookup, stateData, key);
    if outcome.Dispatched? {
      var env := Env(stateData, runtime, idLookup, actions, "", executionInfos[""], key);
      if env.info.arguments != [] {
        UnknownActionResolvesNoBinding(env, 0);
        assert false;
      }
    }
  }

  /** The environment of the TakeCover scenario below. */
  predicate TakeCoverSetting(env: Env)
  {
    && env.actionName == TakeCoverName
    && env.info.arguments == ["Self", "CoverSpot.Location.Position"]
    && env.actions.takeCover.indexForParameterName("Self") == 0
    && env.actions.takeCover.indexForParameterName("CoverSpot") == 1
    && env.key.objectIndices == [3, 7]
  }

  lemma {:induction false} TakeCoverSelfSlot(env: Env, self: GameObject)
    requires TakeCoverSetting(env)
    requires env.info.parameterType(0) == GameObjectType
    requires env.stateData.objectId(3).id !in env.idLookup
    requires env.runtime.getDataSource(env.stateData.objectId(3)) == Some(self)
    ensures ResolveBinding(env, 0) == Ok(GameObjectRef(self))
  {
    assert '.' !in "Self";
    assert ParameterObject(env, "Self") == Ok(3);
    ObjectBindingUsesRemap(env, 0, "Self", 3);
  }

  lemma {:induction false} TakeCoverPositionSlot(env: Env)
    requires TakeCoverSetting(env)
    ensures ResolveBinding(env, 1) == Ok(env.stateData.traitFields(Location, 7)("Position"))
  {
    assert '.' !in "CoverSpot" && '.' !in "Position";
    assert ParameterObject(env, "CoverSpot") == Ok(7);
    assert "CoverSpot.Location.Position" == "CoverSpot" + "." + TraitName(Location) + "." + "Position";
    FieldBindingYieldsField(env, 1, "CoverSpot", Location, "Position", 7);
  }

  lemma {:induction false} TwoBindingsResolve(env: Env, first: Value, second: Value)
    requires |env.info.arguments| == 2
    requires ResolveBinding(env, 0) == Ok(first) && ResolveBinding(env, 1) == Ok(second)
    ensures ResolveArguments(env) == Ok([first, second])
  {
    AllSucceedDecides(Slots(env), [first, second]);
  }

  /** A TakeCover actuator declared as `(GameObject self, <position>)` with the
      bindings `Self` and `CoverSpot.Location.Position`, for a key that binds
      `Self` to object 3 and `CoverSpot` to object 7: the actuator is started
      with the live object of object 3 and the `Position` field of object 7's
      `Location` trait. */
  lemma {:induction false} TakeCoverScenario(
    scheduler: ActionScheduler, actions: ActionTable, executionInfos: map<string, ExecutionInfo>,
    runtime: UnityRuntime, idLookup: map<int, int>, stateData: StateData, self: GameObject)
    requires scheduler.Distinct()
    requires TakeCoverName in executionInfos
    requires executionInfos[TakeCoverName].arguments == ["Self", "CoverSpot.Location.Position"]
    requires executionInfos[TakeCoverName].parameterType(0) == GameObjectType
    requires actions.takeCover.indexForParameterName("Self") == 0
    requires actions.takeCover.indexForParameterName("CoverSpot") == 1
    requires stateData.objectId(3).id !in idLookup
    requires runtime.getDataSource(stateData.objectId(3)) == Some(self)
    ensures var key := ActionKey(scheduler.takeCoverGuid, [3, 7]);
            ActOutcomeOf(scheduler, actions, executionInfos, runtime, idLookup, stateData, key) ==
              Dispatched([GameObjectRef(self), stateData.traitFields(Location, 7)("Position")])
  {
    var key := ActionKey(scheduler.takeCoverGuid, [3, 7]);
    assert ClassifyAction(scheduler, key.actionGuid) == TakeCoverName;
    var env := Env(stateData, runtime, idLookup, actions, TakeCoverName, executionInfos[TakeCoverName], key);
    var expected := [GameObjectRef(self), stateData.traitFields(Location, 7)("Position")];
    assert TakeCoverSetting(env);
    TakeCoverSelfSlot(env, self);
    TakeCoverPositionSlot(env);
    TwoBindingsResolve(env, expected[0], expected[1]);
  }
}
