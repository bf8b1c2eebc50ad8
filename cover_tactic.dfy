/** The plan executor of the cover-tactic domain: it classifies the action the
    planner chose, resolves each dotted binding expression of the actuator to an
    argument (a trait struct, one of its fields, a live engine object or one of
    its components) and starts the actuator with the resolved arguments. */
module CoverTactic {
  import opened Wrappers
  import opened PlannerTypes
  import DotPath

  // ---------------------------------------------------------------------------
  // Action classification

  /** The static GUID-to-name table. */
  function ActionGuidToNameLookup(scheduler: ActionScheduler): (table: map<Guid, string>)
    requires scheduler.Distinct()
    ensures table.Keys == {scheduler.pickupWeaponGuid, scheduler.takeCoverGuid, scheduler.skipTurnGuid}
    ensures table.Values == {PickupWeaponName, TakeCoverName, SkipTurnName}
  {
    map[scheduler.pickupWeaponGuid := PickupWeaponName,
        scheduler.takeCoverGuid := TakeCoverName,
        scheduler.skipTurnGuid := SkipTurnName]
  }

  /** `GetActionName`: a `TryGetValue` on the static table, so an unknown GUID
      gives null rather than an exception. */
  function GetActionName(scheduler: ActionScheduler, actionGuid: Guid): (name: Option<string>)
    requires scheduler.Distinct()
    ensures name == Some(PickupWeaponName) <==> actionGuid == scheduler.pickupWeaponGuid
    ensures name == Some(TakeCoverName) <==> actionGuid == scheduler.takeCoverGuid
    ensures name == Some(SkipTurnName) <==> actionGuid == scheduler.skipTurnGuid
    ensures name.None? <==> actionGuid !in {scheduler.pickupWeaponGuid, scheduler.takeCoverGuid, scheduler.skipTurnGuid}
  {
    var table := ActionGuidToNameLookup(scheduler);
    if actionGuid in table then Some(table[actionGuid]) else None
  }

  /** The `switch` at the head of `Act`: the first GUID that matches decides the
      name; no match leaves the name empty. */
  function ClassifyAction(scheduler: ActionScheduler, actionGuid: Guid): (actionName: string)
    ensures actionName == PickupWeaponName <==> actionGuid == scheduler.pickupWeaponGuid
    ensures actionName == TakeCoverName <==>
              actionGuid == scheduler.takeCoverGuid && actionGuid != scheduler.pickupWeaponGuid
    ensures actionName == SkipTurnName <==>
              actionGuid == scheduler.skipTurnGuid && actionGuid !in {scheduler.pickupWeaponGuid, scheduler.takeCoverGuid}
    ensures actionName == "" <==>
              actionGuid !in {scheduler.pickupWeaponGuid, scheduler.takeCoverGuid, scheduler.skipTurnGuid}
  {
    if actionGuid == scheduler.pickupWeaponGuid then PickupWeaponName
    else if actionGuid == scheduler.takeCoverGuid then TakeCoverName
    else if actionGuid == scheduler.skipTurnGuid then SkipTurnName
    else ""
  }

  /** The generated action class an action name selects, if any. */
  function DefinitionNamed(actions: ActionTable, actionName: string): (d: Option<ActionDefinition>)
    ensures d.Some? <==> actionName in {PickupWeaponName, TakeCoverName, SkipTurnName}
  {
    if actionName == PickupWeaponName then Some(actions.pickupWeapon)
    else if actionName == TakeCoverName then Some(actions.takeCover)
    else if actionName == SkipTurnName then Some(actions.skipTurn)
    else None
  }

  /** The `switch (actionName)` inside the binding loop: the parameter index of
      `name` in the current action, -1 when the action name is none of the three. */
  function ParameterIndex(actions: ActionTable, actionName: string, name: string): (index: int)
    ensures DefinitionNamed(actions, actionName).None? ==> index == -1
    ensures DefinitionNamed(actions, actionName).Some? ==>
              index == DefinitionNamed(actions, actionName).value.indexForParameterName(name)
  {
    if actionName == PickupWeaponName then actions.pickupWeapon.indexForParameterName(name)
    else if actionName == TakeCoverName then actions.takeCover.indexForParameterName(name)
    else if actionName == SkipTurnName then actions.skipTurn.indexForParameterName(name)
    else -1
  }

  /** The `switch` of `GetActionParametersInfo`: the parameter names of the
      action with this GUID, empty for an unknown GUID. */
  function ParameterNamesFor(scheduler: ActionScheduler, actions: ActionTable, actionGuid: Guid): (names: seq<string>)
    ensures actionGuid == scheduler.pickupWeaponGuid ==> names == actions.pickupWeapon.parameterNames
    ensures actionGuid == scheduler.takeCoverGuid && actionGuid != scheduler.pickupWeaponGuid ==>
              names == actions.takeCover.parameterNames
    ensures actionGuid == scheduler.skipTurnGuid && actionGuid !in {scheduler.pickupWeaponGuid, scheduler.takeCoverGuid} ==>
              names == actions.skipTurn.parameterNames
    ensures actionGuid !in {scheduler.pickupWeaponGuid, scheduler.takeCoverGuid, scheduler.skipTurnGuid} ==> names == []
  {
    if actionGuid == scheduler.pickupWeaponGuid then actions.pickupWeapon.parameterNames
    else if actionGuid == scheduler.takeCoverGuid then actions.takeCover.parameterNames
    else if actionGuid == scheduler.skipTurnGuid then actions.skipTurn.parameterNames
    else []
  }

  // ---------------------------------------------------------------------------
  // Binding resolution

  /** The type name a trait is matched by in a binding expression. */
  function TraitName(kind: TraitKind): string
  {
    match kind
    case Agent => "Agent"
    case Location => "Location"
    case Moveable => "Moveable"
    case Item => "Item"
    case Cover => "Cover"
  }

  /** The `switch (split[1])`: the trait a segment names, if any. */
  function ParseTraitName(segment: string): (kind: Option<TraitKind>)
    ensures kind.Some? ==> TraitName(kind.value) == segment
    ensures forall k :: TraitName(k) == segment ==> kind == Some(k)
  {
    if segment == "Agent" then Some(Agent)
    else if segment == "Location" then Some(Location)
    else if segment == "Moveable" then Some(Moveable)
    else if segment == "Item" then Some(Item)
    else if segment == "Cover" then Some(Cover)
    else None
  }

  /** Everything one call of `Act` resolves its bindings against. */
  datatype Env = Env(
    stateData: StateData,
    runtime: UnityRuntime,
    idLookup: map<int, int>,    // plan-state object id -> game-state object id
    actions: ActionTable,
    actionName: string,
    info: ExecutionInfo,
    key: ActionKey)

  /** The object a binding's first segment designates: an empty name and a name
      the action does not know (index -1) throw; so does an index the action
      key cannot serve. */
  function ParameterObject(env: Env, name: string): (r: Result<int, ActError>)
    ensures name == "" ==> r == Err(EmptyParameterName(env.actionName))
    ensures name != "" && ParameterIndex(env.actions, env.actionName, name) == -1 ==>
              r == Err(UnknownParameterName(env.actionName, name))
    ensures var p := ParameterIndex(env.actions, env.actionName, name);
            name != "" && 0 <= p < |env.key.objectIndices| ==> r == Ok(env.key.objectIndices[p])
    ensures var p := ParameterIndex(env.actions, env.actionName, name);
            name != "" && p != -1 && !(0 <= p < |env.key.objectIndices|) ==> r == Err(IndexOutOfRange(p))
  {
    if name == "" then Err(EmptyParameterName(env.actionName))
    else
      var parameterIndex := ParameterIndex(env.actions, env.actionName, name);
      if parameterIndex == -1 then Err(UnknownParameterName(env.actionName, name))
      else ObjectAt(env.key, parameterIndex)
  }

  /** A binding with two or more segments: the trait named by the second segment,
      on object `obj`; with exactly three segments, the field named by the third.
      An unknown trait name leaves the slot null. */
  function TraitArgument(stateData: StateData, obj: int, split: seq<string>): (v: Value)
    requires |split| >= 2
    ensures ParseTraitName(split[1]).None? ==> v == Null
  {
    match ParseTraitName(split[1])
    case None => Null
    case Some(kind) =>
      var t := TraitOnObject(stateData, kind, obj);
      if |split| == 3 then t.fields(split[2]) else Boxed(t)
  }

  /** The live object behind plan-state object `obj`: looked up under the
      game-state id its plan-state id is remapped to, or under the plan-state
      id itself when the remap has no entry for it. */
  function DataSource(env: Env, obj: int): (dataSource: Option<GameObject>)
    ensures var planStateId := env.stateData.objectId(obj);
            planStateId.id in env.idLookup ==>
              dataSource == env.runtime.getDataSource(TraitBasedObjectId(env.idLookup[planStateId.id]))
    ensures var planStateId := env.stateData.objectId(obj);
            planStateId.id !in env.idLookup ==> dataSource == env.runtime.getDataSource(planStateId)
    ensures env.idLookup == map[] ==> dataSource == env.runtime.getDataSource(env.stateData.objectId(obj))
  {
    var planStateId := env.stateData.objectId(obj);
    if planStateId.id in env.idLookup then
      env.runtime.getDataSource(TraitBasedObjectId(env.idLookup[planStateId.id]))
    else
      env.runtime.getDataSource(planStateId)
  }

  /** Coercion of a data source to the declared parameter type: the object itself
      for a `GameObject` parameter, its component for a `Component` parameter,
      null for a null source and for every other parameter type. */
  function Coerce(runtime: UnityRuntime, dataSource: Option<GameObject>, expectedType: ParamType): (v: Value)
    ensures v.Null? <==>
              dataSource.None? || expectedType.OtherType? ||
              (expectedType.ComponentType? && runtime.getComponent(dataSource.value, expectedType.name).None?)
    ensures v.GameObjectRef? <==> dataSource.Some? && expectedType == GameObjectType
    ensures v.GameObjectRef? ==> dataSource == Some(v.gameObject)
    ensures v.ComponentRef? ==>
              dataSource.Some? && expectedType.ComponentType? &&
              runtime.getComponent(dataSource.value, expectedType.name) == Some(v.component)
    ensures !v.Boxed? && !v.FieldContent?
  {
    match dataSource
    case None => Null
    case Some(gameObject) =>
      match expectedType
      case GameObjectType => GameObjectRef(gameObject)
      case ComponentType(name) =>
        (match runtime.getComponent(gameObject, name)
         case None => Null
         case Some(c) => ComponentRef(c))
      case OtherType(_) => Null
  }

  /** One pass of the binding loop: the value of slot `i`, or the exception. */
  function ResolveBinding(env: Env, i: nat): (r: Result<Value, ActError>)
    requires i < |env.info.arguments|
    ensures var name := DotPath.Split(env.info.arguments[i], '.')[0];
            r.Err? <==> ParameterObject(env, name).Err?
    ensures var name := DotPath.Split(env.info.arguments[i], '.')[0];
            r.Err? ==> r.error == ParameterObject(env, name).error
    ensures r.Ok? && '.' !in env.info.arguments[i] ==> !r.value.Boxed? && !r.value.FieldContent?
  {
    var split := DotPath.Split(env.info.arguments[i], '.');
    match ParameterObject(env, split[0])
    case Err(e) => Err(e)
    case Ok(obj) =>
      if |split| > 1 then Ok(TraitArgument(env.stateData, obj, split))
      else Ok(Coerce(env.runtime, DataSource(env, obj), env.info.parameterType(i)))
  }

  /** The control of the binding loop: the first exception thrown stops it;
      otherwise every slot is filled, in order. */
  function Collect<T, E>(results: seq<Result<T, E>>): (r: Result<seq<T>, E>)
    ensures r.Ok? ==> |r.value| == |results| &&
                      forall k :: 0 <= k < |results| ==> results[k] == Ok(r.value[k])
    ensures r.Err? ==> exists j :: 0 <= j < |results| && results[j] == Err(r.error) &&
                                   forall k :: 0 <= k < j ==> results[k].Ok?
  {
    if results == [] then Ok([])
    else
      match results[0]
      case Err(e) => Err(e)
      case Ok(v) =>
        match Collect(results[1..])
        case Err(e) =>
          assert forall k :: 1 <= k < |results| ==> results[k] == results[1..][k - 1];
          Err(e)
        case Ok(rest) => Ok([v] + rest)
  }

  /** The slot of every binding, in binding order. */
  function Slots(env: Env): (slots: seq<Result<Value, ActError>>)
    ensures |slots| == |env.info.arguments|
    ensures forall k :: 0 <= k < |slots| ==> slots[k] == ResolveBinding(env, k)
  {
    seq(|env.info.arguments|, k requires 0 <= k < |env.info.arguments| => ResolveBinding(env, k))
  }

  /** The binding loop: every slot in order, or the exception of the first
      binding that throws. */
  function ResolveArguments(env: Env): (r: Result<seq<Value>, ActError>)
    ensures r.Ok? ==> |r.value| == |env.info.arguments| &&
                      forall k :: 0 <= k < |env.info.arguments| ==> ResolveBinding(env, k) == Ok(r.value[k])
    ensures r.Err? ==> exists j :: 0 <= j < |env.info.arguments| && ResolveBinding(env, j) == Err(r.error) &&
                                   forall k :: 0 <= k < j ==> ResolveBinding(env, k).Ok?
  {
    Collect(Slots(env))
  }

  /** What one call of `Act` does. */
  datatype ActOutcome =
    | NoDispatch                              // no execution info for the action name
    | Failed(error: ActError)                 // a binding threw
    | Dispatched(arguments: seq<Value>)       // the actuator was started

  /** The outcome of `Act` for an action key, as a function of the executor's
      configuration, the remap and the plan state. */
  function ActOutcomeOf(
    scheduler: ActionScheduler, actions: ActionTable, executionInfos: map<string, ExecutionInfo>,
    runtime: UnityRuntime, idLookup: map<int, int>, stateData: StateData, key: ActionKey): (outcome: ActOutcome)
    ensures outcome.NoDispatch? <==> ClassifyAction(scheduler, key.actionGuid) !in executionInfos
    ensures outcome.Dispatched? ==>
              |outcome.arguments| == |executionInfos[ClassifyAction(scheduler, key.actionGuid)].arguments|
  {
    var actionName := ClassifyAction(scheduler, key.actionGuid);
    if actionName !in executionInfos then NoDispatch
    else
      var env := Env(stateData, runtime, idLookup, actions, actionName, executionInfos[actionName], key);
      match ResolveArguments(env)
      case Err(e) => Failed(e)
      case Ok(arguments) => Dispatched(arguments)
  }

  /** One call of the actuator (`StartAction`). */
  datatype StartedAction = StartedAction(info: ExecutionInfo, arguments: seq<Value>)

  // ---------------------------------------------------------------------------
  // The executor

  class CoverTacticExecutor {
    const scheduler: ActionScheduler
    const actions: ActionTable
    /** What `GetExecutionInfo(actionName)` finds, per action name. */
    const executionInfos: map<string, ExecutionInfo>
    const runtime: UnityRuntime
    /** Filled by the world synchronisation outside the executor; only read here. */
    var planStateToGameStateIdLookup: map<int, int>
    var currentActionKey: Option<ActionKey>
    /** Every `StartAction` call so far, oldest first. */
    var startedActions: seq<StartedAction>

    constructor (scheduler: ActionScheduler, actions: ActionTable,
                 executionInfos: map<string, ExecutionInfo>, runtime: UnityRuntime)
      requires scheduler.Distinct()
      ensures this.scheduler == scheduler && this.actions == actions
      ensures this.executionInfos == executionInfos && this.runtime == runtime
      ensures planStateToGameStateIdLookup == map[]
      ensures currentActionKey.None? && startedActions == []
    {
      this.scheduler := scheduler;
      this.actions := actions;
      this.executionInfos := executionInfos;
      this.runtime := runtime;
      planStateToGameStateIdLookup := map[];
      currentActionKey := None;
      startedActions := [];
    }

    /** Carries out `actionKey` in plan state `stateData`. */
    method Act(stateData: StateData, actionKey: ActionKey) returns (outcome: ActOutcome)
      modifies this`currentActionKey, this`startedActions
      ensures outcome == ActOutcomeOf(scheduler, actions, executionInfos, runtime,
                                      planStateToGameStateIdLookup, stateData, actionKey)
      ensures outcome.Dispatched? ==>
                currentActionKey == Some(actionKey) &&
                startedActions == old(startedActions) +
                  [StartedAction(executionInfos[ClassifyAction(scheduler, actionKey.actionGuid)], outcome.arguments)]
      ensures !outcome.Dispatched? ==>
                currentActionKey == old(currentActionKey) && startedActions == old(startedActions)
    {
      var actionName := ClassifyAction(scheduler, actionKey.actionGuid);
      if actionName !in executionInfos {
        return NoDispatch;
      }
      var executeInfos := executionInfos[actionName];
      var env := Env(stateData, runtime, planStateToGameStateIdLookup, actions, actionName, executeInfos, actionKey);
      var argumentMapping := executeInfos.arguments;
      var arguments := new Value[|argumentMapping|](_ => Null);
      var i := 0;
      while i < |argumentMapping|
        invariant 0 <= i <= |argumentMapping|
        invariant forall k :: 0 <= k < i ==> ResolveBinding(env, k) == Ok(arguments[k])
        invariant currentActionKey == old(currentActionKey) && startedActions == old(startedActions)
      {
        var split := DotPath.Split(argumentMapping[i], '.');
        var target := ParameterObject(env, split[0]);
        match target {
          case Err(e) =>
            FirstFailureDecides(Slots(env), i);
            return Failed(e);
          case Ok(traitBasedObjectIndex) =>
            if |split| > 1 {
              arguments[i] := TraitArgument(stateData, traitBasedObjectIndex, split);
            } else {
              var dataSource := DataSource(env, traitBasedObjectIndex);
              arguments[i] := Coerce(runtime, dataSource, executeInfos.parameterType(i));
            }
        }
        i := i + 1;
      }
      AllSucceedDecides(Slots(env), arguments[..]);
      currentActionKey := Some(actionKey);
      startedActions := startedActions + [StartedAction(executeInfos, arguments[..])];
      outcome := Dispatched(arguments[..]);
    }

    /** One diagnostic record per parameter name of the action: its name and the
        id of the object the key binds to that position. Changes nothing. */
    method GetActionParametersInfo(stateData: StateData, actionKey: ActionKey)
      returns (r: Result<seq<ActionParameterInfo>, ActError>)
      ensures var names := ParameterNamesFor(scheduler, actions, actionKey.actionGuid);
              r.Ok? <==> |names| <= |actionKey.objectIndices|
      ensures var names := ParameterNamesFor(scheduler, actions, actionKey.actionGuid);
              r.Ok? ==> |r.value| == |names| &&
                        forall i :: 0 <= i < |names| ==>
                          r.value[i] == ActionParameterInfo(names[i], stateData.objectId(actionKey.objectIndices[i]).id)
      ensures r.Err? ==> r.error == IndexOutOfRange(|actionKey.objectIndices|)
    {
      var parameterNames := ParameterNamesFor(scheduler, actions, actionKey.actionGuid);
      var parameterInfo := new ActionParameterInfo[|parameterNames|](_ => ActionParameterInfo("", 0));
      for i := 0 to |parameterNames|
        invariant i <= |actionKey.objectIndices|
        invariant forall k :: 0 <= k < i ==>
                    parameterInfo[k] == ActionParameterInfo(parameterNames[k], stateData.objectId(actionKey.objectIndices[k]).id)
      {
        var index := ObjectAt(actionKey, i);
        if index.Err? {
          return Err(index.error);
        }
        var traitBasedObjectId := stateData.objectId(index.value);
        parameterInfo[i] := ActionParameterInfo(parameterNames[i], traitBasedObjectId.id);
      }
      return Ok(parameterInfo[..]);
    }
  }

  /** When the results before `i` are values and result `i` is an exception,
      the loop stops with that exception. */
  lemma {:induction false} FirstFailureDecides<T, E>(results: seq<Result<T, E>>, i: nat)
    requires i < |results|
    requires forall k :: 0 <= k < i ==> results[k].Ok?
    requires results[i].Err?
    ensures Collect(results) == Err(results[i].error)
    decreases i
  {
    if i > 0 {
      assert forall k :: 0 <= k < i - 1 ==> results[1..][k] == results[k + 1];
      FirstFailureDecides(results[1..], i - 1);
    }
  }

  /** When every result is a value, the loop fills every slot with it. */
  lemma {:induction false} AllSucceedDecides<T, E>(results: seq<Result<T, E>>, values: seq<T>)
    requires |values| == |results|
    requires forall k :: 0 <= k < |results| ==> results[k] == Ok(values[k])
    ensures Collect(results) == Ok(values)
    decreases |results|
  {
    if results != [] {
      AllSucceedDecides(results[1..], values[1..]);
      assert values == [values[0]] + values[1..];
    }
  }
}
