/** The planner-side and engine-side vocabulary the executor works with. Every
    collaborator whose code lies outside the executor (the state snapshot, the
    generated action classes, the base executor's execution infos, the state
    converter and the engine's component lookup) is a value here: a record of
    total functions or a table, read and never changed by the executor. */
module PlannerTypes {
  import opened Wrappers

  /** A 128-bit GUID. */
  newtype Guid = x: int | 0 <= x < 0x1_0000_0000_0000_0000_0000_0000_0000_0000

  /** The three action GUIDs published by the generated `ActionScheduler`. */
  datatype ActionScheduler = ActionScheduler(
    pickupWeaponGuid: Guid,
    takeCoverGuid: Guid,
    skipTurnGuid: Guid)
  {
    /** The lookup table's initializer adds the three GUIDs as keys; a repeated
        key would make the initializer throw, so they are pairwise distinct. */
    predicate Distinct() {
      pickupWeaponGuid != takeCoverGuid &&
      pickupWeaponGuid != skipTurnGuid &&
      takeCoverGuid != skipTurnGuid
    }
  }

  /** The names of the three actions of the cover-tactic domain. */
  const PickupWeaponName: string := "PickupWeapon"
  const TakeCoverName: string := "TakeCover"
  const SkipTurnName: string := "SkipTurn"

  /** The planner's choice: an action GUID and, per formal parameter, the index
      of the bound object in the state's object table. */
  datatype ActionKey = ActionKey(actionGuid: Guid, objectIndices: seq<int>)

  /** Identity of a trait-based object in a plan state. */
  datatype TraitBasedObjectId = TraitBasedObjectId(id: int)

  /** The five trait types of the domain. */
  datatype TraitKind = Agent | Location | Moveable | Item | Cover

  /** A trait struct of one kind; `fields` is what its reflective
      `GetField(name)` returns for each field name. */
  datatype TraitStruct = TraitStruct(kind: TraitKind, fields: string -> Value)

  /** A live engine object, identified by its instance id. */
  datatype GameObject = GameObject(instanceId: int)

  /** A component of some type attached to a live engine object. */
  datatype Component = Component(owner: GameObject, typeName: string)

  /** A slot of the argument array handed to the actuator (a C# `object`). */
  datatype Value =
    | Null
    | Boxed(traitStruct: TraitStruct)
    | FieldContent(payload: int)
    | GameObjectRef(gameObject: GameObject)
    | ComponentRef(component: Component)

  /** The declared type of an actuator parameter, as far as argument
      coercion distinguishes it. */
  datatype ParamType =
    | GameObjectType
    | ComponentType(name: string)   // `Component` or a subclass of it
    | OtherType(name: string)

  /** The plan-state snapshot returned by the state manager. */
  datatype StateData = StateData(
    traitFields: (TraitKind, int) -> (string -> Value),  // GetTraitOnObjectAtIndex<T>, field by field
    objectId: int -> TraitBasedObjectId)              // GetTraitBasedObjectId

  /** The engine side: the state converter's data-source lookup (null when
      no live object answers to the id) and `GameObject.GetComponent(type)`
      (null when the object carries no component of that type). */
  datatype UnityRuntime = UnityRuntime(
    getDataSource: TraitBasedObjectId -> Option<GameObject>,
    getComponent: (GameObject, string) -> Option<Component>)

  /** What a generated action class publishes: its ordered parameter names
      and its `GetIndexForParameterName` (-1 for a name it does not know). */
  datatype ActionDefinition = ActionDefinition(
    parameterNames: seq<string>,
    indexForParameterName: string -> int)

  /** The three generated action classes. */
  datatype ActionTable = ActionTable(
    pickupWeapon: ActionDefinition,
    takeCover: ActionDefinition,
    skipTurn: ActionDefinition)

  /** An execution info of the base executor: the actuator's binding
      expressions (`GetArgumentValues`) and its declared parameter types
      (`GetParameterType`). */
  datatype ExecutionInfo = ExecutionInfo(
    arguments: seq<string>,
    parameterType: nat -> ParamType)

  /** The diagnostic record returned per formal parameter. */
  datatype ActionParameterInfo = ActionParameterInfo(parameterName: string, traitObjectId: int)

  /** Why `Act` throws. */
  datatype ActError =
    | EmptyParameterName(actionName: string)                      // first segment empty
    | UnknownParameterName(actionName: string, name: string)      // index -1
    | IndexOutOfRange(index: int)                                 // ActionKey indexer

  /** `actionKey[index]`: the object bound to formal parameter `index`. */
  function ObjectAt(key: ActionKey, index: int): (r: Result<int, ActError>)
    ensures r.Ok? <==> 0 <= index < |key.objectIndices|
    ensures r.Ok? ==> r.value == key.objectIndices[index]
    ensures r.Err? ==> r.error == IndexOutOfRange(index)
  {
    if 0 <= index < |key.objectIndices| then Ok(key.objectIndices[index])
    else Err(IndexOutOfRange(index))
  }

  /** `stateData.GetTraitOnObjectAtIndex<T>(index)` for the trait type of `kind`. */
  function TraitOnObject(stateData: StateData, kind: TraitKind, index: int): (t: TraitStruct)
    ensures t.kind == kind
  {
    TraitStruct(kind, stateData.traitFields(kind, index))
  }
}
