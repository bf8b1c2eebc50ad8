# Cover-tactic plan executor

A Dafny model of `CoverTacticExecutor`, the generated plan executor of the
cover-tactic AI-planner sample. The planner hands the executor an action key:
an action GUID and, for each formal parameter, the index of a plan-state
object. The executor works in four steps:

1. It classifies the GUID as `PickupWeapon`, `TakeCover` or `SkipTurn`.
2. It fetches the execution info registered for that action name.
3. It resolves every dotted binding expression of the actuator
   (`<param>`, `<param>.<Trait>` or `<param>.<Trait>.<field>`) to an
   argument: a trait struct, one of its fields, a live `GameObject`, or one of
   that object's components.
4. It records the key as the current action and starts the actuator.

It also answers diagnostic queries about an action's parameters.

Files:

- `wrappers.dfy`: `Option` (a C# reference that may be null) and `Result`
  (a call that may throw).
- `dot_path.dfy`: C#'s `String.Split('.')`, which keeps empty segments, and
  its inverse `Join`.
- `planner_types.dfy`: the vocabulary. Every collaborator outside the
  executor is a read-only value here: the plan-state snapshot, the generated
  action classes, the execution infos, the state converter and
  `GetComponent`.
- `cover_tactic.dfy`: classification and binding resolution as functions, plus
  the class `CoverTacticExecutor`. Its `Act` method fills the argument array
  in a loop, updates `currentActionKey` and appends to the log of actuator
  starts. Its `GetActionParametersInfo` method fills the info array in a loop.
- `cover_tactic_properties.dfy`: lemmas that state what the executor
  guarantees. They are phrased over the binding strings, the GUIDs and the
  outcome of `Act`.

How the model represents the source:

- `Act` returns `void` in the source and communicates by effects or by an
  exception. Here it returns an `ActOutcome`:
  - `NoDispatch`: no execution info for the action name, so nothing happens.
  - `Failed(error)`: an `ArgumentException` or an index error was thrown, and
    nothing changed.
  - `Dispatched(arguments)`: the actuator was started.
- `StartAction` is modelled as an append to the field `startedActions`.
  `Act`'s contract ties the outcome to the pure function `ActOutcomeOf`.
  The lemmas are about that function.
- The source's constructor takes a state manager and a state converter.
  The model's constructor instead takes the values those two and the base
  class supply:
  - the scheduler's three GUIDs;
  - the three generated action classes;
  - the execution infos (what `GetExecutionInfo` finds);
  - the engine runtime.

  The plan-state snapshot (`GetStateData(CurrentPlanState)`) is a parameter
  of `Act`.
- The three GUIDs are defined in `ActionScheduler`, which is not part of this
  model. They are a parameter that must be pairwise distinct, because the
  static dictionary initializer throws on a repeated key.

Behaviours of the code worth knowing (the model follows the code):

- A second segment that names no trait leaves the slot null. It does not
  raise an error.
- Four or more segments yield the whole trait struct. Only exactly three
  segments select a field.
- The declared type used to coerce a one-segment binding is taken at the
  binding's position `i`. It is not taken at the parameter index.
- For an unknown GUID, `Act` does not abort by itself. It looks up an
  execution info under the empty name. If one were registered, every binding
  would throw and an actuator with no bindings would start
  (`UnknownGuidDoesNotDispatch`).

## Model

| member | source | states |
|---|---|---|
| `CoverTactic.ActionGuidToNameLookup` | Tactics/Packages/generated.ai.planner.plans/Generated.AI.Planner.Plans/CoverTactic/CoverTacticExecutor.cs:31-36 | the static table has exactly the three scheduler GUIDs as keys and exactly the three action names as values |
| `CoverTactic.GetActionName` | Tactics/Packages/generated.ai.planner.plans/Generated.AI.Planner.Plans/CoverTactic/CoverTacticExecutor.cs:46-50 | each known GUID gives its own action name and only that GUID gives it; every other GUID gives none (no exception) |
| `CoverTacticProperties.ClassificationAgreesWithLookup` | Tactics/Packages/generated.ai.planner.plans/Generated.AI.Planner.Plans/CoverTactic/CoverTacticExecutor.cs:55-68 | the `switch` in `Act` classifies every GUID exactly as the lookup table does, and an unknown GUID leaves the name empty |
| `CoverTactic.ParameterIndex` | Tactics/Packages/generated.ai.planner.plans/Generated.AI.Planner.Plans/CoverTactic/CoverTacticExecutor.cs:87-98 | the index comes from the action class the name selects; any other action name gives -1 |
| `CoverTacticProperties.ParameterNamesFollowClassification` | Tactics/Packages/generated.ai.planner.plans/Generated.AI.Planner.Plans/CoverTactic/CoverTacticExecutor.cs:169-183 | the parameter names of `GetActionParametersInfo` are those of the action class the classification names, empty for an unknown GUID |
| `CoverTactic.ParseTraitName` | Tactics/Packages/generated.ai.planner.plans/Generated.AI.Planner.Plans/CoverTactic/CoverTacticExecutor.cs:106-128 | a segment selects a trait exactly when it is that trait's type name |
| `CoverTactic.ParameterObject` | Tactics/Packages/generated.ai.planner.plans/Generated.AI.Planner.Plans/CoverTactic/CoverTacticExecutor.cs:81-103 | an empty name throws; a name with index -1 throws, carrying the name; a non-empty name whose index the key binds resolves to the key's object at that index; any other index throws `IndexOutOfRange` |
| `CoverTactic.TraitArgument` | Tactics/Packages/generated.ai.planner.plans/Generated.AI.Planner.Plans/CoverTactic/CoverTacticExecutor.cs:104-128 | an unknown trait name leaves the slot null |
| `CoverTactic.Coerce` | Tactics/Packages/generated.ai.planner.plans/Generated.AI.Planner.Plans/CoverTactic/CoverTacticExecutor.cs:139-156 | the slot is null exactly for a null data source, a type that is neither `GameObject` nor a component, or a missing component; it is the object itself exactly for a `GameObject` parameter; otherwise it is that object's component |
| `CoverTactic.ClassifyAction` | Tactics/Packages/generated.ai.planner.plans/Generated.AI.Planner.Plans/CoverTactic/CoverTacticExecutor.cs:55-68 | the first matching GUID decides: the scheduler's PickupWeapon GUID gives `PickupWeapon`, TakeCover's `TakeCover` and SkipTurn's `SkipTurn`, each only when no earlier case matched; any other GUID gives the empty name |
| `CoverTactic.ParameterNamesFor` | Tactics/Packages/generated.ai.planner.plans/Generated.AI.Planner.Plans/CoverTactic/CoverTacticExecutor.cs:172-183 | each known GUID selects the parameter names of its own action class (first match wins); any other GUID gives no names |
| `PlannerTypes.ObjectAt` | Tactics/Packages/generated.ai.planner.plans/Generated.AI.Planner.Plans/CoverTactic/CoverTacticExecutor.cs:103 | `actionKey[index]` is the object bound at that index when the key binds it, and throws `IndexOutOfRange` otherwise |
| `CoverTactic.DataSource` | Tactics/Packages/generated.ai.planner.plans/Generated.AI.Planner.Plans/CoverTactic/CoverTacticExecutor.cs:132-137 | the live object is looked up under the remapped game-state id when the remap has the plan-state id as a key, under the plan-state id otherwise; with an empty remap, always under the plan-state id |
| `CoverTactic.ResolveBinding` | Tactics/Packages/generated.ai.planner.plans/Generated.AI.Planner.Plans/CoverTactic/CoverTacticExecutor.cs:79-158 | a binding throws exactly when its first segment does not resolve to a bound object, and then throws that error; a binding without a dot never yields a trait struct or field |
| `CoverTactic.ActOutcomeOf` | Tactics/Packages/generated.ai.planner.plans/Generated.AI.Planner.Plans/CoverTactic/CoverTacticExecutor.cs:52-164 | nothing happens exactly when there is no execution info for the classified name; a dispatch has one argument per binding of that execution info |
| `CoverTactic.Collect` | Tactics/Packages/generated.ai.planner.plans/Generated.AI.Planner.Plans/CoverTactic/CoverTacticExecutor.cs:77-161 | the loop either fills every slot in order or stops with the exception of the first binding that throws |
| `CoverTactic.ResolveArguments` | Tactics/Packages/generated.ai.planner.plans/Generated.AI.Planner.Plans/CoverTactic/CoverTacticExecutor.cs:74-161 | success gives one slot per binding, slot k resolved from binding k; failure is the exception of the first throwing binding, after only successful ones |
| `CoverTactic.CoverTacticExecutor.constructor` | Tactics/Packages/generated.ai.planner.plans/Generated.AI.Planner.Plans/CoverTactic/CoverTacticExecutor.cs:40-44 | the executor starts with no current action key, no actuator start and an empty id remap |
| `CoverTactic.CoverTacticExecutor.Act` | Tactics/Packages/generated.ai.planner.plans/Generated.AI.Planner.Plans/CoverTactic/CoverTacticExecutor.cs:52-165 | the outcome is `ActOutcomeOf` for the key; on dispatch the current key becomes the key and exactly one actuator start is appended, with the execution info and the filled arguments; otherwise neither changes |
| `CoverTactic.CoverTacticExecutor.GetActionParametersInfo` | Tactics/Packages/generated.ai.planner.plans/Generated.AI.Planner.Plans/CoverTactic/CoverTacticExecutor.cs:167-198 | one entry per parameter name (none for an unknown GUID); entry i holds name i and the id of the key's object i; it fails only when the key binds fewer objects than there are names; it changes nothing |
| `CoverTactic.FirstFailureDecides` | Tactics/Packages/generated.ai.planner.plans/Generated.AI.Planner.Plans/CoverTactic/CoverTacticExecutor.cs:77-101 | if the bindings before i resolve and binding i throws, the loop ends with binding i's exception |
| `CoverTactic.AllSucceedDecides` | Tactics/Packages/generated.ai.planner.plans/Generated.AI.Planner.Plans/CoverTactic/CoverTacticExecutor.cs:77-161 | if every binding resolves, the loop yields exactly those values |
| `DotPath.Split` | Tactics/Packages/generated.ai.planner.plans/Generated.AI.Planner.Plans/CoverTactic/CoverTacticExecutor.cs:79 | at least one segment, no segment contains a dot, and joining the segments with dots gives back the binding |
| `DotPath.SplitJoin` | Tactics/Packages/generated.ai.planner.plans/Generated.AI.Planner.Plans/CoverTactic/CoverTacticExecutor.cs:79 | splitting a dot-joined, non-empty list of dot-free segments gives back that list; with `Split`'s own contract, the two are inverse |
| `DotPath.FirstSegmentEmpty` | Tactics/Packages/generated.ai.planner.plans/Generated.AI.Planner.Plans/CoverTactic/CoverTacticExecutor.cs:79-84 | the first segment is empty if and only if the binding is empty or starts with a dot |
| `CoverTacticProperties.EmptyParameterNameThrows` | Tactics/Packages/generated.ai.planner.plans/Generated.AI.Planner.Plans/CoverTactic/CoverTacticExecutor.cs:82-85 | a binding that is empty or starts with a dot throws, whatever the action and the key |
| `CoverTacticProperties.UnresolvedParameterThrows` | Tactics/Packages/generated.ai.planner.plans/Generated.AI.Planner.Plans/CoverTactic/CoverTacticExecutor.cs:87-103 | a binding whose parameter name is unknown (index -1) or is out of the key's range throws that error |
| `CoverTacticProperties.TraitBindingYieldsStruct` | Tactics/Packages/generated.ai.planner.plans/Generated.AI.Planner.Plans/CoverTactic/CoverTacticExecutor.cs:104-128 | `<param>.<Trait>` yields the whole trait struct of that kind on the bound object |
| `CoverTacticProperties.FieldBindingYieldsField` | Tactics/Packages/generated.ai.planner.plans/Generated.AI.Planner.Plans/CoverTactic/CoverTacticExecutor.cs:104-128 | `<param>.<Trait>.<field>` yields that field of the very struct the two-segment binding yields |
| `CoverTacticProperties.DeepBindingYieldsStruct` | Tactics/Packages/generated.ai.planner.plans/Generated.AI.Planner.Plans/CoverTactic/CoverTacticExecutor.cs:108-127 | four or more segments yield the whole trait struct, not a field |
| `CoverTacticProperties.UnknownTraitLeavesNull` | Tactics/Packages/generated.ai.planner.plans/Generated.AI.Planner.Plans/CoverTactic/CoverTacticExecutor.cs:104-128 | a second segment that names no trait leaves the slot null, with any number of further segments |
| `CoverTacticProperties.ObjectBindingUsesRemap` | Tactics/Packages/generated.ai.planner.plans/Generated.AI.Planner.Plans/CoverTactic/CoverTacticExecutor.cs:130-157 | `<param>` yields the live object found under the remapped game-state id, or under the plan-state id when the remap has no entry, coerced to the declared type at the binding's position |
| `CoverTacticProperties.DispatchFillsEverySlot` | Tactics/Packages/generated.ai.planner.plans/Generated.AI.Planner.Plans/CoverTactic/CoverTacticExecutor.cs:70-77 | a dispatch happens only with an execution info, and with exactly one argument per binding, argument k resolved from binding k |
| `CoverTacticProperties.FailureIsFirstThrow` | Tactics/Packages/generated.ai.planner.plans/Generated.AI.Planner.Plans/CoverTactic/CoverTacticExecutor.cs:77-101 | a failed `Act` reports the exception of the first throwing binding |
| `CoverTacticProperties.ThrowingBindingPreventsDispatch` | Tactics/Packages/generated.ai.planner.plans/Generated.AI.Planner.Plans/CoverTactic/CoverTacticExecutor.cs:77-164 | a single throwing binding is enough to make `Act` fail instead of starting the actuator |
| `CoverTacticProperties.UnknownActionResolvesNoBinding` | Tactics/Packages/generated.ai.planner.plans/Generated.AI.Planner.Plans/CoverTactic/CoverTacticExecutor.cs:87-101 | under an action name that is none of the three, every binding throws |
| `CoverTacticProperties.UnknownGuidDoesNotDispatch` | Tactics/Packages/generated.ai.planner.plans/Generated.AI.Planner.Plans/CoverTactic/CoverTacticExecutor.cs:55-72 | an unknown GUID with no execution info for the empty name does nothing; in any case it never starts an actuator with an argument |
| `CoverTacticProperties.TakeCoverScenario` | Tactics/Packages/generated.ai.planner.plans/Generated.AI.Planner.Plans/CoverTactic/CoverTacticExecutor.cs:52-165 | TakeCover with bindings `Self` and `CoverSpot.Location.Position`, objects 3 and 7: the actuator starts with object 3's live object and the `Position` field of object 7's `Location` trait |

## Left out

- `DefaultCumulativeRewardEstimator` and `TerminationEvaluator` (lines 12-27). They are constant planner stubs over floating-point rewards and belong to the search, not to the executor.
- The exception message texts, including the actor's name. An exception is modelled as a tag that carries the action name and the offending parameter name.
- `TraitObjectName` of the diagnostic record. Its DEBUG and release formatting are string formatting of external names. The record keeps `ParameterName` and `TraitObjectId`, and `TraitBasedObjectId` keeps only its `Id`.
- Populating the id remap. That happens outside the executor; `Act` only reads it.
- The code of the collaborators. They are not part of this model and appear as given functions and tables:
  - the plan-state snapshot: trait lookup and object id;
  - `GetExecutionInfo`, `GetArgumentValues` and `GetParameterType`;
  - the generated action classes: `parameterNames` and `GetIndexForParameterName`;
  - the reflective `GetField` of a trait struct;
  - `PlannerStateConverter.GetDataSource` and `GameObject.GetComponent`.
- Exceptions those collaborators might raise are not modelled. In particular, `GetField` is a total function of the field name.
- The indexer of `ActionKey` is not part of this model. Reading a parameter index the key does not bind is modelled as the error `IndexOutOfRange`.
- What `StartAction` does with its arguments. Its call is recorded in `startedActions`; what the actuator then does is outside the executor.
- The engine's notion of a destroyed object that compares equal to null. A data source that is null or destroyed is modelled as `None` from `GetDataSource`.
- Threading. The executor runs single-threaded and synchronously, so the model has none.
