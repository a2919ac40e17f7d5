# HomeCenter reconciliation core, in Dafny

HomeCenter is an iOS app that keeps a local Core Data cache of a smart-home API's rooms,
devices, parameters, actions (lists of "set parameter to value" commands) and conditions.
Every entity kind repeats the same uuid-keyed reconciliation:

- **find-or-create**: reuse the record with the listed uuid, or create one stamped with it;
- **field writes**: keep an existing uuid, overwrite the scalar fields (absent when a key
  is not a string), and touch `updated_at` only when a date string is present;
- **best-effort links**: a device re-points its room only when "roomID" is present and the
  lookup finds the room; a condition, through `try?` of a lookup that returns an optional,
  re-points a link whenever its id is present and the lookup does not throw, to nil when
  nothing matches;
- **orphan sweep**: after a whole listing, delete every record whose non-nil uuid was not
  collected, and keep records without a uuid;
- **payloads** sent back to the API, and the **remote delete**, which removes the local
  record only after the API reported success.

The model keeps the source's imperative form. Each `NSManagedObject` subclass is a Dafny
class with the same fields. The managed object context is one store class per entity kind
holding a `set` of records. Each `class func` (`findOrCreateX`, `findX`, `updateDatabase`)
is a method of that store with `modifies` clauses. The instance method `delete(in:with:)`
removes the record from the context, so it is a store method too, taking the record as a
parameter. The loops of `updateDatabase`,
`addCommands` and `convertToJson` are `while` loops with invariants.

The `assert(matches.count == 1)` of every fetch by uuid becomes the store invariant
`Valid()`: at most one record per non-nil uuid. Callers must establish it, and every store
operation preserves it.

The environment enters only as parameters:

- `fetchFails` on a store: every Core Data fetch by uuid throws.
- `sweepFails` of `updateDatabase`: the fetch of all records before the deletions throws.
- `saveFails`: the context save throws.
- `remoteError` or `Reply`: the outcome of a request to the API.

What a pass over a listing collects is specified by `Reconcile.CollectedUuids`, and the
fields a record ends up with by `Reconcile.LastListed`. The `updateDatabase` methods are
proved against those two functions.

Modules, one per file: `Json` (the dictionary shapes and the `as?` casts), `Outcomes`
(errors, completions, requests), `Reconcile` (what all kinds share), `Rooms`, `Devices`,
`Parameters`, `ActionCommands`, `Actions`, `Conditions`.

## Model

| member | source | states |
|---|---|---|
| `Reconcile.ElementUuid` | HomeCenter/Room.swift:87-89 | an element yields a uuid exactly when it is a dictionary whose "uuid" is a string, and that string is the uuid |
| `Reconcile.CollectedUuidsMembership` | HomeCenter/Room.swift:86-93 | a uuid is in the collected `uuids` exactly when some listing element carries it and its find-or-create did not throw |
| `Reconcile.CollectedHasLast` | HomeCenter/Room.swift:86-93 | every collected uuid has a last listed element |
| `Reconcile.SurvivesIffListed` | HomeCenter/Room.swift:94-103 | a record survives the sweep exactly when it has no uuid, or some listed element carries its uuid and did not throw |
| `Reconcile.ThrowingOnlyNotCollected` | HomeCenter/Device.swift:83-102 | a uuid whose every listed element throws is not collected, so the record written for it is swept again |
| `Reconcile.KeptUuid` | HomeCenter/Room.swift:166-168 | an existing uuid is never replaced; a missing one is taken from "uuid" when that is a string |
| `Reconcile.Stamped` | HomeCenter/Room.swift:170-173 | `updated_at` takes the "updated_at" string when there is one and is otherwise unchanged |
| `Reconcile.OverwriteRulesIdempotent` | HomeCenter/Room.swift:165-174 | writing the same data twice leaves uuid and timestamp as writing it once |
| `Rooms.Room.UpdateValues` | HomeCenter/Room.swift:165-174 | uuid kept, name always overwritten (absent when "roomName" is not a string), timestamp per `Stamped` |
| `Rooms.Room.ConvertToJson` | HomeCenter/Room.swift:176-182 | the payload has exactly the key "roomName", holding the name or "" |
| `Rooms.PayloadRoundTrip` | HomeCenter/Room.swift:176-182 | reading "roomName" back from the payload gives the name, or "" for none |
| `Rooms.Room.SaveRequest` | HomeCenter/Room.swift:106-119 | `saveToAPI` edits the room exactly when it has a uuid, otherwise creates it, sending the `ConvertToJson` payload |
| `Rooms.RoomStore.FindRoom` | HomeCenter/Room.swift:46-61 | a failing fetch is rethrown; otherwise the unique room with that uuid, or null when none has it; never creates |
| `Rooms.RoomStore.FindOrCreateRoom` | HomeCenter/Room.swift:17-44 | no string uuid: null and no change; failing fetch: error and no change; else exactly one room has the uuid afterwards, the existing one reused or one fresh room added, written per `UpdateValues`, all other rooms unchanged |
| `Rooms.RoomStore.UpdateDatabase` | HomeCenter/Room.swift:85-104 | an old room stays exactly when the sweep fetch fails or `Survives` holds of its uuid and the collected uuids; every collected uuid has a room, which holds the name of the last listed element with that uuid; a room is created only for a collected uuid; no room's uuid changes; rooms without a uuid, and rooms whose uuid no element carries, are untouched; while the element fetches fail nothing is written or collected, so a sweep that runs deletes every room with a uuid |
| `Rooms.RoomStore.SweepUnlisted` | HomeCenter/Room.swift:94-103 | the rooms kept are exactly the old ones without a uuid or with a collected uuid; nothing is deleted when the sweep fetch fails |
| `Rooms.RoomStore.Delete` | HomeCenter/Room.swift:140-161 | no uuid: no change and the handler is never called; a remote error: no change and the handler gets the error; else the room is removed and the handler gets the save's outcome |
| `Devices.DeviceStore.FindOrCreateDevice` | HomeCenter/Device.swift:17-59 | as for rooms, plus type written, the room link set to the room with the "roomID" uuid when the lookup finds it and left as it was otherwise, and a failing room lookup rethrown after the device was written |
| `Devices.DeviceStore.ResolveRoom` | HomeCenter/Device.swift:45-56 | the link changes exactly when "roomID" is a string and the room lookup finds it; a failing lookup is passed on |
| `Devices.DeviceStore.FailingKey` | HomeCenter/Device.swift:45-56 | find-or-create throws on elements carrying "roomID" exactly while room lookups fail |
| `Devices.DeviceStore.UpdateDatabase` | HomeCenter/Device.swift:83-102 | the sweep properties of `Rooms.RoomStore.UpdateDatabase`, with the collected uuids excluding elements that name a room while room lookups fail; a device is created only for a uuid some element carries; while the fetches by uuid work, every device some element lists holds the name and type of the last such element, whether or not its room lookup threw, and links the room that element names when the room lookup finds it |
| `Devices.DeviceStore.Delete` | HomeCenter/Device.swift:104-125 | as `Rooms.RoomStore.Delete` |
| `Parameters.Parameter.UpdateValues` | HomeCenter/Parameter.swift:62-74 | uuid kept; name, type, value and actions always overwritten from their keys; timestamp per `Stamped` |
| `Parameters.Parameter.ConvertToJson` | HomeCenter/Parameter.swift:76-82 | the payload has exactly the key "paramValue", holding the value or "" |
| `Parameters.ValueRoundTrip` | HomeCenter/Parameter.swift:62-82 | after data with "paramValue" = v was written, the payload is exactly {"paramValue": v} |
| `Parameters.Parameter.SaveToApi` | HomeCenter/Parameter.swift:42-60 | no uuid: no request and MissingAPIValues("No UUID or Json Error"); else a PATCH of the payload whose outcome the handler receives |
| `Parameters.ParameterStore.FindParameter` | HomeCenter/ActionCommand.swift:23 | a failing fetch is rethrown; otherwise the unique parameter with that uuid, or null; never creates |
| `Parameters.ParameterStore.FindOrCreateParameter` | HomeCenter/Parameter.swift:16-40 | the find-or-create properties, with the fields written per `UpdateValues` |
| `ActionCommands.ActionCommand.ConvertToDict` | HomeCenter/ActionCommand.swift:38-45 | exactly the keys "paramID" and "paramValue", each the field or "" |
| `ActionCommands.CommandData` | HomeCenter/ActionCommand.swift:16-34 | an element yields a command exactly when it is a dictionary with string "paramID" and "paramValue" whose parameter the lookup finds, and then yields those two strings |
| `ActionCommands.CommandDict` | HomeCenter/ActionCommand.swift:38-45 | the dictionary of a command holds exactly its parameter id and value |
| `ActionCommands.DictRoundTrip` | HomeCenter/ActionCommand.swift:16-45 | the dictionary of a command built from an element reproduces the element's data, and building from it again gives the same command data |
| `ActionCommands.CommandStore.FindOrCreateCommand` | HomeCenter/ActionCommand.swift:16-34 | it throws exactly when both keys are strings and the lookup fails; otherwise it creates a new command (never reuses one) exactly when `CommandData` yields one, with its id, value and parameter link set; otherwise the store is unchanged |
| `Actions.BuiltCommandsMembership` | HomeCenter/Action.swift:210-220 | a command is built exactly when some element yields it, and only for parameters the lookup finds |
| `Actions.NoCommandsWhileLookupsFail` | HomeCenter/Action.swift:199-222 | while parameter fetches fail, an action whose commands were replaced carries none: the old ones were deleted and every new one failed |
| `Actions.CommandDicts` | HomeCenter/Action.swift:229-235 | one dictionary per command, in order, each that command's `ConvertToDict` |
| `Actions.CarriedCommandsSerialise` | HomeCenter/Action.swift:224-242 | the commands an action carries serialise to exactly the {"paramID", "paramValue"} dictionaries of the data they were built from |
| `Actions.Action.ApplyJson` | HomeCenter/Action.swift:180-183 | name overwritten, and "actionCommands" staged when it is an array |
| `Actions.Action.AddCommands` | HomeCenter/Action.swift:199-222 | every old command is deleted from the store, and the action then carries, in order, exactly the fresh commands `BuiltCommands` yields, each linked to its parameter; none at all while parameter fetches fail |
| `Actions.CreateCommands` | HomeCenter/Action.swift:210-220 | the commands created, in order, are exactly those `BuiltCommands` yields, each fresh, linked to its parameter and added to the store |
| `Actions.Action.UpdateValues` | HomeCenter/Action.swift:185-197 | uuid kept, name overwritten, timestamp per `Stamped`; commands replaced per `AddCommands` only when "actionCommands" is an array |
| `Actions.Action.ConvertToJson` | HomeCenter/Action.swift:224-242 | exactly "actionName" (name or "") and "actionCommands": the staged commands when set, else `CommandDicts` of the stored commands |
| `Actions.Action.SaveToApi` | HomeCenter/Action.swift:112-145 | edit exactly when there is a uuid, create otherwise, with a payload holding "actionName" (name or "") and the commands of `ConvertToJson`; the handler is called once, with the calls of `ReplyCompletions`: success exactly when the API answered without error and with data |
| `Actions.ReplyCompletions` | HomeCenter/Action.swift:127-139 | one call, success exactly for a reply without error and with data, the reply's error when there is one |
| `Actions.EditCompletionsAsWritten` | HomeCenter/Action.swift:116-124 | the edit branch always makes a success call, and a second call when the reply carries an error or data; the reply's call comes after the success call for a network reply and before it when the request fails before it is sent |
| `Actions.FailedEditReportedAsSuccess` | HomeCenter/Action.swift:116-124 | a failing edit calls the handler twice, once with success and once with the error (in either order), where the create branch's handling calls it once with the error |
| `Actions.EmptyEditReplyReportedAsSuccess` | HomeCenter/Action.swift:116-124 | an edit reply handler given neither error nor data makes no call, so only the success call remains, where the create branch reports a DownloadError; `HomeFetcher.sendRequest` never produces that reply (it passes exactly one of data or an error), so this is a property of the two closures only |
| `Actions.Action.Fire` | HomeCenter/Action.swift:147-153 | no uuid: no request and MissingAPIValues("No UUID for action"); else a request for that uuid whose outcome the handler receives |
| `Actions.ActionStore.FindAction` | HomeCenter/Action.swift:43-60 | a failing fetch is rethrown; otherwise the unique action with that uuid, or null; never creates |
| `Actions.ActionStore.FindOrCreateAction` | HomeCenter/Action.swift:16-41 | the find-or-create properties, with the name and timestamp written; when "actionCommands" is an array the commands carried are those `BuiltCommands` yields and the store trades the old ones for them; otherwise the store is unchanged and the commands are kept, or none for a new action |
| `Actions.ActionStore.UpdateDatabase` | HomeCenter/Action.swift:91-110 | the sweep properties of `Rooms.RoomStore.UpdateDatabase`, for actions: an action is created only for a collected uuid, and names follow the last listed element |
| `Actions.ActionStore.Delete` | HomeCenter/Action.swift:155-176 | no uuid: MissingAPIValues("No uuid to delete.") and no change; otherwise as `Rooms.RoomStore.Delete` |
| `Conditions.ResolveParameter` | HomeCenter/Condition.swift:96-98 | `try?` of a lookup returning an optional: a value to assign exactly when the id is present and the fetch does not throw, and that value is the parameter with the id, or nil when none has it |
| `Conditions.ResolveAction` | HomeCenter/Condition.swift:107-109 | the same for actions: the action with the id, or nil when none has it, exactly when the id is present and the fetch does not throw |
| `Conditions.Condition.UpdateValues` | HomeCenter/Condition.swift:90-111 | uuid kept; the eight scalar fields overwritten from their keys; each of parameter, compParameter and action assigned whenever its id is present and the lookup does not throw, to the match or to nil when nothing matches; left as it was when the id is absent or the lookup throws |
| `Conditions.ConditionStore.FindOrCreateCondition` | HomeCenter/Condition.swift:18-43 | the find-or-create properties, all eight scalar fields written, and each of the three links set per its lookup as in `UpdateValues`, or else left null for a new condition and kept for an existing one; failing parameter or action lookups do not make it throw |
| `Conditions.ConditionStore.UpdateDatabase` | HomeCenter/Condition.swift:67-86 | the sweep properties of `Rooms.RoomStore.UpdateDatabase`, for conditions: a condition is created only for a collected uuid, and all eight scalar fields follow the last listed element |

## Findings

| source | as written | input that shows it | evidently intended | confidence | as-written member | corrected member |
|---|---|---|---|---|---|---|
| HomeCenter/Action.swift:124 | the edit branch of `saveToAPI` calls the handler with nil right after issuing the request, and the reply handler calls it again | an action with a uuid whose edit the API rejects with error e: the handler gets nil, then e (e, then nil when the request fails before it is sent) | one call with the outcome, as in the create branch and in `Room.saveToAPI` | high (read from the code, not executed) | `Actions.FailedEditReportedAsSuccess` | `Actions.Action.SaveToApi` |

## Left out

- Asynchrony: `context.perform`, completion handlers running later and `DispatchQueue` are left out. Each operation is one sequential step, and a completion handler's calls are a returned value.
- Fetch failures come as two inputs: a store's `fetchFails` for the fetches by uuid, and `sweepFails` for the fetch before the deletions. A fetch by uuid that throws for some elements of a pass and not for others is not modelled. For each such element the effect is that its uuid is not collected, as `Reconcile.ThrowingOnlyNotCollected` states.
- Networking (`HomeFetcher`) is left out. The remote outcome of delete, fire and save is a parameter, and `fetchConditions` and `fetchRooms` are not part of this model.
- The `syncRooms`, `syncDevices`, `syncActions` and `syncConditions` wrappers are left out. They only chain a fetch, `updateDatabase` and a save.
- ISO8601 date parsing: `updated_at` holds the received text. A string the formatter cannot parse sets the Swift field to nil; the model keeps the text.
- `JSONSerialization`: payloads are structured dictionaries, not pretty-printed text. The error the serialiser may throw is not modelled.
- Rooms.Room.SaveRequest: models only the edit-versus-create decision of `Room.saveToAPI`. The reply handling and the `updateValues` after a create are not modelled.
- Actions.Action.SaveToApi: models the edit-versus-create decision and the completion calls. The `updateValues` after a successful create is not modelled.
- `Parameter.findParameter(for:in:)` is called but not defined in the files modelled. It is modelled like `Action.findAction`: the unique match or nil, never a new record.
- Core Data delete rules for relationships are not modelled. Deleting a room does not clear a device's link to it.
- Actions.Action.AddCommands: empties `commands` after deleting the old commands. The source never clears the relationship itself (HomeCenter/Action.swift:202-207): Core Data drops deleted objects from it when it processes pending changes, under the relationship's inverse delete rule. The model assumes that has happened.
- The order of `Action.commands`: the Core Data relationship is unordered, and the model keeps the commands in a `seq` in creation order.
- `managedObjectContext` being nil is not modelled. Every record is assumed to belong to the one context, so `addCommands` and the condition links always run.
- Keychain access, the view controllers and the bulk device import are not part of this model.
- Reconcile.CollectedHasLast: states only that a last listed element exists. Which fields a record then holds is stated by each `UpdateDatabase`: the fields every write overwrites. That is the name for rooms and actions, name, type and a found room link for devices, and the eight scalar fields for conditions. `updated_at` is not stated there, because it depends on every listed element carrying that uuid. Nor are an action's commands.
