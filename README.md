# Device write pipeline and webhook dispatch decision

A Dafny model of the core of an IoT device backend. The model covers two parts.

- **The device write pipeline** (`DevicesController`). A Type declares the names a device's free-form `fields` map may use as keys. Creating or updating a device checks every supplied key against the list of the device's Type. If any key is missing from the list, the request fails with "Key not match" and nothing is written. Update merges attribute by attribute. Show, update and delete of an unknown id fail with NotFound.
- **The webhook dispatch decision** (`DeviceWebhookService.hook`, `GatewayWebhookService.hook`). The dispatcher looks up the Hook row of its resource kind. It stops if the row is missing or `isEnable === false`. Otherwise it runs the action handlers chosen by a `switch` with no `break`. Every error is caught and logged.

Files:

- `wrappers.dfy`: `Option`.
- `models.dfy`: the records. A JSON scalar (`Json`), `DeviceType`, `Device` and `Hook`.
- `field_validator.dfy`: the predicate `KeysAllowed` and the two loops of the source that decide it. One is the `for...in` over the supplied keys, with its early return. The other is the `Array.find` over the declared names.
- `webhook.dfy`: the dispatch logic the two services share. It covers the lookup, the exact-`false` test, the fall-through handler sequence and try/catch, written as functions. `RunHook` is a step-by-step method proved against them.
- `device_webhook.dfy`, `gateway_webhook.dfy`: the two services. They are the same control flow keyed `"Device"` and `"Gateway"`.
- `devices_controller.dfy`: the step functions `StoreStep`, `ShowStep`, `UpdateStep` and `DestroyStep`, and the class `DeviceStore`. The class owns the device table and reads the Type and Hook tables. Its methods `Store`, `Show`, `Update` and `Destroy` run each request step by step and are proved against the step functions. Each successful write appends the device webhook's outcome to `dispatches`. The reply of each method is the step function's reply, which does not mention the Hook table, so what the webhook does never changes the reply.

In three places the code does something other than what a cleaner design would suggest. The model follows the code:

- **Dispatch falls through.** The switch has no `break`. `'store'` runs the store, update and delete handlers, `'update'` runs update and delete, and `'delete'` runs delete only. Exclusive branching, one handler per action, is the evident alternative. `Webhook.Exclusive` states it, and `Webhook.FallThroughVersusExclusive` shows the two agree only for delete.
- **The handlers make no outbound call.** Each one returns its `url` and does nothing else. The HTTP client is commented out.
- **The rejection names no key.** A rejection carries only the message "Key not match", not the offending key. So the order in which `for...in` visits keys does not matter to the outcome.

Modelling choices:

- **Unique `serial_number`** (the unique index on `devices.serial_number`). `WellFormed` is the table invariant and every write keeps it. A create or update that would repeat a serial number gets `UniqueViolation`, the database's refusal, and writes nothing, and the webhook does not run.
- **Fresh ids.** The id given to a new device is a parameter of `Store` and must not already be in the table. This stands in for the collision-resistant cuid generator.
- **`isEnable` as a JSON value.** Only the boolean `false` disables a hook. `null`, a number, or any other value proceeds.

## Model

| member | source | states |
|---|---|---|
| FieldValidator.FindName | app/Controllers/Http/DevicesController.ts:23 | `find(element => element === key)` returns the key itself exactly when it is a declared name, and none (undefined) otherwise |
| FieldValidator.CheckKeys | app/Controllers/Http/DevicesController.ts:22-25 | the key loop with early return accepts exactly when every supplied key is a declared name (`KeysAllowed`) |
| FieldValidator.RejectedIffUndeclaredKey | app/Controllers/Http/DevicesController.ts:22-25 | a fields map is rejected if and only if some key of it is undeclared |
| FieldValidator.UndeclaredKeyRejects | app/Controllers/Http/DevicesController.ts:22-25 | one undeclared key causes rejection, however many declared keys the map also holds |
| FieldValidator.DeclaredSubsetAccepted | app/Controllers/Http/DevicesController.ts:22-25 | any map whose keys are among the declared names is accepted; the check is subset membership, not equality |
| FieldValidator.FewerKeysStillAccepted | app/Controllers/Http/DevicesController.ts:22-25 | removing keys from an accepted map keeps it accepted, so omitting declared names is never rejected |
| FieldValidator.DeviceTestMaps | tests/functional/device.spec.ts:65-84 | a map built from the three declared names is accepted; the map holding only `test1` is rejected; one declared name alone is accepted |
| Webhook.Handle | app/Services/Webhook/DeviceWebhook.ts:30-41 | each handler returns its `url` argument unchanged |
| Webhook.RunHook | app/Services/Webhook/DeviceWebhook.ts:11-28 | the step-by-step hook (lookup, early return on `isEnable === false`, switch emulated with a `matched` flag, catch) equals the outcome function `Outcome` for every table and action |
| Webhook.FallThroughByAction | app/Services/Webhook/DeviceWebhook.ts:16-23 | `'store'` runs [store, update, delete], `'update'` runs [update, delete], `'delete'` runs [delete] |
| Webhook.FallThroughOrdered | app/Services/Webhook/DeviceWebhook.ts:16-23 | the sequence starts with the requested action, ends with delete, and runs each handler at most once in case order |
| Webhook.FallThroughVersusExclusive | app/Services/Webhook/DeviceWebhook.ts:16-23 | a switch with `break` would run only the first handler of the fall-through sequence; the two agree only for delete |
| Webhook.OnlyOwnRowConsulted | app/Services/Webhook/DeviceWebhook.ts:13 | two Hook tables that agree on the row of the service's own key give the same outcome |
| Webhook.MissingRowRunsNothing | app/Services/Webhook/DeviceWebhook.ts:12-27 | a missing row makes the try block throw `E_ROW_NOT_FOUND`; the catch logs one warning and no handler runs |
| Webhook.DisabledRunsNothing | app/Services/Webhook/DeviceWebhook.ts:14 | when `isEnable` is exactly `false`, no handler runs and nothing is logged |
| Webhook.OtherValuesProceed | app/Services/Webhook/DeviceWebhook.ts:14-23 | any other `isEnable` value runs the fall-through handlers (at least one) with the row's url and logs nothing |
| Webhook.NeverPropagates | app/Services/Webhook/DeviceWebhook.ts:12-27 | `hook` always completes; it logs a warning exactly when the try block threw, and then runs no handler |
| DeviceWebhook.Hook | app/Services/Webhook/DeviceWebhook.ts:11-28 | on the `'Device'` row only: missing gives no calls and the warning `Webhook Device <action> error E_ROW_NOT_FOUND: Row not found`; disabled gives nothing; otherwise the fall-through calls with the row's url |
| GatewayWebhook.Hook | app/Services/Webhook/GatewayWebhook.ts:11-29 | the same on the `'Gateway'` row, with warning `Webhook Gateway <action> error ...` |
| DevicesController.DeviceStore.Store | app/Controllers/Http/DevicesController.ts:16-35 | the create request step by step: reply and new table are those of `StoreStep`, the table invariant is kept, and the device webhook runs with `'store'` exactly when the reply is Ok |
| DevicesController.DeviceStore.Show | app/Controllers/Http/DevicesController.ts:37-43 | returns the stored device for a known id and NotFound exactly for an unknown one |
| DevicesController.DeviceStore.Update | app/Controllers/Http/DevicesController.ts:45-65 | the update request step by step: reply and new table are those of `UpdateStep`, the invariant is kept, and the webhook runs with `'update'` exactly when the reply is Ok |
| DevicesController.DeviceStore.Destroy | app/Controllers/Http/DevicesController.ts:67-75 | the delete request step by step: reply and new table are those of `DestroyStep`, and the webhook runs with `'delete'` exactly when the delete succeeded |
| DevicesController.StoreKeepsWellFormed | database/migrations/1683965828950_devices.ts:8-9 | a create under a fresh id keeps ids matching their keys and serial numbers unique |
| DevicesController.UpdateKeepsWellFormed | database/migrations/1683965828950_devices.ts:8-9 | an update keeps ids matching their keys and serial numbers unique |
| DevicesController.DestroyKeepsWellFormed | database/migrations/1683965828950_devices.ts:8-9 | a delete keeps ids matching their keys and serial numbers unique |
| DevicesController.StoreKeyNotMatchIff | app/Controllers/Http/DevicesController.ts:20-25 | with an existing Type, create replies "Key not match" if and only if some supplied key is not declared by that Type |
| DevicesController.StoreRejectedUnchanged | app/Controllers/Http/DevicesController.ts:20-31 | every create that does not reply Ok leaves the device table unchanged |
| DevicesController.StoreUnknownTypeNotFound | app/Controllers/Http/DevicesController.ts:20 | a create naming a nonexistent Type replies NotFound and creates nothing |
| DevicesController.StoreAddsExactlyOne | app/Controllers/Http/DevicesController.ts:27-31 | a successful create adds exactly one row under the fresh id. The row is linked to the Type and holds the supplied serial number, fields and notes, and its keys are declared. Every other row is unchanged. |
| DevicesController.MissingIdNotFound | app/Controllers/Http/DevicesController.ts:40-71 | show, update and delete of a missing id reply NotFound and change nothing |
| DevicesController.DestroyRemovesOnlyThat | app/Controllers/Http/DevicesController.ts:70-74 | a successful delete replies with null data, removes that id and keeps every other row as it was |
| DevicesController.StoreDestroyShow | app/Controllers/Http/DevicesController.ts:27-71 | after a successful create, show finds the new device; after deleting it, show replies NotFound |
| DevicesController.MergeOverwritesOrKeeps | app/Controllers/Http/DevicesController.ts:57-61 | each of serial_number, fields and notes is the supplied value when given and the stored one when omitted; id and type never change |
| DevicesController.SuppliedFieldsReplaceWholesale | app/Controllers/Http/DevicesController.ts:59 | a supplied fields map replaces the old one: an old key absent from the new map is gone |
| DevicesController.UpdateIgnoresPayloadType | app/Controllers/Http/DevicesController.ts:49-61 | the update is checked against the device's existing Type; a `type_id` in the payload changes neither outcome nor the device's type |
| DevicesController.UpdateKeyNotMatchIff | app/Controllers/Http/DevicesController.ts:50-55 | update replies "Key not match" if and only if fields are supplied and one of their keys is undeclared; an update without fields is never key-rejected |
| DevicesController.UpdateChangesOnlyThat | app/Controllers/Http/DevicesController.ts:52-61 | a rejected update writes nothing; a successful one replaces only that row, by the merged device it replies with |
| DevicesController.MergeIdempotent | app/Controllers/Http/DevicesController.ts:57-61 | merging one payload twice equals merging it once |
| DevicesController.UpdateIdempotent | app/Controllers/Http/DevicesController.ts:49-61 | applying the same update twice gives the same reply and the same table as applying it once |
| DevicesController.NotesOnlyUpdate | app/Controllers/Http/DevicesController.ts:57-61 | an update of notes alone succeeds on a device of an existing Type and keeps serial_number and fields |
| DevicesController.SensorScenario | app/Controllers/Http/DevicesController.ts:20-31 | for a Type declaring temp and unit, a device with temp and unit is created, and one with temp and bogus is refused with "Key not match" and nothing is written |

## Left out

- Authorization (`bouncer...authorize`): an external policy, taken as already passed.
- Request validators: they are not part of this model. A create payload is taken to carry all four attributes. In an update payload any attribute may be absent, and `undefined` and `null` are treated alike, as the loose `!= undefined` tests do.
- `index` (`GET /devices`): a plain query with no logic of its own.
- The `load('type')` / `preload('type')` of the reply: the model's `Ok` reply carries the device only.
- HTTP status codes and envelopes: each becomes a `Reply` constructor.
- ORM internals and timestamps: `findOrFail`, `related().create` and `merge().save()` become map lookups and updates.
- cuid generation: a foreign library. The fresh id is a parameter.
- A Type whose `fields` column lacks a `fields` array would make the source throw a TypeError. The model takes the declared list as given.
- Field values are JSON scalars, with integer numbers only. Floating point is not modelled.
- GatewaysController, HooksController and Type administration: they are thin ORM CRUD. The Type and Hook tables are constants of `DeviceStore`.
- The Gateway entity: the gateway webhook never reads it.
- Logging: `Logger.warn` is modelled as the warning text in `Completion`. `console.log` of the entity is not modelled.
- The un-awaited, asynchronous dispatch: the model runs it in sequence after the write. Since `hook` never fails, the order does not affect the reply.
