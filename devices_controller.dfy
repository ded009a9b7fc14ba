/**
 * DevicesController: the device write pipeline. A write looks up the Type,
 * checks every supplied field key against the Type's declared names, writes
 * the row, and then hands the action to the device webhook service, whose
 * outcome never reaches the reply.
 *
 * The step functions below say what each request does to the device table
 * and what it replies; the class DeviceStore runs the same requests step by
 * step on its state and is proved against them.
 */
module DevicesController {

  import opened Wrappers
  import opened Models
  import opened FieldValidator
  import Webhook
  import DeviceWebhook

  /** The validated body of `POST /devices`. */
  datatype CreatePayload = CreatePayload(serialNumber: string, typeId: TypeId, fields: Fields, notes: string)

  /**
   * The validated body of `PUT /devices/:id`: every attribute may be left
   * out (None stands for undefined or null). `typeId` is carried only to show
   * that the update ignores it.
   */
  datatype UpdatePayload = UpdatePayload(
    serialNumber: Option<string>,
    typeId: Option<TypeId>,
    fields: Option<Fields>,
    notes: Option<string>)

  /**
   * The replies: `Ok` is 200 with the device, `OkNull` is 200 with
   * `data: null`, `KeyNotMatch` is 400 "Key not match", `NotFound` is the
   * 404 of `findOrFail`, `UniqueViolation` is the database refusing a second
   * row with the same serial_number.
   */
  datatype Reply = Ok(device: Device) | OkNull | KeyNotMatch | NotFound | UniqueViolation

  type Devices = map<DeviceId, Device>

  /**
   * The table invariant: each row sits under its own id, and serial_number
   * is unique across rows (the unique index of the devices migration).
   */
  predicate WellFormed(devices: Devices)
  {
    && (forall k :: k in devices ==> devices[k].id == k)
    && (forall a, b :: a in devices && b in devices && devices[a].serialNumber == devices[b].serialNumber ==> a == b)
  }

  /** Some row other than `self` already holds `serial`. */
  predicate SerialInUse(devices: Devices, serial: string, self: DeviceId)
  {
    exists k :: k in devices && k != self && devices[k].serialNumber == serial
  }

  /** `device.merge({...})`: a supplied attribute overwrites, an omitted one keeps the stored value. */
  function Merge(d: Device, p: UpdatePayload): Device
  {
    d.(serialNumber := if p.serialNumber.Some? then p.serialNumber.value else d.serialNumber,
       fields := if p.fields.Some? then p.fields.value else d.fields,
       notes := if p.notes.Some? then p.notes.value else d.notes)
  }

  /** `store`: Type lookup, key check, then the insert under the fresh id. */
  function StoreStep(types: map<TypeId, DeviceType>, devices: Devices, p: CreatePayload, id: DeviceId): (Reply, Devices)
  {
    if p.typeId !in types then (NotFound, devices)
    else if !KeysAllowed(p.fields, types[p.typeId].fields) then (KeyNotMatch, devices)
    else if SerialInUse(devices, p.serialNumber, id) then (UniqueViolation, devices)
    else
      var d := Device(id, p.serialNumber, p.typeId, p.fields, p.notes);
      (Ok(d), devices[id := d])
  }

  /** `show`: the device, or NotFound. */
  function ShowStep(devices: Devices, id: DeviceId): Reply
  {
    if id in devices then Ok(devices[id]) else NotFound
  }

  /**
   * `update`: device lookup, lookup of the device's own Type, key check of
   * the supplied fields (none supplied, nothing to check), then the merge.
   */
  function UpdateStep(types: map<TypeId, DeviceType>, devices: Devices, id: DeviceId, p: UpdatePayload): (Reply, Devices)
  {
    if id !in devices then (NotFound, devices)
    else
      var d := devices[id];
      if d.typeId !in types then (NotFound, devices)
      else if p.fields.Some? && !KeysAllowed(p.fields.value, types[d.typeId].fields) then (KeyNotMatch, devices)
      else
        var d' := Merge(d, p);
        if SerialInUse(devices, d'.serialNumber, id) then (UniqueViolation, devices)
        else (Ok(d'), devices[id := d'])
  }

  /** `destroy`: hard delete, or NotFound. */
  function DestroyStep(devices: Devices, id: DeviceId): (Reply, Devices)
  {
    if id in devices then (OkNull, devices - {id}) else (NotFound, devices)
  }

  /** What `new DeviceWebhookService(device).hook(action)` does with the Hook table `hooks`. */
  function DeviceDispatch(hooks: map<string, Hook>, action: Webhook.Action): Webhook.Completion
  {
    Webhook.Outcome(Webhook.Lookup(hooks, DeviceWebhook.Kind), DeviceWebhook.Kind, action)
  }

  /**
   * The device table with the Type and Hook tables it reads, and the record
   * of every webhook dispatch a request has started.
   */
  class DeviceStore {
    const types: map<TypeId, DeviceType>
    const hooks: map<string, Hook>
    var devices: Devices
    var dispatches: seq<Webhook.Completion>

    ghost predicate Valid()
      reads this
    {
      WellFormed(devices)
    }

    constructor (types: map<TypeId, DeviceType>, hooks: map<string, Hook>, devices: Devices)
      requires WellFormed(devices)
      ensures Valid()
      ensures this.types == types && this.hooks == hooks && this.devices == devices && dispatches == []
    {
      this.types := types;
      this.hooks := hooks;
      this.devices := devices;
      dispatches := [];
    }

    /**
     * `POST /devices`. `id` is the fresh cuid the model's beforeCreate hook
     * assigns. On success the device webhook runs with 'store'; a rejected
     * request returns before it.
     */
    method Store(p: CreatePayload, id: DeviceId) returns (reply: Reply)
      requires Valid()
      requires id !in devices
      modifies this
      ensures Valid()
      ensures (reply, devices) == StoreStep(types, old(devices), p, id)
      ensures dispatches == old(dispatches) + (if reply.Ok? then [DeviceDispatch(hooks, Webhook.Store)] else [])
    {
      if p.typeId !in types {
        return NotFound;
      }
      var schema := types[p.typeId].fields;
      var ok := CheckKeys(p.fields, schema);
      if !ok {
        return KeyNotMatch;
      }
      if SerialInUse(devices, p.serialNumber, id) {
        return UniqueViolation;
      }
      var device := Device(id, p.serialNumber, p.typeId, p.fields, p.notes);
      StoreKeepsWellFormed(types, devices, p, id);
      devices := devices[id := device];
      var c := DeviceWebhook.Hook(hooks, Webhook.Store);
      dispatches := dispatches + [c];
      reply := Ok(device);
    }

    /** `GET /devices/:id`. */
    method Show(id: DeviceId) returns (reply: Reply)
      ensures reply == ShowStep(devices, id)
      ensures reply.Ok? ==> id in devices && reply.device == devices[id]
      ensures reply.NotFound? <==> id !in devices
    {
      if id !in devices {
        return NotFound;
      }
      reply := Ok(devices[id]);
    }

    /** `PUT /devices/:id`. On success the device webhook runs with 'update'. */
    method Update(id: DeviceId, p: UpdatePayload) returns (reply: Reply)
      requires Valid()
      modifies this
      ensures Valid()
      ensures (reply, devices) == UpdateStep(types, old(devices), id, p)
      ensures dispatches == old(dispatches) + (if reply.Ok? then [DeviceDispatch(hooks, Webhook.Update)] else [])
    {
      if id !in devices {
        return NotFound;
      }
      var device := devices[id];
      if device.typeId !in types {
        return NotFound;
      }
      if p.fields.Some? {
        var ok := CheckKeys(p.fields.value, types[device.typeId].fields);
        if !ok {
          return KeyNotMatch;
        }
      }
      var merged := Merge(device, p);
      if SerialInUse(devices, merged.serialNumber, id) {
        return UniqueViolation;
      }
      UpdateKeepsWellFormed(types, devices, id, p);
      devices := devices[id := merged];
      var c := DeviceWebhook.Hook(hooks, Webhook.Update);
      dispatches := dispatches + [c];
      reply := Ok(merged);
    }

    /** `DELETE /devices/:id`. On success the device webhook runs with 'delete'. */
    method Destroy(id: DeviceId) returns (reply: Reply)
      requires Valid()
      modifies this
      ensures Valid()
      ensures (reply, devices) == DestroyStep(old(devices), id)
      ensures dispatches == old(dispatches) + (if reply.OkNull? then [DeviceDispatch(hooks, Webhook.Delete)] else [])
    {
      if id !in devices {
        return NotFound;
      }
      devices := devices - {id};
      var c := DeviceWebhook.Hook(hooks, Webhook.Delete);
      dispatches := dispatches + [c];
      reply := OkNull;
    }
  }

  // ---------------------------------------------------------------------
  // The table invariant is kept by every write.

  lemma StoreKeepsWellFormed(types: map<TypeId, DeviceType>, devices: Devices, p: CreatePayload, id: DeviceId)
    requires WellFormed(devices) && id !in devices
    ensures WellFormed(StoreStep(types, devices, p, id).1)
  {
  }

  lemma UpdateKeepsWellFormed(types: map<TypeId, DeviceType>, devices: Devices, id: DeviceId, p: UpdatePayload)
    requires WellFormed(devices)
    ensures WellFormed(UpdateStep(types, devices, id, p).1)
  {
  }

  lemma DestroyKeepsWellFormed(devices: Devices, id: DeviceId)
    requires WellFormed(devices)
    ensures WellFormed(DestroyStep(devices, id).1)
  {
  }

  // ---------------------------------------------------------------------
  // Create.

  /**
   * With an existing Type, create answers "Key not match" exactly when some
   * supplied key is not among the Type's declared names.
   */
  lemma StoreKeyNotMatchIff(types: map<TypeId, DeviceType>, devices: Devices, p: CreatePayload, id: DeviceId)
    requires p.typeId in types
    ensures StoreStep(types, devices, p, id).0 == KeyNotMatch <==>
              exists k :: k in p.fields && k !in types[p.typeId].fields
  {
  }

  /** A rejected create (any reply but Ok) writes nothing. */
  lemma StoreRejectedUnchanged(types: map<TypeId, DeviceType>, devices: Devices, p: CreatePayload, id: DeviceId)
    ensures !StoreStep(types, devices, p, id).0.Ok? ==> StoreStep(types, devices, p, id).1 == devices
  {
  }

  /** A create naming a Type that does not exist fails NotFound and creates no device. */
  lemma StoreUnknownTypeNotFound(types: map<TypeId, DeviceType>, devices: Devices, p: CreatePayload, id: DeviceId)
    requires p.typeId !in types
    ensures StoreStep(types, devices, p, id) == (NotFound, devices)
  {
  }

  /**
   * A successful create adds exactly one row, under the fresh id, linked to
   * the Type and holding the supplied serial number, fields and notes, whose
   * keys the Type declares; every other row is untouched.
   */
  lemma StoreAddsExactlyOne(types: map<TypeId, DeviceType>, devices: Devices, p: CreatePayload, id: DeviceId)
    requires id !in devices
    requires StoreStep(types, devices, p, id).0.Ok?
    ensures var (reply, after) := StoreStep(types, devices, p, id);
            && after.Keys == devices.Keys + {id}
            && |after| == |devices| + 1
            && reply.device == after[id]
            && after[id] == Device(id, p.serialNumber, p.typeId, p.fields, p.notes)
            && p.typeId in types && KeysAllowed(after[id].fields, types[p.typeId].fields)
            && (forall k :: k in devices ==> after[k] == devices[k])
  {
  }

  // ---------------------------------------------------------------------
  // Show and destroy.

  /** Show, update and delete of a missing id fail NotFound and change nothing. */
  lemma MissingIdNotFound(types: map<TypeId, DeviceType>, devices: Devices, id: DeviceId, p: UpdatePayload)
    requires id !in devices
    ensures ShowStep(devices, id) == NotFound
    ensures UpdateStep(types, devices, id, p) == (NotFound, devices)
    ensures DestroyStep(devices, id) == (NotFound, devices)
  {
  }

  /** A successful delete removes that device and keeps every other one as it was. */
  lemma DestroyRemovesOnlyThat(devices: Devices, id: DeviceId)
    requires id in devices
    ensures var (reply, after) := DestroyStep(devices, id);
            && reply == OkNull
            && after.Keys == devices.Keys - {id}
            && (forall k :: k in after ==> after[k] == devices[k])
  {
  }

  /** Create, delete, then show the same id: NotFound. */
  lemma StoreDestroyShow(types: map<TypeId, DeviceType>, devices: Devices, p: CreatePayload, id: DeviceId)
    requires id !in devices
    requires StoreStep(types, devices, p, id).0.Ok?
    ensures var created := StoreStep(types, devices, p, id).1;
            && ShowStep(created, id) == Ok(Device(id, p.serialNumber, p.typeId, p.fields, p.notes))
            && DestroyStep(created, id).0 == OkNull
            && ShowStep(DestroyStep(created, id).1, id) == NotFound
  {
  }

  // ---------------------------------------------------------------------
  // Update.

  /** Each top-level attribute is overwritten when supplied and kept when omitted; id and type never change. */
  lemma MergeOverwritesOrKeeps(d: Device, p: UpdatePayload)
    ensures Merge(d, p).serialNumber == (if p.serialNumber.Some? then p.serialNumber.value else d.serialNumber)
    ensures Merge(d, p).fields == (if p.fields.Some? then p.fields.value else d.fields)
    ensures Merge(d, p).notes == (if p.notes.Some? then p.notes.value else d.notes)
    ensures Merge(d, p).id == d.id && Merge(d, p).typeId == d.typeId
  {
  }

  /**
   * A supplied fields map replaces the old one wholesale: no old key
   * survives unless the new map has it too.
   */
  lemma SuppliedFieldsReplaceWholesale(d: Device, p: UpdatePayload, key: string)
    requires p.fields.Some?
    requires key in d.fields && key !in p.fields.value
    ensures key !in Merge(d, p).fields
  {
  }

  /**
   * The update validates against the schema of the device's existing Type:
   * a type_id in the payload changes neither the outcome nor the device's type.
   */
  lemma UpdateIgnoresPayloadType(types: map<TypeId, DeviceType>, devices: Devices, id: DeviceId, p: UpdatePayload, t: Option<TypeId>)
    ensures UpdateStep(types, devices, id, p) == UpdateStep(types, devices, id, p.(typeId := t))
    ensures UpdateStep(types, devices, id, p).0.Ok? ==>
              id in devices && UpdateStep(types, devices, id, p).0.device.typeId == devices[id].typeId
  {
  }

  /**
   * Update answers "Key not match" exactly when fields are supplied and one
   * of their keys is not declared by the device's own Type; an update
   * without fields is never key-rejected.
   */
  lemma UpdateKeyNotMatchIff(types: map<TypeId, DeviceType>, devices: Devices, id: DeviceId, p: UpdatePayload)
    requires id in devices && devices[id].typeId in types
    ensures UpdateStep(types, devices, id, p).0 == KeyNotMatch <==>
              p.fields.Some? && exists k :: k in p.fields.value && k !in types[devices[id].typeId].fields
    ensures p.fields.None? ==> UpdateStep(types, devices, id, p).0 != KeyNotMatch
  {
  }

  /** A rejected update writes nothing; a successful one changes only the updated row. */
  lemma UpdateChangesOnlyThat(types: map<TypeId, DeviceType>, devices: Devices, id: DeviceId, p: UpdatePayload)
    ensures var (reply, after) := UpdateStep(types, devices, id, p);
            && (!reply.Ok? ==> after == devices)
            && (reply.Ok? ==> id in devices && after == devices[id := Merge(devices[id], p)] && reply.device == after[id])
  {
  }

  /** Merging the same payload twice is merging it once. */
  lemma MergeIdempotent(d: Device, p: UpdatePayload)
    ensures Merge(Merge(d, p), p) == Merge(d, p)
  {
  }

  /**
   * Applying the same update twice gives the same reply and the same table
   * as applying it once.
   */
  lemma UpdateIdempotent(types: map<TypeId, DeviceType>, devices: Devices, id: DeviceId, p: UpdatePayload)
    ensures var once := UpdateStep(types, devices, id, p);
            UpdateStep(types, once.1, id, p) == once
  {
    var once := UpdateStep(types, devices, id, p);
    if once.0.Ok? {
      var d' := Merge(devices[id], p);
      var after := once.1;
      MergeIdempotent(devices[id], p);
      assert !SerialInUse(after, d'.serialNumber, id);
      assert after[id := d'] == after;
    }
  }

  /**
   * An update with `{notes: x}` only keeps serial_number and fields and
   * sets notes, when it succeeds.
   */
  lemma NotesOnlyUpdate(types: map<TypeId, DeviceType>, devices: Devices, id: DeviceId, x: string)
    requires id in devices && devices[id].typeId in types
    requires WellFormed(devices)
    ensures var (reply, after) := UpdateStep(types, devices, id, UpdatePayload(None, None, None, Some(x)));
            && reply.Ok?
            && after[id] == devices[id].(notes := x)
  {
  }

  // ---------------------------------------------------------------------
  // The scenario of the device tests.

  /**
   * A Type "sensor" declaring temp and unit: a device with temp and unit is
   * created; one with temp and bogus is refused with "Key not match".
   */
  lemma SensorScenario(id: DeviceId)
    ensures var types := map["t" := DeviceType("t", "sensor", ["temp", "unit"], "")];
            var good := CreatePayload("s1", "t", map["temp" := JString("20"), "unit" := JString("C")], "");
            var bad := CreatePayload("s2", "t", map["temp" := JString("20"), "bogus" := JString("x")], "");
            && StoreStep(types, map[], good, id).0.Ok?
            && StoreStep(types, map[], bad, id) == (KeyNotMatch, map[])
  {
    var bad: Fields := map["temp" := JString("20"), "bogus" := JString("x")];
    assert "bogus" in bad && "bogus" !in ["temp", "unit"];
  }
}
