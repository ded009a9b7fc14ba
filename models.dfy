/**
 * The records of the device backend (app/Models): a Type declares the field
 * names its devices may carry, a Device carries a free-form fields map, and a
 * Hook row configures the webhook of one resource kind.
 */
module Models {

  /** A JSON scalar as the database hands it back for a json or boolean column. */
  datatype Json = JNull | JBool(b: bool) | JNumber(n: int) | JString(s: string)

  type TypeId = string
  type DeviceId = string

  /** A device's free-form fields: JSON object key -> scalar value. */
  type Fields = map<string, Json>

  /**
   * A row of `types`. `fields` is the list stored under `fields.fields`:
   * the names a device of this type may use as keys.
   */
  datatype DeviceType = DeviceType(id: TypeId, name: string, fields: seq<string>, notes: string)

  /** A row of `devices`; `typeId` references the owning Type. */
  datatype Device = Device(id: DeviceId, serialNumber: string, typeId: TypeId, fields: Fields, notes: string)

  /**
   * A row of `hooks`, keyed by its `module` column (the resource kind, `moduleName` here). `isEnable` is
   * whatever value the column yields, since the dispatcher tests it with a
   * strict comparison against `false`.
   */
  datatype Hook = Hook(moduleName: string, url: string, isEnable: Json)
}
