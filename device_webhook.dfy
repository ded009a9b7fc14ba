/** DeviceWebhookService: the dispatch decision for the resource kind "Device". */
module DeviceWebhook {

  import opened Models
  import opened Webhook

  /** The primary key of the Hook row this service reads. */
  const Kind := "Device"

  /**
   * `new DeviceWebhookService(device).hook(action)`. The device is only
   * printed by the catch, so it plays no part in the outcome.
   */
  method Hook(hooks: map<string, Models.Hook>, action: Action) returns (c: Completion)
    ensures c == Outcome(Lookup(hooks, Kind), Kind, action)
    ensures Kind !in hooks ==> c == Completion([], ["Webhook Device " + ActionName(action) + " error " + RowNotFound])
    ensures Kind in hooks && Disabled(hooks[Kind]) ==> c == Completion([], [])
    ensures Kind in hooks && !Disabled(hooks[Kind]) ==>
              c == Completion(Invocations(FallThrough(action), hooks[Kind].url), [])
  {
    c := RunHook(hooks, Kind, action);
    assert "Webhook " + Kind + " " == "Webhook Device ";
  }
}
