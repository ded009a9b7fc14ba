/** GatewayWebhookService: the dispatch decision for the resource kind "Gateway". */
module GatewayWebhook {

  import opened Models
  import opened Webhook

  /** The primary key of the Hook row this service reads. */
  const Kind := "Gateway"

  /**
   * `new GatewayWebhookService(gateway).hook(action)`: the same control flow
   * as the device service, on the row keyed "Gateway".
   */
  method Hook(hooks: map<string, Models.Hook>, action: Action) returns (c: Completion)
    ensures c == Outcome(Lookup(hooks, Kind), Kind, action)
    ensures Kind !in hooks ==> c == Completion([], ["Webhook Gateway " + ActionName(action) + " error " + RowNotFound])
    ensures Kind in hooks && Disabled(hooks[Kind]) ==> c == Completion([], [])
    ensures Kind in hooks && !Disabled(hooks[Kind]) ==>
              c == Completion(Invocations(FallThrough(action), hooks[Kind].url), [])
  {
    c := RunHook(hooks, Kind, action);
    assert "Webhook " + Kind + " " == "Webhook Gateway ";
  }
}
