/**
 * The dispatch decision shared by DeviceWebhookService.hook and
 * GatewayWebhookService.hook: look up the Hook row of the resource kind,
 * stop if it is missing (the lookup throws, the catch logs a warning) or if
 * `isEnable === false`, and otherwise run the action handlers selected by a
 * `switch` whose cases have no `break`, so that control falls through from
 * the matching label to the end of the switch.
 */
module Webhook {

  import opened Wrappers
  import opened Models

  datatype Action = Store | Update | Delete

  /** The action as the source spells it, `'store' | 'update' | 'delete'`. */
  function ActionName(a: Action): string
  {
    match a
    case Store => "store"
    case Update => "update"
    case Delete => "delete"
  }

  /** One call of a handler method (`this.store(url)` and so on). */
  datatype Invocation = Invocation(handler: Action, url: string)

  /**
   * What one `hook` call does, seen from outside: the handlers it ran, in
   * order, and the warnings it logged. It has no failure case: `hook`
   * always completes normally.
   */
  datatype Completion = Completion(calls: seq<Invocation>, warnings: seq<string>)

  /** The outcome of the `try` block before the `catch` sees it. */
  datatype Attempt = Ran(calls: seq<Invocation>) | Threw(message: string)

  /** The message of the error `findOrFail` throws for a missing row. */
  const RowNotFound := "E_ROW_NOT_FOUND: Row not found"

  /** `Hook.findOrFail(kind)`: the row whose primary key is `kind`, if any. */
  function Lookup(hooks: map<string, Hook>, kind: string): Option<Hook>
  {
    if kind in hooks then Some(hooks[kind]) else None
  }

  /** `isEnable === false`: only the boolean false disables; null, 0 or any other value does not. */
  predicate Disabled(row: Hook)
  {
    row.isEnable == JBool(false)
  }

  /** The case labels of the switch, in source order. */
  const CaseLabels: seq<Action> := [Store, Update, Delete]

  function CaseIndex(a: Action): nat
  {
    match a
    case Store => 0
    case Update => 1
    case Delete => 2
  }

  /**
   * The handlers a switch without `break` runs for `a`: it enters at the
   * label of `a` and runs every case below it.
   */
  function FallThrough(a: Action): seq<Action>
  {
    CaseLabels[CaseIndex(a)..]
  }

  /** A switch with `break` after every case: only the matching handler. */
  function Exclusive(a: Action): seq<Action>
  {
    [a]
  }

  /** Each handler of `hs` called with `url`, in order. */
  function Invocations(hs: seq<Action>, url: string): (r: seq<Invocation>)
    ensures |r| == |hs|
    ensures forall i :: 0 <= i < |hs| ==> r[i] == Invocation(hs[i], url)
  {
    if hs == [] then [] else [Invocation(hs[0], url)] + Invocations(hs[1..], url)
  }

  /** The `try` block of `hook`, given what the lookup found. */
  function TryBlock(row: Option<Hook>, action: Action): Attempt
  {
    match row
    case None => Threw(RowNotFound)
    case Some(h) => if Disabled(h) then Ran([]) else Ran(Invocations(FallThrough(action), h.url))
  }

  /** `Webhook ${kind} ${action} error ${error.message}`, the text the catch logs. */
  function WarningText(kind: string, action: Action, message: string): string
  {
    "Webhook " + kind + " " + ActionName(action) + " error " + message
  }

  /** The whole of `hook`: the try block, and the catch that turns a throw into a warning. */
  function Outcome(row: Option<Hook>, kind: string, action: Action): Completion
  {
    match TryBlock(row, action)
    case Ran(calls) => Completion(calls, [])
    case Threw(message) => Completion([], [WarningText(kind, action, message)])
  }

  /** The `store`, `update` and `delete` handlers: each returns its `url` and does nothing else. */
  method Handle(handler: Action, url: string) returns (r: string)
    ensures r == url
  {
    r := url;
  }

  /**
   * `hook(action)` step by step: the lookup (its failure goes to the catch),
   * the early return on `isEnable === false`, then the switch. Falling
   * through is written out with `matched`: once a label has matched, every
   * later case runs as well.
   */
  method RunHook(hooks: map<string, Hook>, kind: string, action: Action) returns (c: Completion)
    ensures c == Outcome(Lookup(hooks, kind), kind, action)
  {
    if kind !in hooks {
      return Completion([], [WarningText(kind, action, RowNotFound)]);
    }
    var row := hooks[kind];
    if row.isEnable == JBool(false) {
      return Completion([], []);
    }
    var calls: seq<Invocation> := [];
    var matched := false;
    if action == Store {
      matched := true;
    }
    if matched {
      var _ := Handle(Store, row.url);
      calls := calls + [Invocation(Store, row.url)];
    }
    if action == Update {
      matched := true;
    }
    if matched {
      var _ := Handle(Update, row.url);
      calls := calls + [Invocation(Update, row.url)];
    }
    if action == Delete {
      matched := true;
    }
    if matched {
      var _ := Handle(Delete, row.url);
      calls := calls + [Invocation(Delete, row.url)];
    }
    c := Completion(calls, []);
  }

  /** The handler sequence of each action, as written: store runs all three, update the last two, delete one. */
  lemma FallThroughByAction()
    ensures FallThrough(Store) == [Store, Update, Delete]
    ensures FallThrough(Update) == [Update, Delete]
    ensures FallThrough(Delete) == [Delete]
  {
  }

  /**
   * The sequence starts with the requested action's handler, ends with
   * delete, and runs each handler at most once, in case order.
   */
  lemma FallThroughOrdered(a: Action)
    ensures |FallThrough(a)| > 0 && FallThrough(a)[0] == a
    ensures FallThrough(a)[|FallThrough(a)| - 1] == Delete
    ensures forall i, j :: 0 <= i < j < |FallThrough(a)| ==> CaseIndex(FallThrough(a)[i]) < CaseIndex(FallThrough(a)[j])
  {
  }

  /**
   * Against a switch with `break`: the exclusive handler is always the first
   * one run, and the two agree only for delete.
   */
  lemma FallThroughVersusExclusive(a: Action)
    ensures Exclusive(a) == FallThrough(a)[..1]
    ensures FallThrough(a) == Exclusive(a) <==> a == Delete
  {
  }

  /** Only the row keyed `kind` is consulted: tables that agree on it give the same outcome. */
  lemma OnlyOwnRowConsulted(h1: map<string, Hook>, h2: map<string, Hook>, kind: string, action: Action)
    requires kind in h1 <==> kind in h2
    requires kind in h1 ==> h1[kind] == h2[kind]
    ensures Outcome(Lookup(h1, kind), kind, action) == Outcome(Lookup(h2, kind), kind, action)
  {
  }

  /** A missing row: the throw is caught, no handler runs, one warning is logged. */
  lemma MissingRowRunsNothing(hooks: map<string, Hook>, kind: string, action: Action)
    requires kind !in hooks
    ensures TryBlock(Lookup(hooks, kind), action).Threw?
    ensures Outcome(Lookup(hooks, kind), kind, action) == Completion([], [WarningText(kind, action, RowNotFound)])
  {
  }

  /** A row whose isEnable is exactly false: no handler runs and nothing is logged. */
  lemma DisabledRunsNothing(hooks: map<string, Hook>, kind: string, action: Action)
    requires kind in hooks && hooks[kind].isEnable == JBool(false)
    ensures Outcome(Lookup(hooks, kind), kind, action) == Completion([], [])
  {
  }

  /**
   * Any other isEnable value (true, null, a number, ...) proceeds: the
   * fall-through handlers run with the row's url and nothing is logged.
   */
  lemma OtherValuesProceed(hooks: map<string, Hook>, kind: string, action: Action)
    requires kind in hooks && hooks[kind].isEnable != JBool(false)
    ensures Outcome(Lookup(hooks, kind), kind, action).calls == Invocations(FallThrough(action), hooks[kind].url)
    ensures Outcome(Lookup(hooks, kind), kind, action).warnings == []
    ensures |Outcome(Lookup(hooks, kind), kind, action).calls| > 0
  {
  }

  /**
   * The catch absorbs every error: whatever the try block does, `hook`
   * completes, and it logs a warning exactly when the try block threw.
   */
  lemma NeverPropagates(row: Option<Hook>, kind: string, action: Action)
    ensures TryBlock(row, action).Threw? <==> Outcome(row, kind, action).warnings != []
    ensures TryBlock(row, action).Ran? ==> Outcome(row, kind, action).calls == TryBlock(row, action).calls
    ensures TryBlock(row, action).Threw? ==> Outcome(row, kind, action).calls == []
  {
  }
}
