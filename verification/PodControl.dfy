/** realStatefulPodControl: one session of calls to the API server. The outcome of the n-th call is
    given by an oracle; a retried call counts once, with its final outcome
    (controllers/stateful_pod_control.go:65-187). */
module PodControl {
  import opened Pods

  class StatefulPodControl {
    var store: Store
    var log: seq<Call>
    const oracle: nat -> Outcome

    constructor (store: Store, oracle: nat -> Outcome)
      ensures this.store == store && this.oracle == oracle && log == []
    {
      this.store, this.oracle, this.log := store, oracle, [];
    }

    method Send(action: Action) returns (outcome: Outcome)
      modifies this
      ensures outcome == oracle(|old(log)|)
      ensures log == old(log) + [Call(action, outcome)]
      ensures store == Apply(old(store), Call(action, outcome))
    {
      outcome := oracle(|log|);
      var call := Call(action, outcome);
      store := Apply(store, call);
      log := log + [call];
    }
  }
}
