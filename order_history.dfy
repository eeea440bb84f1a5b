/** Polling an order until it reaches a terminal status (src/utils/getOrderHistory.ts).

    Each query of the order-status service is one observation; the model runs
    the loop over a finite sequence of them. The source loops for as long as the
    service keeps answering with non-terminal statuses, so when the sequence runs
    out the model reports that polling is still going on. */
module OrderHistory {
  import opened Common

  /** `FINAL_STATUSES` */
  const FinalStatuses: set<string> := {"SUCCESSFUL", "FAILED", "BUNDLER_DISCARDED"}

  /** The default of `intervalMs`. */
  const DefaultIntervalMs: nat := 5000

  const PollingFailedMessage := "Polling failed"

  /** An order record; only its `status` is read. */
  datatype OrderItem = OrderItem(status: Option<string>)

  /** One query: it failed, or it answered with `data.items` (absent when missing). */
  datatype Observation = QueryFailed | Answered(items: Option<seq<OrderItem>>)

  /** `items?.[0]?.status` */
  function ObservedStatus(o: Observation): (r: Option<string>)
    requires o.Answered?
    ensures r.Some? ==> o.items.Some? && |o.items.value| > 0 && o.items.value[0].status == r
    ensures o.items.Some? && |o.items.value| > 0 ==> r == o.items.value[0].status
  {
    if o.items.Some? && |o.items.value| > 0 then o.items.value[0].status else None
  }

  /** The answer ends the loop: its status is in `FINAL_STATUSES`. */
  predicate IsTerminal(o: Observation) {
    o.Answered? && ObservedStatus(o).Some? && ObservedStatus(o).value in FinalStatuses
  }

  /** The answer makes the loop wait and query again. */
  predicate KeepsPolling(o: Observation) {
    o.Answered? && !IsTerminal(o)
  }

  predicate AllKeepPolling(obs: seq<Observation>) {
    forall j :: 0 <= j < |obs| ==> KeepsPolling(obs[j])
  }

  datatype PollOutcome = Terminal(status: string) | PollingFailed | StillPolling

  /** `outcome` after `queries` queries is what the loop does with `obs`: it stops
      at the first terminal answer or the first failed query, whichever comes
      first, and otherwise is still polling once `obs` is used up. */
  predicate IsPollRun(obs: seq<Observation>, outcome: PollOutcome, queries: nat) {
    match outcome
    case Terminal(s) =>
      0 < queries <= |obs| && IsTerminal(obs[queries - 1]) &&
      ObservedStatus(obs[queries - 1]) == Some(s) && AllKeepPolling(obs[..queries - 1])
    case PollingFailed =>
      0 < queries <= |obs| && obs[queries - 1].QueryFailed? && AllKeepPolling(obs[..queries - 1])
    case StillPolling =>
      queries == |obs| && AllKeepPolling(obs)
  }

  /** `getOrderHistory`: query, return a terminal status, or wait `intervalMs` and
      query again; a failed query ends the loop with "Polling failed".
      `waitedMs` is the total time spent in `delay`. */
  method GetOrderHistory(observations: seq<Observation>, intervalMs: nat)
    returns (outcome: PollOutcome, queries: nat, waitedMs: nat)
    ensures IsPollRun(observations, outcome, queries)
    ensures outcome.Terminal? ==> outcome.status in FinalStatuses
    ensures waitedMs == intervalMs * (if outcome.StillPolling? then queries else queries - 1)
  {
    outcome, queries, waitedMs := StillPolling, 0, 0;
    while queries < |observations|
      invariant queries <= |observations|
      invariant AllKeepPolling(observations[..queries])
      invariant waitedMs == intervalMs * queries
      decreases |observations| - queries
    {
      var o := observations[queries];
      queries := queries + 1;
      if o.QueryFailed? {
        outcome := PollingFailed;
        return;
      }
      var status := ObservedStatus(o);
      if status.Some? && status.value in FinalStatuses {
        outcome := Terminal(status.value);
        return;
      }
      assert observations[..queries] == observations[..queries - 1] + [o];
      waitedMs := waitedMs + intervalMs;
    }
    assert observations[..queries] == observations;
  }

  /** The loop is deterministic: one sequence of observations admits one run. */
  lemma PollRunUnique(obs: seq<Observation>, o1: PollOutcome, q1: nat, o2: PollOutcome, q2: nat)
    requires IsPollRun(obs, o1, q1) && IsPollRun(obs, o2, q2)
    ensures o1 == o2 && q1 == q2
  {
    if q1 < q2 {
      assert false;
    } else if q2 < q1 {
      assert false;
    }
  }

  /** An answer without items, or with an empty list, counts as non-terminal. */
  lemma MissingItemsKeepPolling()
    ensures KeepsPolling(Answered(None)) && KeepsPolling(Answered(Some([])))
  {
  }

  /** PENDING, PENDING, BUNDLER_DISCARDED ends with BUNDLER_DISCARDED after exactly
      three queries. */
  lemma ThreeQueryScenario(outcome: PollOutcome, queries: nat)
    requires IsPollRun(PendingPendingDiscarded(), outcome, queries)
    ensures outcome == Terminal("BUNDLER_DISCARDED") && queries == 3
  {
    var obs := PendingPendingDiscarded();
    assert KeepsPolling(obs[0]) && KeepsPolling(obs[1]);
    assert obs[..2] == [obs[0], obs[1]];
    assert IsPollRun(obs, Terminal("BUNDLER_DISCARDED"), 3);
    PollRunUnique(obs, outcome, queries, Terminal("BUNDLER_DISCARDED"), 3);
  }

  function PendingPendingDiscarded(): seq<Observation> {
    [Answered(Some([OrderItem(Some("PENDING"))])),
     Answered(Some([OrderItem(Some("PENDING"))])),
     Answered(Some([OrderItem(Some("BUNDLER_DISCARDED"))]))]
  }
}
