/** checkBundleStatus (basic_bundle.go, and the identical copy in
    examples/basic_txn/main.go): poll the status of one bundle every five
    seconds, at most sixty times, until it is finalized or shows a status the
    poller does not know. */
module BundlePoller {
  import opened Wrappers
  import Json
  import opened Rpc
  import opened Bundles
  import opened Polling

  const MaxAttempts := 60
  const PollIntervalSeconds := 5

  /** The terminal reports of the poller. */
  datatype Outcome =
    | Landed(slot: int, transactions: seq<string>)   // finalized without error: the ids are listed
    | ExecutionFailed(slot: int, err: Json.Value)    // finalized with an error: the error is shown
    | UnexpectedStatus(status: string)               // any other status: check by hand

  /** What GetBundleStatuses returned at one attempt. */
  type Observation = Result<BundleStatusResponse>

  /** The classification of one attempt. Errors and empty answers are not
      terminal; only the first status record is looked at; "processed" and
      "confirmed" keep polling; "finalized" stops, successfully exactly when
      err.Ok is nil; every other status stops with a warning. */
  function Classify(o: Observation): (v: Verdict<Outcome>)
    ensures o.Err? || o.value.value == [] ==> v == Continue
    ensures o.Ok? && o.value.value != [] ==>
      var s := o.value.value[0];
      && (s.confirmationStatus == "processed" || s.confirmationStatus == "confirmed" ==> v == Continue)
      && (s.confirmationStatus == "finalized" && s.errOk.None? ==> v == Stop(Landed(s.slot, s.transactions)))
      && (s.confirmationStatus == "finalized" && s.errOk.Some? ==> v == Stop(ExecutionFailed(s.slot, s.errOk.value)))
      && (s.confirmationStatus !in {"processed", "confirmed", "finalized"} ==>
            v == Stop(UnexpectedStatus(s.confirmationStatus)))
  {
    if o.Err? || o.value.value == [] then Continue
    else
      var s := o.value.value[0];
      if s.confirmationStatus == "processed" || s.confirmationStatus == "confirmed" then Continue
      else if s.confirmationStatus == "finalized" then
        if s.errOk.None? then Stop(Landed(s.slot, s.transactions))
        else Stop(ExecutionFailed(s.slot, s.errOk.value))
      else Stop(UnexpectedStatus(s.confirmationStatus))
  }

  /** The classification depends on the first status record alone. */
  lemma ClassifyReadsFirstOnly(r1: BundleStatusResponse, r2: BundleStatusResponse)
    requires r1.value != [] && r2.value != [] && r1.value[0] == r2.value[0]
    ensures Classify(Ok(r1)) == Classify(Ok(r2))
  {
  }

  /** checkBundleStatus: each attempt sleeps, then queries; a failed query
      or an empty status list uses the attempt up and polling goes on. The
      result is the poll of the observations as Classify reads them; no
      outcome stands for "Final status unknown", reported only after all
      sixty attempts continued. */
  method CheckBundleStatus(c: Client, bundleId: string, obs: seq<Observation>)
    returns (outcome: Option<Outcome>, attempts: nat, trace: seq<Event<Call>>)
    requires |obs| >= MaxAttempts
    ensures Run(outcome, attempts) == Poll(obs, Classify, MaxAttempts)
    ensures 1 <= attempts <= MaxAttempts
    ensures outcome.None? <==> attempts == MaxAttempts && forall j :: 0 <= j < MaxAttempts ==> Classify(obs[j]).Continue?
    ensures outcome.Some? ==> Classify(obs[attempts - 1]) == Stop(outcome.value)
    ensures trace == PollTrace(PollIntervalSeconds, BundleStatusesCall(c, [bundleId]), attempts)
  {
    var request := BundleStatusesCall(c, [bundleId]);
    attempts, trace := 0, [];
    for attempt := 1 to MaxAttempts + 1
      invariant attempts == attempt - 1
      invariant trace == PollTrace(PollIntervalSeconds, request, attempts)
      invariant Poll(obs, Classify, MaxAttempts) == PollFrom(obs, Classify, attempts, MaxAttempts)
    {
      trace := trace + [Sleep(PollIntervalSeconds)];
      trace := trace + [Query(request)];
      attempts := attempt;

      var statusResponse := obs[attempt - 1];
      if statusResponse.Err? {
        continue;
      }
      if |statusResponse.value.value| == 0 {
        continue;
      }

      var bundleStatus := statusResponse.value.value[0];
      if bundleStatus.confirmationStatus == "processed" {
      } else if bundleStatus.confirmationStatus == "confirmed" {
      } else if bundleStatus.confirmationStatus == "finalized" {
        if bundleStatus.errOk.None? {
          outcome := Some(Landed(bundleStatus.slot, bundleStatus.transactions));
        } else {
          outcome := Some(ExecutionFailed(bundleStatus.slot, bundleStatus.errOk.value));
        }
        PollMeaning(obs, Classify, MaxAttempts);
        return;
      } else {
        outcome := Some(UnexpectedStatus(bundleStatus.confirmationStatus));
        PollMeaning(obs, Classify, MaxAttempts);
        return;
      }
    }
    outcome := None;
    PollMeaning(obs, Classify, MaxAttempts);
  }

  function Status(id: string, txs: seq<string>, slot: int, status: string, err: Option<Json.Value>): Observation {
    Ok(BundleStatusResponse(slot, [BundleStatus(id, txs, slot, status, err)]))
  }

  /** A bundle that is not yet visible, then processed, confirmed and
      finalized without error: success with its transaction ids after the
      fourth query. */
  lemma LandsAfterFourPolls(id: string, txs: seq<string>, slot: int, rest: seq<Observation>)
    requires |rest| >= MaxAttempts - 4
    ensures var obs := [Ok(BundleStatusResponse(slot, [])), Status(id, txs, slot, "processed", None),
                        Status(id, txs, slot, "confirmed", None), Status(id, txs, slot, "finalized", None)] + rest;
      Poll(obs, Classify, MaxAttempts) == Run(Some(Landed(slot, txs)), 4)
  {
    var obs := [Ok(BundleStatusResponse(slot, [])), Status(id, txs, slot, "processed", None),
                Status(id, txs, slot, "confirmed", None), Status(id, txs, slot, "finalized", None)] + rest;
    assert Classify(obs[0]) == Continue;
    assert Classify(obs[1]) == Continue;
    assert Classify(obs[2]) == Continue;
    assert PollFrom(obs, Classify, 3, MaxAttempts) == Run(Some(Landed(slot, txs)), 4);
  }

  /** A bundle finalized with an error at the first query: failure at once. */
  lemma FailsAtFirstPoll(id: string, txs: seq<string>, slot: int, err: Json.Value, rest: seq<Observation>)
    requires |rest| >= MaxAttempts - 1
    ensures Poll([Status(id, txs, slot, "finalized", Some(err))] + rest, Classify, MaxAttempts)
         == Run(Some(ExecutionFailed(slot, err)), 1)
  {
  }

  /** Sixty answers with no status: final status unknown after exactly sixty queries. */
  lemma UnknownAfterSixtyEmptyAnswers(obs: seq<Observation>)
    requires |obs| >= MaxAttempts
    requires forall j :: 0 <= j < MaxAttempts ==> obs[j].Ok? && obs[j].value.value == []
    ensures Poll(obs, Classify, MaxAttempts) == Run(None, MaxAttempts)
  {
    PollMeaning(obs, Classify, MaxAttempts);
  }
}
