/** checkTransactionStatus (examples/basic_txn/main.go): poll the ledger
    every second, at most 120 times, for the status of one signature until it
    shows an error or at least 27 confirmations. */
module TransactionPoller {
  import opened Wrappers
  import Json
  import opened Polling

  const MaxAttempts := 120
  const PollIntervalSeconds := 1
  const ConfirmationThreshold := 27

  /** One signature status as the ledger reports it; `confirmations` absent
      stands for a nil pointer, `err` None for a nil error. */
  datatype SignatureStatus = SignatureStatus(slot: int, confirmations: Option<nat>, err: Option<Json.Value>)

  /** What GetSignatureStatuses returned at one attempt. */
  datatype Reply =
    | QueryFailed(error: Error)
    | Statuses(value: seq<Option<SignatureStatus>>)

  /** The poller reads `Value[0]` without checking the length: only replies
      with at least one entry are observations it can handle. */
  type Observation = r: Reply | r.QueryFailed? || |r.value| >= 1 witness QueryFailed(Failure(""))

  /** The query issued at every attempt: the statuses of the one signature,
      searching the transaction history. */
  datatype StatusQuery = StatusQuery(signature: string, searchTransactionHistory: bool)

  datatype Outcome =
    | TransactionFailed(err: Json.Value)        // log.Fatalf: the process exits
    | Confirmed(confirmations: nat)
    | SignatureUndecodable                      // the base-58 decoding failed: log.Fatalf

  /** Confirmations, an absent count read as 0. */
  function Confirmations(s: SignatureStatus): (n: nat)
    ensures s.confirmations.None? ==> n == 0
    ensures s.confirmations.Some? ==> n == s.confirmations.value
  {
    if s.confirmations.Some? then s.confirmations.value else 0
  }

  /** The classification of one attempt: a failed query or a missing
      status goes on; an error stops with failure, and is looked at before
      the confirmation count; otherwise 27 confirmations or more stop with
      success and fewer go on. */
  function Classify(o: Observation): (v: Verdict<Outcome>)
    ensures o.QueryFailed? || o.value[0].None? ==> v == Continue
    ensures o.Statuses? && o.value[0].Some? ==>
      var s := o.value[0].value;
      && (s.err.Some? ==> v == Stop(TransactionFailed(s.err.value)))
      && (s.err.None? && Confirmations(s) >= ConfirmationThreshold ==> v == Stop(Confirmed(Confirmations(s))))
      && (s.err.None? && Confirmations(s) < ConfirmationThreshold ==> v == Continue)
    ensures v.Stop? && v.outcome.Confirmed? ==> v.outcome.confirmations >= ConfirmationThreshold
    ensures v.Stop? ==> !v.outcome.SignatureUndecodable?
  {
    if o.QueryFailed? || o.value[0].None? then Continue
    else
      var s := o.value[0].value;
      if s.err.Some? then Stop(TransactionFailed(s.err.value))
      else if Confirmations(s) >= ConfirmationThreshold then Stop(Confirmed(Confirmations(s)))
      else Continue
  }

  /** checkTransactionStatus: a signature that does not decode ends the
      process before any query; otherwise each attempt sleeps one second and
      queries, and the result is the poll of the observations as Classify
      reads them (no outcome: not confirmed after 120 attempts). */
  method CheckTransactionStatus(signature: string, signatureDecodes: bool, obs: seq<Observation>)
    returns (outcome: Option<Outcome>, attempts: nat, trace: seq<Event<StatusQuery>>)
    requires |obs| >= MaxAttempts
    ensures !signatureDecodes ==> outcome == Some(SignatureUndecodable) && attempts == 0 && trace == []
    ensures signatureDecodes ==> Run(outcome, attempts) == Poll(obs, Classify, MaxAttempts)
    ensures attempts <= MaxAttempts
    ensures outcome.None? <==>
      signatureDecodes && attempts == MaxAttempts && forall j :: 0 <= j < MaxAttempts ==> Classify(obs[j]).Continue?
    ensures trace == PollTrace(PollIntervalSeconds, StatusQuery(signature, true), attempts)
  {
    trace := [];
    if !signatureDecodes {
      return Some(SignatureUndecodable), 0, trace;
    }
    var query := StatusQuery(signature, true);
    attempts := 0;
    for i := 0 to MaxAttempts
      invariant attempts == i
      invariant trace == PollTrace(PollIntervalSeconds, query, attempts)
      invariant Poll(obs, Classify, MaxAttempts) == PollFrom(obs, Classify, attempts, MaxAttempts)
    {
      trace := trace + [Sleep(PollIntervalSeconds)];
      trace := trace + [Query(query)];
      attempts := i + 1;

      var status := obs[i];
      if status.QueryFailed? {
        continue;
      }
      if status.value[0].None? {
        continue;
      }

      var confirmations := 0;
      if status.value[0].value.confirmations.Some? {
        confirmations := status.value[0].value.confirmations.value;
      }

      if status.value[0].value.err.Some? {
        outcome := Some(TransactionFailed(status.value[0].value.err.value));
        PollMeaning(obs, Classify, MaxAttempts);
        return;
      }

      if confirmations >= ConfirmationThreshold {
        outcome := Some(Confirmed(confirmations));
        PollMeaning(obs, Classify, MaxAttempts);
        return;
      }
    }
    outcome := None;
    PollMeaning(obs, Classify, MaxAttempts);
  }

  /** An error wins over any confirmation count. */
  lemma ErrorBeforeThreshold(slot: int, n: nat, err: Json.Value)
    ensures Classify(Statuses([Some(SignatureStatus(slot, Some(n), Some(err)))])) == Stop(TransactionFailed(err))
  {
  }

  /** A status that never reports a confirmation count never confirms: with
      no error the poll runs all 120 attempts. */
  lemma NoCountNeverConfirms(obs: seq<Observation>)
    requires |obs| >= MaxAttempts
    requires forall j :: 0 <= j < MaxAttempts ==>
      obs[j].Statuses? && obs[j].value[0].Some? && obs[j].value[0].value.confirmations.None?
      && obs[j].value[0].value.err.None?
    ensures Poll(obs, Classify, MaxAttempts) == Run(None, MaxAttempts)
  {
    PollMeaning(obs, Classify, MaxAttempts);
  }
}
