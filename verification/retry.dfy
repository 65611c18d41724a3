/** The startup fetch of the tracked message with bounded retry
    (`fetchMessageWithRetry`). Each attempt's outcome is supplied by an
    oracle: `attempt(i)` is what the i-th call to the platform's message
    fetch does. The one-second pause is counted as a wait, not timed.
 */
module Retry {

  /** The default value of the `retries` parameter. */
  const DefaultRetries: nat := 3

  /** One first try plus `DefaultRetries` retries. */
  const MaxAttempts: nat := DefaultRetries + 1

  /** A fetch either resolves (to a message, or to nothing) or rejects. */
  datatype FetchOutcome = Resolved(present: bool) | Rejected(error: string)

  /** What the retrying fetch returned or threw, with the number of fetch
      calls it made and the number of pauses between them. */
  datatype RetryResult =
    | Fetched(present: bool, attempts: nat, waits: nat)
    | Exhausted(error: string, attempts: nat, waits: nat)

  /** Retry loop whose first call is oracle call `first` and which may retry
      `retries` more times. It returns the first resolved attempt and gives
      up with the last error once the budget is spent; one pause separates
      consecutive attempts. */
  function FetchFrom(attempt: nat -> FetchOutcome, first: nat, retries: nat): (r: RetryResult)
    ensures 1 <= r.attempts <= retries + 1
    ensures r.waits == r.attempts - 1
    ensures forall j :: first <= j < first + r.attempts - 1 ==> attempt(j).Rejected?
    ensures r.Fetched? ==> attempt(first + r.attempts - 1) == Resolved(r.present)
    ensures r.Exhausted? ==> r.attempts == retries + 1 && attempt(first + retries) == Rejected(r.error)
    decreases retries
  {
    match attempt(first)
    case Resolved(p) => Fetched(p, 1, 0)
    case Rejected(e) =>
      if retries > 0 then
        var r := FetchFrom(attempt, first + 1, retries - 1);
        r.(attempts := r.attempts + 1, waits := r.waits + 1)
      else
        Exhausted(e, 1, 0)
  }

  /** `fetchMessageWithRetry(messageId)` with its default budget. */
  function FetchMessageWithRetry(attempt: nat -> FetchOutcome): (r: RetryResult)
    ensures 1 <= r.attempts <= MaxAttempts
    ensures r.waits == r.attempts - 1 && r.waits <= DefaultRetries
    ensures r.Fetched? ==> attempt(r.attempts - 1) == Resolved(r.present)
    ensures forall j :: 0 <= j < r.attempts - 1 ==> attempt(j).Rejected?
    ensures r.Exhausted? ==> r.attempts == MaxAttempts && attempt(MaxAttempts - 1) == Rejected(r.error)
  {
    FetchFrom(attempt, 0, DefaultRetries)
  }

  /** The fetch gives up exactly when every one of the first `MaxAttempts`
      calls rejects; otherwise it returns the earliest resolved call. */
  lemma FetchSucceedsIff(attempt: nat -> FetchOutcome)
    ensures FetchMessageWithRetry(attempt).Exhausted? <==>
              forall j :: 0 <= j < MaxAttempts ==> attempt(j).Rejected?
    ensures FetchMessageWithRetry(attempt).Fetched? ==>
              exists k :: 0 <= k < MaxAttempts && attempt(k).Resolved?
                && FetchMessageWithRetry(attempt).attempts == k + 1
                && forall j :: 0 <= j < k ==> attempt(j).Rejected?
  {
  }

  /** Three failures followed by a success: the fetch succeeds on its
      fourth call after three pauses. */
  lemma ThreeFailuresThenSuccess(attempt: nat -> FetchOutcome)
    requires forall j :: 0 <= j < 3 ==> attempt(j).Rejected?
    requires attempt(3) == Resolved(true)
    ensures FetchMessageWithRetry(attempt) == Fetched(true, 4, 3)
  {
  }

  /** Four failures: the fetch throws the fourth error after three pauses,
      and never makes a fifth call. */
  lemma FourFailures(attempt: nat -> FetchOutcome)
    requires forall j :: 0 <= j < 4 ==> attempt(j).Rejected?
    ensures FetchMessageWithRetry(attempt) == Exhausted(attempt(3).error, 4, 3)
  {
  }
}
