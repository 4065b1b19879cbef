/** Plans, operation records and the values that the scheduler keeps about them. */
module Operations {
  import opened Basics

  type Id = nat
  type Time = int

  const HOUR := 3600 * 1_000_000_000
  const SECOND := 1_000_000_000

  datatype Status = Running | Succeeded | SucceededWithWarnings | Failed | Canceled | Lost | Missed | Skipped

  predicate Terminal(s: Status) {
    s != Running
  }

  datatype RetryPolicy = RetryPolicy(initial: int, maxAttempts: int, maximum: int)

  /** Only the fields that scheduling depends on; `clock` stands for cron, timezone and jitter. */
  datatype Plan = Plan(id: Id, revision: int, hash: string, clock: string, grace: int, policy: string, retry: Option<RetryPolicy>)

  datatype Record = Record(id: Id, plan: Id, revision: int, hash: string, scheduled: Time, status: Status, error: string,
                           parent: Option<Id>, root: Option<Id>, attempt: int, retryAt: Option<Time>, deadline: Option<Time>,
                           uploaded: bool)

  datatype Runtime = Runtime(plan: Id, revision: int, hash: string, nextRun: Option<Time>, lastScheduled: Option<Time>, lastOperation: Option<Id>)

  type Records = map<Id, Record>

  function RunningIds(rs: Records): set<Id> {
    set id | id in rs && rs[id].status == Running
  }

  function RunningOf(rs: Records, plan: Id): set<Id> {
    set id | id in rs && rs[id].status == Running && rs[id].plan == plan
  }

  // ----- concurrency policies -----

  function Upper(c: char): char {
    if 'a' <= c <= 'z' then c - 'a' + 'A' else c
  }

  /** Equality of the letters involved here without regard to case. */
  predicate EqualFold(s: string, t: string) {
    |s| == |t| && forall i :: 0 <= i < |s| ==> Upper(s[i]) == Upper(t[i])
  }

  predicate ConcurrencySkip(policy: string, running: bool) {
    EqualFold(policy, "FORBID") && running
  }

  // ----- retry policies -----

  function Attempts(p: RetryPolicy): int {
    if p.maxAttempts == 0 then 1 else p.maxAttempts
  }

  function Initial(p: RetryPolicy): int {
    if p.initial == 0 then 60 else p.initial
  }

  function Maximum(p: RetryPolicy): int {
    if p.maximum == 0 then 1800 else p.maximum
  }

  predicate ValidRetry(p: RetryPolicy) {
    0 <= p.maxAttempts <= 10 && 0 <= p.initial <= 86400 && 0 <= p.maximum <= 86400 &&
    (if p.initial == 0 then 60 else p.initial) <= (if p.maximum == 0 then 1800 else p.maximum)
  }

  function Power2(n: nat): (r: nat)
    ensures r >= 1
  {
    if n == 0 then 1 else 2 * Power2(n - 1)
  }

  function Min(a: int, b: int): int {
    if a < b then a else b
  }

  /** The delay before the attempt after `attempt`. */
  function BackoffOf(p: RetryPolicy, attempt: int): int {
    if attempt < 1 then Initial(p) else Min(Maximum(p), Initial(p) * Power2(attempt - 1))
  }

  /** Doubling from the initial delay, capped: the loop stops once the cap is reached. */
  method Backoff(p: RetryPolicy, attempt: int) returns (delay: int)
    requires ValidRetry(p)
    ensures var first := if p.initial == 0 then 60 else p.initial; var cap := if p.maximum == 0 then 1800 else p.maximum;
            && 1 <= delay <= cap && delay == BackoffOf(p, attempt)
            && delay == if attempt <= 1 then first else Min(cap, first * Power2(attempt - 1))
  {
    var initial, maximum := Initial(p), Maximum(p);
    var i := 1;
    while i < attempt && initial < maximum
      invariant 1 <= i && (attempt >= 1 ==> i <= attempt) && (attempt < 1 ==> i == 1)
      invariant initial == Initial(p) * Power2(i - 1) && initial >= 1
    {
      Doubling(Initial(p), i);
      initial := initial * 2;
      i := i + 1;
    }
    if attempt >= 1 { Growing(Initial(p), i - 1, attempt - 1); }
    delay := if initial > maximum then maximum else initial;
  }

  lemma Doubling(a: int, i: nat)
    requires i >= 1
    ensures a * Power2(i) == a * Power2(i - 1) * 2
  {
  }

  lemma {:induction false} Growing(a: int, i: nat, j: nat)
    requires a >= 1 && i <= j
    ensures a * Power2(i) <= a * Power2(j)
    decreases j - i
  {
    if i < j {
      Growing(a, i + 1, j);
      Doubling(a, i + 1);
      assert a * Power2(i) >= 1;
    }
  }

  predicate RetryableError(code: string) {
    code == "REPOSITORY_LOCKED" || code == "GATEWAY_BUSY" || code == "GATEWAY_UNAVAILABLE" || code == "GATEWAY_RATE_LIMITED"
  }
}
