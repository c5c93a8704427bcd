/**
 One model step: which errors are retried, how long the backoff lasts, how soon
 a cancel is noticed, and what the retry loop hands on.
 */
module Retry {
  import opened Options

  const MAX_MODEL_RETRIES: nat := 20
  const BACKOFF_SLICE_MS: nat := 200

  /** `names` says that the body names a context limit, in any of the wordings the gateway knows. */
  datatype ModelError =
    | Http(status: nat, names: bool)
    | Request
    | Json
    | Cancelled
    | Suspended
    | Other(names: bool)
  {
    predicate ContextTooLong() {
      match this
      case Http(status, names) => (status == 400 || status == 413) && names
      case Other(names) => names
      case _ => false
    }
  }

  /** `Suspended` is the loop's own way out: clients and tools never report it. */
  type ClientError = e: ModelError | !e.Suspended? witness Json

  predicate IsRetryable(e: ModelError) {
    match e
    case Cancelled => false
    case Suspended => false
    case Json => false
    case Http(status, _) => !e.ContextTooLong() && (status == 429 || status >= 500)
    case Request => true
    case Other(_) => true
  }

  datatype Usage = Usage(input: nat, output: nat, cacheRead: nat, cacheWrite: nat) {
    function Plus(u: Usage): Usage {
      Usage(input + u.input, output + u.output, cacheRead + u.cacheRead, cacheWrite + u.cacheWrite)
    }
  }

  const NO_USAGE := Usage(0, 0, 0, 0)

  datatype Finish = Stop | Length | Refusal | ContentFilter | OtherFinish

  /** A finished answer (`leaked`: tool-call XML in the text, `cleaned` without it) or a request for tools. */
  datatype Reply =
    | Done(text: string, leaked: bool, cleaned: string, usage: Usage, finish: Finish)
    | Calls(text: string, calls: seq<string>, usage: Usage)
    | Failed(error: ClientError)

  /** One call of the client: what came back, what had streamed before a failure, and whether a cancel arrived. */
  datatype Attempt = Attempt(reply: Reply, partial: string, cancelled: bool)

  const QUIET := Attempt(Failed(Json), "", false)

  /** The client's next 21 answers: more are never asked for. */
  type Attempts = a: seq<Attempt> | |a| == MAX_MODEL_RETRIES + 1
    witness seq(MAX_MODEL_RETRIES + 1, _ => QUIET)

  // ------------------------------------------------------------------ delay

  function Pow2(n: nat): (p: nat)
    ensures p >= 1
  {
    if n == 0 then 1 else 2 * Pow2(n - 1)
  }

  const U64_LIMIT: nat := 0x1_0000_0000_0000_0000

  /** `1u64 << n`: defined below a shift of 64, and then the bits that leave the word are lost. */
  function ShiftOne(n: nat): nat
    requires n < 64
  {
    Pow2(n) % U64_LIMIT
  }

  /** Seconds before retry `attempt`, counted from 1. */
  function RetryDelay(attempt: nat): nat
    requires attempt <= 64
  {
    var secs := ShiftOne(if attempt == 0 then 0 else attempt - 1);
    if secs < 60 then secs else 60
  }

  lemma {:induction false} Pow2Grows(m: nat, n: nat)
    requires m <= n
    ensures Pow2(m) <= Pow2(n)
    decreases n - m
  {
    if m < n {
      Pow2Grows(m, n - 1);
    }
  }

  lemma Pow2Of64()
    ensures Pow2(6) == 64 && Pow2(64) == U64_LIMIT
  {
    assert Pow2(6) == 64;
    assert Pow2(16) == 0x1_0000 by { assert Pow2(11) == 2048; }
    assert Pow2(32) == 0x1_0000_0000 by { assert Pow2(21) == 0x20_0000; assert Pow2(27) == 0x800_0000; }
    assert Pow2(43) == 0x800_0000_0000 by { assert Pow2(37) == 0x20_0000_0000; }
    assert Pow2(54) == 0x40_0000_0000_0000 by { assert Pow2(48) == 0x1_0000_0000_0000; }
    assert Pow2(60) == 0x1000_0000_0000_0000;
  }

  /** The shift never loses a bit, so the delay is the doubling sequence cut at a minute. */
  lemma RetryDelayExact(attempt: nat)
    requires 1 <= attempt <= 64
    ensures attempt <= 6 ==> RetryDelay(attempt) == Pow2(attempt - 1) < 60
    ensures attempt > 6 ==> RetryDelay(attempt) == 60 <= Pow2(attempt - 1)
  {
    Pow2Of64();
    Pow2Grows(attempt - 1, 63);
    assert Pow2(64) == 2 * Pow2(63);
    if attempt <= 6 {
      Pow2Grows(attempt - 1, 5);
      assert Pow2(6) == 2 * Pow2(5);
    } else {
      Pow2Grows(6, attempt - 1);
    }
  }

  lemma RetryDelayMonotone(a: nat, b: nat)
    requires 1 <= a <= b <= 64
    ensures RetryDelay(a) <= RetryDelay(b)
  {
    RetryDelayExact(a);
    RetryDelayExact(b);
    Pow2Grows(a - 1, b - 1);
  }

  function TotalDelay(retries: nat): nat
    requires retries <= 64
  {
    if retries == 0 then 0 else TotalDelay(retries - 1) + RetryDelay(retries)
  }

  /** Closed form of the backoff spent by `retries` announced retries. */
  lemma {:induction false} TotalDelayExact(retries: nat)
    requires retries <= 64
    ensures retries <= 6 ==> TotalDelay(retries) == Pow2(retries) - 1
    ensures retries >= 6 ==> TotalDelay(retries) == 63 + 60 * (retries - 6)
  {
    Pow2Of64();
    if retries > 0 {
      TotalDelayExact(retries - 1);
      RetryDelayExact(retries);
    }
  }

  lemma {:induction false} TotalDelayMonotone(a: nat, b: nat)
    requires a <= b <= 64
    ensures TotalDelay(a) <= TotalDelay(b)
    decreases b - a
  {
    if a < b {
      TotalDelayMonotone(a, b - 1);
    }
  }

  // ---------------------------------------------------------------- backoff

  /**
   Sleeps in slices, looking at the flag before each and once at the end.
   `raisedAt` is the moment, in milliseconds after entry, when the flag goes up.
   */
  method BackoffOrCancel(delay: nat, raisedAt: Option<nat>) returns (carryOn: bool, slept: nat)
    ensures carryOn <==> raisedAt.None? || raisedAt.value > delay
    ensures carryOn ==> slept == delay
    ensures !carryOn ==> raisedAt.value <= slept <= delay && slept < raisedAt.value + 200
  {
    slept := 0;
    while slept < delay
      invariant slept <= delay
      invariant slept < delay ==> slept % BACKOFF_SLICE_MS == 0
      invariant raisedAt.Some? ==> slept == 0 || slept < raisedAt.value + 200
    {
      if raisedAt.Some? && raisedAt.value <= slept {
        return false, slept;
      }
      var chunk := if BACKOFF_SLICE_MS < delay - slept then BACKOFF_SLICE_MS else delay - slept;
      slept := slept + chunk;
    }
    carryOn := !(raisedAt.Some? && raisedAt.value <= slept);
  }

  // ------------------------------------------------------------- retry loop

  datatype Settled = Settled(reply: Reply, calls: nat, retries: nat, cancelled: bool)

  predicate Retries(a: Attempts, k: nat)
    requires k <= MAX_MODEL_RETRIES
  {
    k < MAX_MODEL_RETRIES && a[k].reply.Failed? && IsRetryable(a[k].reply.error)
  }

  /** The loop from its `k`-th call on. */
  function Settle(a: Attempts, k: nat): (r: Settled)
    requires k <= MAX_MODEL_RETRIES
    ensures k < r.calls <= MAX_MODEL_RETRIES + 1
    ensures forall i :: k <= i < r.calls - 1 ==> Retries(a, i) && !a[i].cancelled
    ensures !Retries(a, r.calls - 1) ==>
              r.reply == a[r.calls - 1].reply && r.retries == r.calls - 1
              && r.cancelled == a[r.calls - 1].cancelled
    ensures Retries(a, r.calls - 1) ==>
              a[r.calls - 1].cancelled && r.reply == Failed(Cancelled) && r.retries == r.calls && r.cancelled
    decreases MAX_MODEL_RETRIES - k
  {
    if Retries(a, k) then
      if a[k].cancelled then Settled(Failed(Cancelled), k + 1, k + 1, true)
      else Settle(a, k + 1)
    else
      Settled(a[k].reply, k + 1, k, a[k].cancelled)
  }

  /** A failure that may pass: no connection, an unknown error, too many requests, or a fault of the server. */
  predicate MayPass(reply: Reply) {
    reply.Failed? &&
    match reply.error
    case Request => true
    case Other(_) => true
    case Http(status, _) => status == 429 || status >= 500
    case _ => false
  }

  /**
   What one model step costs and yields: at most 21 calls and 20 numbered retries, every call
   but the last one a failure that may pass, at most 903 seconds of backoff, and the step's answer
   is the first call that is not retried or, once cancelled, `Cancelled`.
   */
  lemma ModelStepBounds(a: Attempts)
    ensures var r := Settle(a, 0);
            && 1 <= r.calls <= 21
            && r.retries <= 20
            && TotalDelay(r.retries) <= 903
            && (forall i :: 0 <= i < r.calls - 1 ==> MayPass(a[i].reply) && !a[i].cancelled)
            && (r.reply == a[r.calls - 1].reply || (r.reply == Failed(Cancelled) && a[r.calls - 1].cancelled))
            && (r.retries == 20 && !r.cancelled ==> r.calls == 21)
  {
    var r := Settle(a, 0);
    TotalDelayExact(20);
    TotalDelayMonotone(r.retries, 20);
  }

  /** The answer is the only one with that description, so the loop has no freedom left. */
  lemma {:induction false} SettleUnique(a: Attempts, k: nat, n: nat)
    requires k <= n <= MAX_MODEL_RETRIES
    requires forall i :: k <= i < n ==> Retries(a, i) && !a[i].cancelled
    requires !Retries(a, n) || a[n].cancelled
    ensures Settle(a, k).calls == n + 1
    decreases n - k
  {
    if k < n {
      SettleUnique(a, k + 1, n);
    }
  }

  /** A call is made exactly when all before it failed in a way that may pass, with no cancel in between. */
  lemma {:induction false} RetriedWhen(a: Attempts, k: nat, n: nat)
    requires k <= n <= MAX_MODEL_RETRIES
    ensures Settle(a, k).calls > n <==> forall i :: k <= i < n ==> MayPass(a[i].reply) && !a[i].cancelled
    decreases n - k
  {
    if k < n {
      RetriedWhen(a, k + 1, n);
      assert Retries(a, k) <==> MayPass(a[k].reply);
    }
  }

  /** Of the errors that mean the context is too long, exactly those without a status are retried. */
  lemma TooLongRetriedWhen(e: ModelError)
    requires e.ContextTooLong()
    ensures IsRetryable(e) <==> e.Other?
    ensures e.Http? || e.Other?
  {
  }

  /** So such an error is handed on at once exactly when it carries a status. */
  lemma TooLongAtOnce(a: Attempts)
    requires a[0].reply.Failed? && a[0].reply.error.ContextTooLong()
    ensures Settle(a, 0).calls == 1 && Settle(a, 0).reply == a[0].reply <==> a[0].reply.error.Http?
  {
    TooLongRetriedWhen(a[0].reply.error);
  }

  /** Without a status it is handed on exactly when it is the 21st failure in a row that could be retried. */
  lemma TooLongIsRetriedFirst(a: Attempts)
    ensures Settle(a, 0).reply == Failed(Other(true)) <==>
            && a[MAX_MODEL_RETRIES].reply == Failed(Other(true))
            && forall i :: 0 <= i < MAX_MODEL_RETRIES ==> Retries(a, i) && !a[i].cancelled
    ensures Settle(a, 0).reply == Failed(Other(true)) ==> Settle(a, 0).calls == 21 && Settle(a, 0).retries == 20
  {
    hide Settle;
    var r := Settle(a, 0);
    if r.reply == Failed(Other(true)) {
      assert !Retries(a, r.calls - 1);
      assert r.calls - 1 == MAX_MODEL_RETRIES;
    } else if forall i :: 0 <= i < MAX_MODEL_RETRIES ==> Retries(a, i) && !a[i].cancelled {
      SettleUnique(a, 0, MAX_MODEL_RETRIES);
    }
  }
}
