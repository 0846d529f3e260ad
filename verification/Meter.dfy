/** The write meter: a token bucket per member of a tree and a byte meter per account. Tokens and time are reals. */
module Meter {
  import opened Wrappers
  import Decimal

  /** The plan and the byte meter of an account. */
  datatype Account = Account(used: nat, cap: nat, rate: real, burst: nat, retained: real)

  datatype Bucket = Bucket(tokens: real, refilled: real)

  datatype Axis = Accumulating | PointerOnly

  function Lesser(a: real, b: real): real { if a <= b then a else b }

  /** What flows in between two times. */
  function Flow(rate: real, start: real, end: real): real { (end - start) * rate }

  /** The balance just before a write at `now`; a member's first write finds the bucket full. */
  function Balance(b: Option<Bucket>, rate: real, burst: nat, now: real): real {
    match b
    case None => burst as real
    case Some(bucket) => Lesser(burst as real, bucket.tokens + Flow(rate, bucket.refilled, now))
  }

  /** A first write is admitted unconditionally; a later one needs a whole token. */
  predicate Admits(b: Option<Bucket>, rate: real, burst: nat, now: real) {
    b.None? || Balance(b, rate, burst, now) >= 1.0
  }

  function Debit(b: Option<Bucket>, rate: real, burst: nat, now: real): Bucket {
    Bucket(Balance(b, rate, burst, now) - 1.0, now)
  }

  datatype Charge = Charged(account: Account, bucket: Bucket) | RateLimited(retryAfter: nat) | CapacityExceeded

  function Ceil(x: real): (n: int)
    ensures (n - 1) as real < x <= n as real
  {
    if x.Floor as real == x then x.Floor else x.Floor + 1
  }

  /** Whole seconds until one token has flowed in, as a saturating cast to u64; a minute when nothing flows. */
  function ExactBackoff(rate: real): nat {
    if rate > 0.0 then
      var seconds := Ceil(1.0 / rate);
      if seconds < 0 then 0 else if seconds > Decimal.U64_MAX then Decimal.U64_MAX else seconds
    else 60
  }

  /** Callers below the management roles get no less than a minute. */
  function RetryAfter(rate: real, privileged: bool): nat {
    var exact := ExactBackoff(rate);
    if privileged || exact >= 60 then exact else 60
  }

  /** `charge_write`: the bucket first, then the cap for writes that accumulate. A refusal changes nothing. */
  function ChargeWrite(a: Account, b: Option<Bucket>, size: nat, axis: Axis, now: real, privileged: bool): Charge {
    if !Admits(b, a.rate, a.burst, now) then RateLimited(RetryAfter(a.rate, privileged))
    else
      var bucket := Debit(b, a.rate, a.burst, now);
      if axis == PointerOnly then Charged(a, bucket)
      else if a.used + size > a.cap then CapacityExceeded
      else Charged(a.(used := a.used + size), bucket)
  }

  /** `charge_create`: one token, spent even if the creation is refused later. */
  function ChargeCreate(a: Account, b: Option<Bucket>, now: real): Charge {
    if Admits(b, a.rate, a.burst, now) then Charged(a, Debit(b, a.rate, a.burst, now))
    else RateLimited(ExactBackoff(a.rate))
  }

  /** `credit_storage`: never below zero. */
  function Credit(a: Account, bytes: nat): Account {
    a.(used := if a.used >= bytes then a.used - bytes else 0)
  }

  // ----- how many writes a bucket admits -----

  /** A bucket after the attempts at `times`, and how many of them were admitted. */
  datatype Tally = Tally(bucket: Option<Bucket>, admitted: nat)

  function Attempts(b: Option<Bucket>, rate: real, burst: nat, times: seq<real>): Tally {
    if times == [] then Tally(b, 0)
    else
      var before := Attempts(b, rate, burst, times[..|times| - 1]);
      var now := times[|times| - 1];
      if Admits(before.bucket, rate, burst, now) then
        Tally(Some(Debit(before.bucket, rate, burst, now)), before.admitted + 1)
      else before
  }

  ghost predicate Increasing(times: seq<real>) {
    forall i, j :: 0 <= i <= j < |times| ==> times[i] <= times[j]
  }

  /** Tokens are not negative and were last refilled no later than `now`. */
  predicate Healthy(b: Option<Bucket>, now: real) {
    b.Some? ==> b.value.tokens >= 0.0 && b.value.refilled <= now
  }

  lemma FlowIsNotNegative(rate: real, start: real, end: real)
    requires rate >= 0.0 && start <= end
    ensures Flow(rate, start, end) >= 0.0
  {
    var span := end - start;
    assert span * rate >= 0.0;
  }

  lemma FlowSplits(rate: real, start: real, mid: real, end: real)
    ensures Flow(rate, start, end) == Flow(rate, start, mid) + Flow(rate, mid, end)
    ensures Flow(rate, start, start) == 0.0
  {
    var zero := start - start;
    assert zero == 0.0 && zero * rate == 0.0;
  }

  lemma BalanceIsBounded(b: Option<Bucket>, rate: real, burst: nat, now: real)
    requires Healthy(b, now) && rate >= 0.0
    ensures 0.0 <= Balance(b, rate, burst, now) <= burst as real
  {
    assert burst as real >= 0.0;
    match b
    case None =>
    case Some(bucket) =>
      var flow := Flow(rate, bucket.refilled, now);
      assert flow >= 0.0 by { FlowIsNotNegative(rate, bucket.refilled, now); }
  }

  lemma BalanceGrows(b: Option<Bucket>, rate: real, burst: nat, now: real, later: real)
    requires Healthy(b, now) && rate >= 0.0 && now <= later
    ensures Balance(b, rate, burst, later) <= Balance(b, rate, burst, now) + Flow(rate, now, later)
    ensures Healthy(b, later)
  {
    FlowIsNotNegative(rate, now, later);
    if b.Some? { FlowSplits(rate, b.value.refilled, now, later); }
  }

  /** One debit takes a whole token and leaves no negative balance. */
  lemma DebitTakesOne(b: Option<Bucket>, rate: real, burst: nat, now: real)
    requires Healthy(b, now) && rate >= 0.0 && burst >= 1 && Admits(b, rate, burst, now)
    ensures Balance(Some(Debit(b, rate, burst, now)), rate, burst, now) == Balance(b, rate, burst, now) - 1.0
    ensures Healthy(Some(Debit(b, rate, burst, now)), now)
  {
    BalanceIsBounded(b, rate, burst, now);
    FlowSplits(rate, now, now, now);
  }

  predicate Since(start: real, times: seq<real>) {
    forall i :: 0 <= i < |times| ==> start <= times[i]
  }

  function Last(start: real, times: seq<real>): real {
    if times == [] then start else times[|times| - 1]
  }

  /** So much was admitted, and so much is left, that together they were in the bucket at `start` or have come since. */
  ghost predicate Paid(t: Tally, rate: real, burst: nat, b: Option<Bucket>, start: real, now: real) {
    Healthy(t.bucket, now) &&
    t.admitted as real + Balance(t.bucket, rate, burst, now) <= Balance(b, rate, burst, start) + Flow(rate, start, now)
  }

  lemma PaidGrows(t: Tally, rate: real, burst: nat, b: Option<Bucket>, start: real, now: real, later: real)
    requires Paid(t, rate, burst, b, start, now) && rate >= 0.0 && now <= later
    ensures Paid(t, rate, burst, b, start, later)
  {
    BalanceGrows(t.bucket, rate, burst, now, later);
    FlowSplits(rate, start, now, later);
  }

  lemma PaidDebit(t: Tally, rate: real, burst: nat, b: Option<Bucket>, start: real, now: real)
    requires Paid(t, rate, burst, b, start, now) && rate >= 0.0 && burst >= 1 && Admits(t.bucket, rate, burst, now)
    ensures Paid(Tally(Some(Debit(t.bucket, rate, burst, now)), t.admitted + 1), rate, burst, b, start, now)
  {
    DebitTakesOne(t.bucket, rate, burst, now);
  }

  lemma {:induction false} AdmittedIsPaid(b: Option<Bucket>, rate: real, burst: nat, start: real, times: seq<real>)
    requires rate >= 0.0 && burst >= 1 && Healthy(b, start) && Increasing(times) && Since(start, times)
    ensures Paid(Attempts(b, rate, burst, times), rate, burst, b, start, Last(start, times))
  {
    if times == [] {
      FlowSplits(rate, start, start, start);
    } else {
      var front := times[..|times| - 1];
      AdmittedIsPaid(b, rate, burst, start, front);
      var before, now := Attempts(b, rate, burst, front), times[|times| - 1];
      PaidGrows(before, rate, burst, b, start, Last(start, front), now);
      if Admits(before.bucket, rate, burst, now) { PaidDebit(before, rate, burst, b, start, now); }
    }
  }

  /** Over any stretch of time a member gets at most the burst plus what the rate has delivered, and the tokens
      never go negative. */
  lemma WindowBound(b: Option<Bucket>, rate: real, burst: nat, start: real, end: real, times: seq<real>)
    requires rate >= 0.0 && burst >= 1 && Healthy(b, start) && Increasing(times) && Since(start, times)
    requires Last(start, times) <= end
    ensures Attempts(b, rate, burst, times).admitted as real <= burst as real + (end - start) * rate
    ensures Attempts(b, rate, burst, times).bucket.Some? ==>
              Attempts(b, rate, burst, times).bucket.value.tokens >= 0.0
  {
    var after := Attempts(b, rate, burst, times);
    AdmittedIsPaid(b, rate, burst, start, times);
    PaidGrows(after, rate, burst, b, start, Last(start, times), end);
    BalanceIsBounded(b, rate, burst, start);
    BalanceIsBounded(after.bucket, rate, burst, end);
    assert after.admitted as real <= burst as real + Flow(rate, start, end);
  }

  lemma TokenFlowsIn(rate: real, wait: real)
    requires rate > 0.0 && wait >= 1.0 / rate
    ensures wait * rate >= 1.0
  {
    var inverse := 1.0 / rate;
    assert inverse * rate == 1.0;
    var rest := wait - inverse;
    assert rest * rate >= 0.0;
    assert wait * rate == rest * rate + inverse * rate;
  }

  lemma FlowOfWait(rate: real, now: real, later: real)
    requires rate > 0.0 && later >= now + 1.0 / rate
    ensures Flow(rate, now, later) >= 1.0
  {
    var wait := later - now;
    TokenFlowsIn(rate, wait);
  }

  lemma BackoffIsLongEnough(rate: real, privileged: bool)
    requires rate > 0.0 && 1.0 / rate <= Decimal.U64_MAX as real
    ensures RetryAfter(rate, privileged) as real >= 1.0 / rate
  {
    var seconds := Ceil(1.0 / rate);
    assert 1.0 / rate > 0.0;
    assert 0 < seconds <= Decimal.U64_MAX;
  }

  /** A refused member that waits the backoff it was given, writing nothing, is admitted; when nothing flows in it
      never is. The cast caps the backoff only for rates below one token in 2^64 seconds. */
  lemma WaitingIsEnough(b: Option<Bucket>, rate: real, burst: nat, now: real, later: real, privileged: bool)
    requires burst >= 1 && Healthy(b, now) && !Admits(b, rate, burst, now)
    requires later >= now + RetryAfter(rate, privileged) as real
    ensures rate > 0.0 && 1.0 / rate <= Decimal.U64_MAX as real ==> Admits(b, rate, burst, later)
    ensures rate <= 0.0 ==> !Admits(b, rate, burst, later)
  {
    var refilled := b.value.refilled;
    FlowSplits(rate, refilled, now, later);
    if rate > 0.0 && 1.0 / rate <= Decimal.U64_MAX as real {
      BackoffIsLongEnough(rate, privileged);
      FlowOfWait(rate, now, later);
      FlowIsNotNegative(rate, refilled, now);
      assert burst as real >= 1.0;
    } else if rate <= 0.0 {
      FlowIsNotNegative(-rate, now, later);
      assert Flow(rate, now, later) == -Flow(-rate, now, later);
    }
  }
}
