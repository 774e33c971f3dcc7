/** `get_okx_wallet_balance`: at most five attempts at the wallet-value endpoint, the first success
    wins, a two-second sleep between attempts but not after the last, and `(0.0, False)` once every
    attempt has failed. The HTTP exchange of each attempt is an input; sleeps are counted, not
    performed. */
module WalletFetch {
  import opened Wrappers

  /** The `totalValue` field of the first item of `data`. */
  datatype TotalValue =
    | Absent            // missing: read as '0'
    | Number(v: real)   // a string `float()` accepts
    | Unparsable        // a string `float()` rejects: the attempt raises

  /** What one attempt got back. */
  datatype Attempt =
    | Response(status: int, code: Option<string>, data: seq<TotalValue>)
    | Raised            // transport error, timeout, or a body that is not JSON

  const MaxRetries: nat := 5
  const RetryDelaySeconds: nat := 2

  /** The outcome of attempt `i`; a stub that lists fewer outcomes raises on the remaining attempts. */
  function AttemptAt(outcomes: seq<Attempt>, i: nat): Attempt
  {
    if i < |outcomes| then outcomes[i] else Raised
  }

  /** HTTP 200, `code == "0"`, non-empty `data`, and a first `totalValue` that parses. */
  predicate Succeeds(a: Attempt)
  {
    a.Response? && a.status == 200 && a.code == Some("0") && |a.data| > 0 && !a.data[0].Unparsable?
  }

  /** The value a successful attempt reports. */
  function ValueOf(a: Attempt): real
    requires Succeeds(a)
  {
    match a.data[0]
    case Absent => 0.0
    case Number(v) => v
  }

  /** The first of attempts `i .. MaxRetries - 1` that succeeds, if any. */
  function FirstSuccessFrom(outcomes: seq<Attempt>, i: nat): (r: Option<nat>)
    requires i <= MaxRetries
    ensures r.Some? ==> i <= r.value < MaxRetries && Succeeds(AttemptAt(outcomes, r.value))
    ensures r.Some? ==> forall j :: i <= j < r.value ==> !Succeeds(AttemptAt(outcomes, j))
    ensures r.None? ==> forall j :: i <= j < MaxRetries ==> !Succeeds(AttemptAt(outcomes, j))
    decreases MaxRetries - i
  {
    if i == MaxRetries then None
    else if Succeeds(AttemptAt(outcomes, i)) then Some(i)
    else FirstSuccessFrom(outcomes, i + 1)
  }

  function FirstSuccess(outcomes: seq<Attempt>): Option<nat>
  {
    FirstSuccessFrom(outcomes, 0)
  }

  /** The `(total_value, success)` pair the retry loop returns. */
  function WalletBalance(outcomes: seq<Attempt>): (real, bool)
  {
    match FirstSuccess(outcomes)
    case Some(k) => (ValueOf(AttemptAt(outcomes, k)), true)
    case None => (0.0, false)
  }

  /** How many requests the retry loop makes. */
  function AttemptsMade(outcomes: seq<Attempt>): nat
  {
    match FirstSuccess(outcomes)
    case Some(k) => k + 1
    case None => MaxRetries
  }

  /** The retry loop's result: success exactly when one of the five attempts succeeds, the value of
      the first that does, and `(0.0, False)` otherwise. */
  lemma WalletBalanceMeaning(outcomes: seq<Attempt>)
    ensures WalletBalance(outcomes).1 <==> exists i :: 0 <= i < MaxRetries && Succeeds(AttemptAt(outcomes, i))
    ensures WalletBalance(outcomes).1 ==>
      exists k :: 0 <= k < MaxRetries && Succeeds(AttemptAt(outcomes, k))
        && (forall j :: 0 <= j < k ==> !Succeeds(AttemptAt(outcomes, j)))
        && WalletBalance(outcomes).0 == ValueOf(AttemptAt(outcomes, k))
    ensures !WalletBalance(outcomes).1 ==> WalletBalance(outcomes) == (0.0, false)
    ensures 1 <= AttemptsMade(outcomes) <= MaxRetries
  {
    match FirstSuccess(outcomes)
    case Some(k) =>
    case None =>
  }

  /** Outcomes past the fifth are never looked at. */
  lemma {:induction false} OnlyFiveAttemptsMatter(outcomes: seq<Attempt>, i: nat)
    requires i <= MaxRetries
    ensures FirstSuccessFrom(outcomes, i) == FirstSuccessFrom(outcomes[..if |outcomes| < MaxRetries then |outcomes| else MaxRetries], i)
    decreases MaxRetries - i
  {
    var cut := outcomes[..if |outcomes| < MaxRetries then |outcomes| else MaxRetries];
    if i < MaxRetries {
      assert AttemptAt(outcomes, i) == AttemptAt(cut, i);
      OnlyFiveAttemptsMatter(outcomes, i + 1);
    }
  }

  /** `attempts` is how many requests were made and `sleeps` how many two-second pauses were taken:
      one after each failed attempt except the last. */
  method GetOkxWalletBalance(outcomes: seq<Attempt>) returns (total: real, success: bool, attempts: nat, sleeps: nat)
    ensures (total, success) == WalletBalance(outcomes)
    ensures attempts == AttemptsMade(outcomes)
    ensures forall i :: 0 <= i < attempts - 1 ==> !Succeeds(AttemptAt(outcomes, i))
    ensures sleeps == attempts - 1
  {
    total, success, sleeps := 0.0, false, 0;
    var attempt: nat := 0;
    while attempt < MaxRetries
      invariant attempt <= MaxRetries - 1
      invariant sleeps == attempt
      invariant forall i :: 0 <= i < attempt ==> !Succeeds(AttemptAt(outcomes, i))
      invariant FirstSuccess(outcomes) == FirstSuccessFrom(outcomes, attempt)
    {
      var outcome := AttemptAt(outcomes, attempt);
      if outcome.Response? && outcome.status == 200 {
        if outcome.code == Some("0") && |outcome.data| > 0 {
          match outcome.data[0]
          case Absent =>
            return 0.0, true, attempt + 1, sleeps;
          case Number(v) =>
            return v, true, attempt + 1, sleeps;
          case Unparsable =>
            // float() raises inside the try: handled like a transport error
        }
      }
      // every failure path: sleep and retry, or give up after the last attempt
      if attempt < MaxRetries - 1 {
        sleeps := sleeps + 1;
        attempt := attempt + 1;
      } else {
        return 0.0, false, attempt + 1, sleeps;
      }
    }
    assert false;
  }

  /** Stubbed runs of the retry loop. */
  method RetryScenarios()
  {
    var ok := Response(200, Some("0"), [Number(250.5)]);
    var rateLimited := Response(429, None, []);
    var appError := Response(200, Some("50011"), []);

    // four failures, then a success: the value of the fifth attempt
    var t, s, n, z := GetOkxWalletBalance([Raised, rateLimited, appError, Raised, ok]);
    assert Succeeds(AttemptAt([Raised, rateLimited, appError, Raised, ok], 4));
    assert s && n == 5 && t == 250.5 && z == 4;

    // five failures: (0.0, False) after four sleeps
    t, s, n, z := GetOkxWalletBalance([Raised, Raised, rateLimited, appError, Raised]);
    assert !s && t == 0.0 && n == 5 && z == 4;

    // a first success makes no further attempts
    t, s, n, z := GetOkxWalletBalance([ok, Raised]);
    assert Succeeds(AttemptAt([ok, Raised], 0));
    assert s && n == 1 && z == 0 && t == 250.5;
  }
}
