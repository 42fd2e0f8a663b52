/** The notification type catalog: parameter schema, rendering and retry policy per type. */
module TypeCatalog {
  import opened Common

  // JSON as the envelope carries it; `params` is opaque until the catalog validates it.
  datatype Json = Null | Bool(b: bool) | Num(n: real) | Str(s: string) | Arr(items: seq<Json>) | Obj(fields: map<string,
      Json>)

  datatype Channel = Webhook | Email | Sms

  datatype Backoff = Exponential | Fixed

  datatype RetryPolicy = RetryPolicy(maxAttempts: nat, backoff: Backoff, baseMs: int, jitter: real)

  datatype Entry = Entry(channel: Channel, defaultDelayMs: nat, retryPolicy: RetryPolicy)

  /** The catalog is built once from two configuration values. */
  datatype Catalog = Catalog(userWelcomeDelayMs: nat, userWelcomeMaxAttempts: nat)

  const USER_WELCOME := "USER_WELCOME"

  function EntryFor(catalog: Catalog, kind: string): Option<Entry> {
    if kind == USER_WELCOME then
      Some(Entry(Webhook, catalog.userWelcomeDelayMs,
                 RetryPolicy(catalog.userWelcomeMaxAttempts, Exponential, 1_000, 0.0)))
    else
      None
  }

  predicate NonEmptyString(j: Json) {
    j.Str? && |j.s| >= 1
  }

  /** The strict object {userId, name}: both present, both non-empty strings, nothing else. */
  predicate ValidParams(kind: string, params: Json) {
    && kind == USER_WELCOME
    && params.Obj?
    && params.fields.Keys == {"userId", "name"}
    && NonEmptyString(params.fields["userId"])
    && NonEmptyString(params.fields["name"])
  }

  /** Exactly the objects with a non-empty userId, a non-empty name and nothing else. */
  lemma AcceptsExactly(kind: string, params: Json)
    ensures ValidParams(kind, params) <==>
            kind == "USER_WELCOME" && exists u, n :: IsWelcome(params, u, n)
  {
    if ValidParams(kind, params) {
      assert params.fields == map["userId" := params.fields["userId"], "name" := params.fields["name"]];
      assert IsWelcome(params, params.fields["userId"].s, params.fields["name"].s);
    }
  }

  predicate IsWelcome(params: Json, userId: string, name: string) {
    userId != "" && name != "" && params == Obj(map["userId" := Str(userId), "name" := Str(name)])
  }

  /** The one entry: webhook, the configured delay and attempts, one second doubling, no jitter. */
  lemma KnowsExactly(catalog: Catalog, kind: string)
    ensures EntryFor(catalog, kind).Some? <==> kind == "USER_WELCOME"
    ensures EntryFor(catalog, kind).Some? ==>
              var entry := EntryFor(catalog, kind).value;
              && entry.channel == Webhook && entry.defaultDelayMs == catalog.userWelcomeDelayMs
              && entry.retryPolicy.maxAttempts == catalog.userWelcomeMaxAttempts
              && forall n: nat, random: real :: n >= 1 ==>
                   ComputeBackoffMs(entry.retryPolicy, n, random) == 1_000 * Pow2(n - 1)
  {
  }

  /** The webhook body of a validated parameter object. */
  function Render(kind: string, params: Json): Json
    requires ValidParams(kind, params)
  {
    Obj(map["userId" := params.fields["userId"], "name" := params.fields["name"]])
  }

  /** Rendering neither drops nor invents a field: for this type the body is the stored parameter object. */
  lemma RenderIsParams(kind: string, params: Json)
    requires ValidParams(kind, params)
    ensures Render(kind, params) == params
  {
    assert Render(kind, params).fields == params.fields;
  }

  // ---------------------------------------------------------------- backoff

  function Pow2(n: nat): nat
    ensures Pow2(n) >= 1
  {
    if n == 0 then 1 else 2 * Pow2(n - 1)
  }

  /** The unjittered wait. */
  function BaseWait(policy: RetryPolicy, attempts: int): int {
    if policy.backoff.Exponential? then policy.baseMs * Pow2(Max(0, attempts - 1)) else policy.baseMs
  }

  /** base shifted by the fraction x of its variance. */
  function Shift(base: real, variance: real, x: real): real {
    base + x * variance
  }

  /** base +- base * jitter, spread by a random value in [0, 1). */
  function Jittered(base: real, jitter: real, random: real): real {
    Shift(base, base * jitter, (random - 0.5) * 2.0)
  }

  /** `random` is the value Math.random() returned. */
  function ComputeBackoffMs(policy: RetryPolicy, attempts: int, random: real): int {
    Settle(BaseWait(policy, attempts), policy.jitter, random)
  }

  function Settle(base: int, jitter: real, random: real): int {
    if jitter <= 0.0 then Max(0, base) else Max(0, Jittered(base as real, jitter, random).Floor)
  }

  /** Waits after failures first..last, summed. */
  function WaitSum(policy: RetryPolicy, first: nat, last: nat): int
    decreases last + 1 - first
  {
    if first > last then 0
    else ComputeBackoffMs(policy, first, 0.0) + WaitSum(policy, first + 1, last)
  }

  predicate Doubling(policy: RetryPolicy) {
    policy.backoff.Exponential? && policy.jitter <= 0.0 && policy.baseMs >= 0
  }

  /** The waits after failures first..last telescope to a difference of two powers. */
  lemma {:induction false} WaitSumClosedForm(policy: RetryPolicy, first: nat, last: nat)
    requires Doubling(policy) && 1 <= first <= last + 1
    ensures WaitSum(policy, first, last) == policy.baseMs * (Pow2(last) - Pow2(first - 1))
    decreases last + 1 - first
  {
    if first <= last {
      WaitSumClosedForm(policy, first + 1, last);
      var b := policy.baseMs;
      var p := Pow2(first - 1);
      assert Pow2(first) == 2 * p;
      Telescope(b, p, Pow2(last));
    }
  }

  lemma Telescope(b: int, p: int, q: int)
    ensures b * p + b * (q - 2 * p) == b * (q - p)
  {
  }

  /** The whole ladder 1..n costs base * (2^n - 1), and a ladder resumed at carried-over attempts costs no more. */
  lemma WaitLadder(policy: RetryPolicy, carried: nat, n: nat)
    requires Doubling(policy) && carried <= n
    ensures WaitSum(policy, 1, n) == policy.baseMs * (Pow2(n) - 1)
    ensures WaitSum(policy, carried + 1, n) <= policy.baseMs * (Pow2(n) - 1)
  {
    WaitSumClosedForm(policy, 1, n);
    WaitSumClosedForm(policy, carried + 1, n);
    MulMonotone(policy.baseMs, Pow2(n) - Pow2(carried), Pow2(n) - 1);
  }

  lemma MulMonotone(k: int, a: int, b: int)
    requires k >= 0 && a <= b
    ensures k * a <= k * b
  {
  }

  /** Each further failure waits strictly longer: the wait at least doubles. */
  lemma {:induction false} WaitsGrow(policy: RetryPolicy, j: nat, k: nat)
    requires Doubling(policy) && policy.baseMs >= 1 && 1 <= j < k
    ensures ComputeBackoffMs(policy, k, 0.0) >= 2 * ComputeBackoffMs(policy, j, 0.0) > 0
    decreases k
  {
    assert Pow2(k - 1) == 2 * Pow2(k - 2);
    assert policy.baseMs * Pow2(k - 1) == 2 * (policy.baseMs * Pow2(k - 2));
    if j < k - 1 {
      WaitsGrow(policy, j, k - 1);
    } else {
      MulMonotone(policy.baseMs, 1, Pow2(j - 1));
    }
  }

  /** A fixed policy waits the same after every failure. */
  lemma FixedWaits(policy: RetryPolicy, attempts: int, random: real)
    requires policy.backoff.Fixed? && policy.jitter <= 0.0 && policy.baseMs >= 0
    ensures ComputeBackoffMs(policy, attempts, random) == policy.baseMs
  {
  }

  /** Within base - base * jitter .. base + base * jitter, rounded down, and not negative. */
  predicate Within(base: int, jitter: real, wait: int) {
    var variance := base as real * jitter;
    0 <= (base as real - variance).Floor <= wait <= (base as real + variance).Floor
  }

  /** With jitter in [0, 1] the wait stays within its variance, whatever Math.random() returned. */
  lemma JitterBounds(policy: RetryPolicy, attempts: int, random: real)
    requires policy.baseMs >= 0 && 0.0 <= policy.jitter <= 1.0 && 0.0 <= random < 1.0
    ensures Within(BaseWait(policy, attempts), policy.jitter, ComputeBackoffMs(policy, attempts, random))
  {
    hide BaseWait, Settle, Within;
    BaseNotNegative(policy, attempts);
    SettleBounds(BaseWait(policy, attempts), policy.jitter, random);
  }

  lemma BaseNotNegative(policy: RetryPolicy, attempts: int)
    requires policy.baseMs >= 0
    ensures BaseWait(policy, attempts) >= 0
  {
    hide Pow2;
    if policy.backoff.Exponential? { MulMonotone(policy.baseMs, 0, Pow2(Max(0, attempts - 1))); }
  }

  lemma SettleBounds(base: int, jitter: real, random: real)
    requires base >= 0 && 0.0 <= jitter <= 1.0 && 0.0 <= random < 1.0
    ensures Within(base, jitter, Settle(base, jitter, random))
  {
    var b := base as real;
    ScaleDown(jitter, b);
    var variance := b * jitter;
    assert jitter > 0.0 ==> Settle(base, jitter, random) == Max(0, Shift(b, variance, (random - 0.5) * 2.0).Floor);
    assert jitter == 0.0 ==> variance == 0.0;
    ShiftBounds(b, variance, (random - 0.5) * 2.0);
    hide Shift;
  }

  lemma ShiftBounds(base: real, variance: real, x: real)
    requires 0.0 <= variance <= base && -1.0 <= x <= 1.0
    ensures 0 <= (base - variance).Floor <= Shift(base, variance, x).Floor <= (base + variance).Floor
  {
    ScaleBoth(x, variance);
    FloorMonotone(base - variance, Shift(base, variance, x));
    FloorMonotone(Shift(base, variance, x), base + variance);
  }

  lemma ScaleBoth(x: real, v: real)
    requires -1.0 <= x <= 1.0 && v >= 0.0
    ensures -v <= x * v <= v
  {
  }

  lemma ScaleDown(f: real, x: real)
    requires 0.0 <= f <= 1.0 && 0.0 <= x
    ensures 0.0 <= f * x <= x && x * f == f * x
  {
  }

  lemma FloorMonotone(a: real, b: real)
    requires a <= b
    ensures a.Floor <= b.Floor
  {
  }
}
