/**
 * The retry decision of crates/ai/src/retry.rs. Delays are whole nanoseconds. The product of a delay and the jitter has
 * any small relative error, as float arithmetic gives it, and rounds to the nearest nanosecond.
 */
module Retries {
  import opened Options

  datatype ProviderKind =
    | RateLimited | ServerError | Conflict | Timeout | RateLimitUnknown | AuthFailed | PermissionDenied
    | QuotaExhausted | BadStatus | ContextOverflow | ProviderFailed

  datatype Fault =
    | IdleTimeout | RequestTimeout | ConnectFailed | ConnectTimeout | ConnectionLost | DnsFailed | InvalidRequest
    | RedirectRefused | BadUrl | MalformedResponse | AnswerTooLarge | TlsSetupFailed | CertificateRejected

  datatype Cause =
    | Provider(kind: ProviderKind) | Transport(fault: Fault) | IncompleteStream | ProtocolBroken | ResponseTooLarge

  const LONGEST: nat := 0xFFFF_FFFF_FFFF_FFFF * 1_000_000_000 + 999_999_999

  /** A delay in nanoseconds, and a server delay in milliseconds. */
  type Delay = d: nat | d <= LONGEST
  type Millis = m: nat | m <= 0xFFFF_FFFF_FFFF_FFFF

  /** The largest error of a float product of this size: its part of 2 to the 50, above the four roundings behind it. */
  function FloatError(size: real): real {
    size / 1_125_899_906_842_624.0
  }

  /** A delay below this one, about 39 hours, is so short that the error of its cut is far below a nanosecond. */
  const SHORT: nat := 140_737_488_355_328

  /** A draw of the jitter, and the relative error of its product with the delay. */
  datatype Draw = Draw(jitter: real, error: real)

  predicate ValidDraw(draw: Draw) {
    0.0 <= draw.jitter < 1.0 && -FloatError(1.0) <= draw.error <= FloatError(1.0)
  }

  /** The facts of a failed attempt that the decision reads. */
  datatype AttemptInfo = AttemptInfo(
    retryAfter: Option<Millis>,
    shouldRetry: Option<bool>,
    status: Option<nat>,
    outputSeen: bool)

  datatype Policy = Policy(maxAttempts: nat, base: Delay, cap: Delay, retryAfterCap: Delay)

  /** At least one attempt. */
  predicate ValidPolicy(policy: Policy) {
    policy.maxAttempts >= 1
  }

  /** Whether a cause may repeat without the consent of the provider. */
  predicate Repeatable(cause: Cause, info: AttemptInfo) {
    match cause
    case Provider(kind) =>
      (match kind
       case RateLimited => true
       case ServerError => true
       case Conflict => true
       // Any other status leaves it open whether the provider worked on the request.
       case Timeout => info.status == Some(408)
       case RateLimitUnknown => info.retryAfter.Some?
       case _ => false)
    case Transport(fault) =>
      fault.IdleTimeout? || fault.RequestTimeout? || fault.ConnectFailed? || fault.ConnectTimeout?
      || fault.ConnectionLost? || fault.DnsFailed?
    case IncompleteStream => true
    case ProtocolBroken => false
    case ResponseTooLarge => false
  }

  function Pow2(n: nat): nat {
    if n == 0 then 1 else 2 * Pow2(n - 1)
  }

  function Min(a: nat, b: nat): nat {
    if a <= b then a else b
  }

  /** The computed delay before its jitter: it doubles with each attempt up to the 17th, within the cap. */
  function Computed(policy: Policy, number: nat): Delay
    requires number >= 1
  {
    Min(Min(policy.base * Pow2(Min(number - 1, 16)), LONGEST), policy.cap)
  }

  function Backoff(policy: Policy, number: nat, draw: Draw): Delay
    requires number >= 1 && ValidDraw(draw)
  {
    var capped := Computed(policy, number);
    var cut := Cut(capped, draw);
    if cut <= capped then capped - cut else 0
  }

  /** The nearest whole number, and the even one of two that are equally near. */
  function Nearest(x: real): int {
    var whole := x.Floor;
    var rest := x - whole as real;
    if rest < 0.5 || (rest == 0.5 && whole % 2 == 0) then whole else whole + 1
  }

  /** A quarter, with the largest error of a product. */
  function Quarter(size: real): real {
    0.25 * size + FloatError(0.25 * size)
  }

  /** The part of a delay that a draw cuts. */
  function Share(draw: Draw): (share: real)
    requires ValidDraw(draw)
    ensures 0.0 <= share < Quarter(1.0) && (draw.error == 0.0 ==> share < 0.25)
  {
    var part := draw.jitter * 0.25;
    ShareFits(part, draw.error);
    (1.0 + draw.error) * part
  }

  lemma ShareFits(part: real, error: real)
    requires 0.0 <= part < 0.25 && -FloatError(1.0) <= error <= FloatError(1.0)
    ensures 0.0 <= (1.0 + error) * part < Quarter(1.0)
    ensures error == 0.0 ==> (1.0 + error) * part < 0.25
  {
    var factor := 1.0 + error;
    ProductNonNegative(factor, part);
    ProductStrictlyBelow(factor, part, 0.25);
    assert factor * 0.25 <= Quarter(1.0);
  }

  /** What the jitter cuts from a delay. */
  function Cut(capped: nat, draw: Draw): (cut: nat)
    requires ValidDraw(draw)
  {
    ProductNonNegative(capped as real, Share(draw));
    Nearest(Times(capped as real, Share(draw)))
  }

  function Times(size: real, share: real): real {
    size * share
  }

  /** How long to wait for the next attempt. None gives the request up. */
  function Decide(policy: Policy, cause: Cause, info: AttemptInfo, number: nat, draw: Draw): Option<Delay>
    requires number >= 1 && ValidDraw(draw)
  {
    if info.outputSeen then None
    else if cause == Provider(ContextOverflow) then None
    else if info.shouldRetry == Some(false) then None
    else if info.shouldRetry != Some(true) && !Repeatable(cause, info) then None
    else if number >= policy.maxAttempts then None
    else
      var computed := Backoff(policy, number, draw);
      match info.retryAfter
      case None => Some(computed)
      case Some(asked) =>
        if Nanoseconds(asked) > policy.retryAfterCap then None else Some(WithFloor(computed, info.retryAfter))
  }

  function Nanoseconds(asked: Millis): Delay {
    asked * 1_000_000
  }

  /** A server delay is a floor, so a delay of 0 cannot skip the backoff. */
  function WithFloor(computed: Delay, asked: Option<Millis>): Delay {
    if asked.Some? && Nanoseconds(asked.value) >= computed then Nanoseconds(asked.value) else computed
  }

  /**
   * By how much four cuts can pass a delay. An exact product only rounds up, and a float product of a short delay can
   * also reach the middle between two nanoseconds. The error of a long delay grows with it.
   */
  function Slack(capped: nat, exact: bool): nat {
    if exact then if capped % 4 == 3 then 1 else 0
    else if capped < SHORT then if capped % 4 < 2 then 0 else 4 - capped % 4
    else 2 + capped / 1_125_899_906_842_624
  }

  /** `delay` is `capped` less at most a quarter, up to the slack of a float product. */
  predicate KeepsThreeQuarters(delay: nat, capped: nat) {
    4 * delay + Slack(capped, false) >= 3 * capped
  }

  /** The delay that may follow attempt `number`: the computed one less about a quarter, with the server as a floor. */
  predicate DelayFits(policy: Policy, info: AttemptInfo, number: nat, delay: Delay)
    requires number >= 1
  {
    && KeepsThreeQuarters(delay, Computed(policy, number))
    && delay <= (if policy.cap >= policy.retryAfterCap then policy.cap else policy.retryAfterCap)
    && (info.retryAfter.None? ==> delay <= Computed(policy, number))
    && (info.retryAfter.Some? ==> Nanoseconds(info.retryAfter.value) <= delay)
  }

  lemma ProductNonNegative(a: real, b: real)
    requires a >= 0.0 && b >= 0.0
    ensures a * b >= 0.0
  {
  }

  lemma ProductBelow(a: real, b: real, c: real)
    requires a >= 0.0 && b <= c
    ensures a * b <= a * c
  {
    ProductNonNegative(a, c - b);
    assert a * (c - b) == a * c - a * b;
  }

  lemma ProductStrictlyBelow(a: real, b: real, c: real)
    requires a > 0.0 && b < c
    ensures a * b < a * c
  {
    assert a * (c - b) > 0.0;
    assert a * (c - b) == a * c - a * b;
  }

  lemma NearestBelow(x: real, n: int)
    requires x < n as real + 0.5
    ensures Nearest(x) <= n
  {
    assert x.Floor <= n;
  }

  lemma NearestIsNear(x: real)
    ensures Nearest(x) as real <= x + 0.5
  {
  }

  /** Four cuts pass the delay by at most the slack. */
  lemma CutBelowQuarter(capped: nat, draw: Draw)
    requires ValidDraw(draw)
    ensures 4 * Cut(capped, draw) <= capped + Slack(capped, draw.error == 0.0)
    ensures 4 * Cut(capped, draw) <= capped + Slack(capped, false)
  {
    hide Nearest, Slack, Times;
    var share, size := Share(draw), capped as real;
    var product := Times(size, share);
    FloatProduct(size, share);
    FloatCut(capped, product);
    if draw.error == 0.0 {
      if capped == 0 {
        NothingToSlack();
      } else {
        SmallShare(size, share);
        ExactCut(capped, product);
      }
    }
  }

  lemma QuarterScales(size: real)
    ensures size * Quarter(1.0) == Quarter(size)
  {
    var factor := 0.25 + 0.25 / 1_125_899_906_842_624.0;
    assert Quarter(1.0) == factor;
    assert size * factor == Quarter(size);
  }

  lemma FloatProduct(size: real, share: real)
    requires size >= 0.0 && share < Quarter(1.0)
    ensures Times(size, share) <= Quarter(size)
  {
    ProductBelow(size, share, Quarter(1.0));
    QuarterScales(size);
  }

  lemma SmallShare(size: real, share: real)
    requires 0.0 <= share < 0.25 && size > 0.0
    ensures Times(size, share) < 0.25 * size
  {
    ProductStrictlyBelow(size, share, 0.25);
  }

  lemma NothingToSlack()
    ensures Slack(0, true) == Slack(0, false) == 0
  {
  }

  lemma ExactCut(capped: nat, product: real)
    requires product < 0.25 * capped as real
    ensures 4 * Nearest(product) <= capped + Slack(capped, true)
  {
    hide Nearest;
    var quarter, rest := capped / 4, capped % 4;
    assert capped as real == 4.0 * quarter as real + rest as real;
    NearestBelow(product, if rest == 3 then quarter + 1 else quarter);
  }

  lemma FloatCut(capped: nat, product: real)
    requires product <= Quarter(capped as real)
    ensures 4 * Nearest(product) <= capped + Slack(capped, false)
  {
    hide Nearest;
    var quarter, rest := capped / 4, capped % 4;
    assert capped as real == 4.0 * quarter as real + rest as real;
    if capped < SHORT {
      NearestBelow(product, if rest < 2 then quarter else quarter + 1);
    } else {
      NearestIsNear(product);
      var whole := capped / 1_125_899_906_842_624;
      assert FloatError(capped as real) < whole as real + 1.0;
    }
  }

  /** The cut is never larger than the delay, so the subtraction does not saturate. */
  lemma CutFits(capped: nat, draw: Draw)
    requires ValidDraw(draw)
    ensures Cut(capped, draw) <= capped
  {
    CutBelowQuarter(capped, draw);
  }

  lemma Distributes(a: real, b: real, c: real)
    ensures a * (b - c) == a * b - a * c
  {
  }

  /** A draw so large that its exact product is an eighth less than a quarter. */
  lemma LargeDraw(size: real) returns (draw: Draw)
    requires size >= 1.0
    ensures ValidDraw(draw) && draw.error == 0.0 && Times(size, Share(draw)) == 0.25 * size - 0.125
  {
    var part := 0.125 / size;
    assert size * part == 0.125;
    assert part > 0.0;
    if 4.0 * part > 1.0 {
      ProductBelow(size, 0.25, part);
    }
    draw := Draw(1.0 - 4.0 * part, 0.0);
    assert Share(draw) == 0.25 - part;
    Distributes(size, 0.25, part);
  }

  lemma CutRoundsUp(capped: nat, draw: Draw)
    requires ValidDraw(draw) && Times(capped as real, Share(draw)) == 0.25 * capped as real - 0.125
    requires capped % 4 == 3
    ensures 4 * Cut(capped, draw) > capped
  {
    hide Share, Times;
    var quarter, product := capped / 4, Times(capped as real, Share(draw));
    assert capped as real == 4.0 * quarter as real + 3.0;
    assert product == quarter as real + 0.625 && Cut(capped, draw) == Nearest(product);
    NearestAbove(product, quarter);
  }

  lemma NearestAbove(x: real, n: int)
    requires n as real + 0.5 < x < n as real + 1.0
    ensures Nearest(x) == n + 1
  {
    assert x.Floor == n;
  }

  /**
   * With exact products, the backoff keeps at least three quarters of a delay, whatever the jitter, if and only if a
   * quarter of the delay does not round up.
   */
  lemma QuarterIsKept(capped: nat)
    ensures (forall draw :: ValidDraw(draw) && draw.error == 0.0 ==> 4 * Cut(capped, draw) <= capped)
       <==> capped % 4 != 3
  {
    if capped % 4 != 3 {
      forall draw | ValidDraw(draw) && draw.error == 0.0
        ensures 4 * Cut(capped, draw) <= capped
      {
        CutBelowQuarter(capped, draw);
      }
    } else {
      var draw := LargeDraw(capped as real);
      CutRoundsUp(capped, draw);
    }
  }

  /** With every float error in its bound, the promise holds for a short delay if and only if 0 or 1 are left over 4. */
  lemma QuarterIsKeptInFloats(capped: nat)
    requires capped < SHORT
    ensures (forall draw :: ValidDraw(draw) ==> 4 * Cut(capped, draw) <= capped) <==> capped % 4 < 2
  {
    if capped % 4 < 2 {
      forall draw | ValidDraw(draw)
        ensures 4 * Cut(capped, draw) <= capped
      {
        CutBelowQuarter(capped, draw);
      }
    } else {
      LargestRoundsUp(capped);
    }
  }

  /** A draw and an error that together cut a little more than a quarter. */
  const LARGEST := Draw(1.0 - FloatError(0.5), FloatError(1.0))

  lemma LargestRoundsUp(capped: nat)
    requires capped < SHORT && capped % 4 >= 2
    ensures ValidDraw(LARGEST) && 4 * Cut(capped, LARGEST) > capped
  {
    hide Nearest, Times, Share;
    LargestShare();
    LargeShare(capped, Share(LARGEST));
  }

  lemma AboveQuarter(size: real, share: real)
    requires size > 0.0 && share > 0.25
    ensures Times(size, share) > 0.25 * size
  {
    ProductStrictlyBelow(size, 0.25, share);
  }

  /** Slightly more than a quarter of a delay that leaves 2 or 3 rounds up. */
  lemma LargeShare(capped: nat, share: real)
    requires capped < SHORT && capped % 4 >= 2 && 0.25 < share < Quarter(1.0)
    ensures 4 * Nearest(Times(capped as real, share)) > capped
  {
    hide Nearest, Times;
    var quarter, rest, size := capped / 4, capped % 4, capped as real;
    AboveQuarter(size, share);
    FloatProduct(size, share);
    BetweenHalves(capped, Times(size, share));
    NearestAbove(Times(size, share), quarter);
    assert capped == 4 * quarter + rest;
  }

  lemma BetweenHalves(capped: nat, product: real)
    requires capped < SHORT && capped % 4 >= 2 && 0.25 * capped as real < product <= Quarter(capped as real)
    ensures (capped / 4) as real + 0.5 < product < (capped / 4) as real + 1.0
  {
    var quarter, rest := capped / 4, capped % 4;
    assert capped == 4 * quarter + rest;
    assert capped as real == 4.0 * quarter as real + rest as real;
    assert FloatError(0.25 * capped as real) < 0.125;
  }

  lemma LargestShare()
    ensures ValidDraw(LARGEST) && 0.25 < Share(LARGEST) < Quarter(1.0)
  {
    var share := (1.0 + FloatError(1.0)) * ((1.0 - FloatError(0.5)) * 0.25);
    assert share > 0.25;
  }

  /** Of 3 nanoseconds, a draw of 0.9 leaves 2, which is less than three quarters. */
  lemma ShortDelayLosesMore()
    ensures Cut(3, Draw(0.9, 0.0)) == 1 && 4 * (3 - Cut(3, Draw(0.9, 0.0))) < 3 * 3
  {
  }

  /** The jitter leaves 75% to 100% of a delay, less the slack. */
  lemma BackoffInRange(policy: Policy, number: nat, draw: Draw)
    requires number >= 1 && ValidDraw(draw)
    ensures KeepsThreeQuarters(Backoff(policy, number, draw), Computed(policy, number))
    ensures 4 * Backoff(policy, number, draw) + Slack(Computed(policy, number), draw.error == 0.0)
         >= 3 * Computed(policy, number)
    ensures Backoff(policy, number, draw) <= Computed(policy, number) <= policy.cap
  {
    hide Cut, Pow2, Slack;
    CutFits(Computed(policy, number), draw);
    CutBelowQuarter(Computed(policy, number), draw);
  }

  /** A policy in whole microseconds, as the default one, loses nothing to the rounding. */
  lemma MicrosecondsKeepAll(policy: Policy, number: nat, draw: Draw)
    requires number >= 1 && ValidDraw(draw)
    requires policy.base % 1000 == 0 && policy.cap % 1000 == 0 && Computed(policy, number) < LONGEST
    requires draw.error == 0.0 || Computed(policy, number) < SHORT
    ensures 4 * Backoff(policy, number, draw) >= 3 * Computed(policy, number)
  {
    hide Cut, Pow2, Backoff;
    BackoffInRange(policy, number, draw);
    ProductOfThousands(policy.base, Pow2(Min(number - 1, 16)));
    assert Computed(policy, number) % 4 == 0;
  }

  lemma FourTimes(k: nat, n: nat)
    ensures 4 * k * n % 4 == 0
  {
    assert 4 * k * n == 4 * (k * n);
  }

  lemma ProductOfThousands(a: nat, n: nat)
    requires a % 1000 == 0
    ensures a * n % 4 == 0
  {
    FourTimes(a / 4, n);
  }

  lemma LargerFits(policy: Policy, info: AttemptInfo, number: nat, computed: Delay)
    requires number >= 1 && computed <= Computed(policy, number) <= policy.cap
    requires KeepsThreeQuarters(computed, Computed(policy, number))
    requires info.retryAfter.Some? ==> Nanoseconds(info.retryAfter.value) <= policy.retryAfterCap
    ensures DelayFits(policy, info, number, WithFloor(computed, info.retryAfter))
  {
    hide Computed;
  }

  /** A repeat follows only an attempt that gave no event, before the last attempt, after a delay in its bounds. */
  lemma RepeatsAreBounded(policy: Policy, cause: Cause, info: AttemptInfo, number: nat, draw: Draw)
    requires number >= 1 && ValidDraw(draw)
    requires Decide(policy, cause, info, number, draw).Some?
    ensures !info.outputSeen && number < policy.maxAttempts
    ensures DelayFits(policy, info, number, Decide(policy, cause, info, number, draw).value)
  {
    hide Computed, Backoff, DelayFits, Repeatable, KeepsThreeQuarters;
    BackoffInRange(policy, number, draw);
    LargerFits(policy, info, number, Backoff(policy, number, draw));
  }
}
