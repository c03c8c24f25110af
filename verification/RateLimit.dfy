/** The per-connection token bucket. Seconds and tokens are `real`, where the program uses `f64`. */
module RateLimit {
  datatype Settings = Settings(enabled: bool, perSecond: nat, burst: nat)

  /** `refill` tells how many tokens come in while some time passes. */
  datatype Bucket = Bucket(capacity: real, refill: real -> real, tokens: real, last: real)

  function Least(a: real, b: real): real {
    if a <= b then a else b
  }

  /** `saturating_duration_since`: a clock that went back counts as no time at all. */
  function Elapsed(from: real, to: real): real {
    if to >= from then to - from else 0.0
  }

  function Refill(rate: real, elapsed: real): real {
    elapsed * rate
  }

  function Linear(rate: real): real -> real {
    elapsed => Refill(rate, elapsed)
  }

  function Refilled(b: Bucket, now: real): Bucket {
    b.(tokens := Least(b.tokens + b.refill(Elapsed(b.last, now)), b.capacity), last := now)
  }

  function Acquire(b: Bucket, now: real): (Bucket, bool) {
    var full := Refilled(b, now);
    if full.tokens >= 1.0 then (full.(tokens := full.tokens - 1.0), true) else (full, false)
  }

  class TokenBucket {
    const capacity: real
    const refillPerSec: real
    var tokens: real
    var lastRefill: real

    ghost function Value(): Bucket
      reads this
    {
      Bucket(capacity, Linear(refillPerSec), tokens, lastRefill)
    }

    constructor (capacity: real, refillPerSec: real, now: real)
      ensures Value() == Bucket(capacity, Linear(refillPerSec), capacity, now) && this.refillPerSec == refillPerSec
    {
      this.capacity, this.refillPerSec := capacity, refillPerSec;
      tokens, lastRefill := capacity, now;
    }

    static method New(settings: Settings, now: real) returns (bucket: TokenBucket?)
      ensures bucket == null <==> !settings.enabled || settings.perSecond == 0 || settings.burst == 0
      ensures bucket != null ==> fresh(bucket) && bucket.Value() == Start(settings, now)
      ensures bucket != null ==> bucket.capacity == bucket.tokens == settings.burst as real
      ensures bucket != null ==> bucket.refillPerSec == settings.perSecond as real && bucket.lastRefill == now
    {
      if !settings.enabled || settings.perSecond == 0 || settings.burst == 0 {
        return null;
      }
      bucket := new TokenBucket(settings.burst as real, settings.perSecond as real, now);
    }

    method TryAcquire(now: real) returns (granted: bool)
      modifies this
      ensures (Value(), granted) == Acquire(old(Value()), now)
    {
      var elapsed := Elapsed(lastRefill, now);
      tokens := Least(tokens + Refill(refillPerSec, elapsed), capacity);
      lastRefill := now;
      if tokens >= 1.0 {
        tokens := tokens - 1.0;
        granted := true;
      } else {
        granted := false;
      }
    }
  }

  function Start(settings: Settings, now: real): Bucket {
    Bucket(settings.burst as real, Linear(settings.perSecond as real), settings.burst as real, now)
  }

  // ---- Whole histories of calls ----

  function After(b: Bucket, times: seq<real>): Bucket
    decreases |times|
  {
    if times == [] then b else Acquire(After(b, times[..|times| - 1]), times[|times| - 1]).0
  }

  predicate Granted(b: Bucket, times: seq<real>, j: nat)
    requires j < |times|
  {
    Acquire(After(b, times[..j]), times[j]).1
  }

  /** The decision on every call. */
  function Decisions(b: Bucket, times: seq<real>): (grants: seq<bool>)
    ensures |grants| == |times|
  {
    seq(|times|, j requires 0 <= j < |times| => Granted(b, times, j))
  }

  /** How many of the calls i, ..., j-1 were granted. */
  function Total(grants: seq<bool>, i: nat, j: nat): nat
    requires i <= j <= |grants|
    decreases j
  {
    if i == j then 0 else Total(grants, i, j - 1) + if grants[j - 1] then 1 else 0
  }

  /** What is refilled just before each call; before the first one the bucket is full anyway. */
  function Gains(b: Bucket, times: seq<real>): (gains: seq<real>)
    ensures |gains| == |times|
  {
    seq(|times|, j requires 0 <= j < |times| => if j == 0 then 0.0 else b.refill(Elapsed(times[j - 1], times[j])))
  }

  function Earned(gains: seq<real>, i: nat, j: nat): real
    requires i <= j < |gains|
    decreases j
  {
    if i == j then 0.0 else Earned(gains, i, j - 1) + gains[j]
  }

  ghost predicate Grows(refill: real -> real) {
    forall elapsed :: elapsed >= 0.0 ==> refill(elapsed) >= 0.0
  }

  ghost predicate Full(b: Bucket) {
    b.tokens == b.capacity && b.capacity >= 1.0 && Grows(b.refill)
  }

  // ---- The bucket as arithmetic on refills, with no clock ----

  /** Tokens when call j is decided, and the decision. */
  function Level(capacity: real, gains: seq<real>, j: nat): real
    requires j < |gains|
  {
    if j == 0 then capacity
    else Least(Level(capacity, gains, j - 1) - (if Level(capacity, gains, j - 1) >= 1.0 then 1.0 else 0.0) + gains[j], capacity)
  }

  ghost predicate Decided(capacity: real, gains: seq<real>, grants: seq<bool>) {
    |grants| == |gains| && forall j :: 0 <= j < |gains| ==> (grants[j] <==> Level(capacity, gains, j) >= 1.0)
  }

  /** What a window from call i to call j may still grant: burst plus refill, minus what it granted already. */
  function Allowance(capacity: real, gains: seq<real>, grants: seq<bool>, i: nat, j: nat): real
    requires |grants| == |gains| && i <= j < |gains|
  {
    capacity + Earned(gains, i, j) - Total(grants, i, j) as real
  }

  /** The level is the smallest allowance of any window that ends at this call. */
  lemma {:induction false} LevelIsTheTightestWindow(capacity: real, gains: seq<real>, grants: seq<bool>, j: nat)
    returns (tightest: nat)
    requires Decided(capacity, gains, grants) && j < |gains|
    ensures tightest <= j && Level(capacity, gains, j) == Allowance(capacity, gains, grants, tightest, j)
    ensures forall i :: 0 <= i <= j ==> Level(capacity, gains, j) <= Allowance(capacity, gains, grants, i, j)
  {
    if j == 0 {
      tightest := 0;
    } else {
      var before := LevelIsTheTightestWindow(capacity, gains, grants, j - 1);
      forall i | 0 <= i < j
        ensures Allowance(capacity, gains, grants, i, j)
             == Allowance(capacity, gains, grants, i, j - 1) - (if grants[j - 1] then 1.0 else 0.0) + gains[j]
      {
      }
      tightest := if Level(capacity, gains, j) == capacity then j else before;
    }
  }

  lemma {:induction false} LevelIsNotNegative(capacity: real, gains: seq<real>, j: nat)
    requires capacity >= 0.0 && j < |gains| && forall k :: 0 <= k < |gains| ==> gains[k] >= 0.0
    ensures Level(capacity, gains, j) >= 0.0
  {
    if j > 0 {
      LevelIsNotNegative(capacity, gains, j - 1);
    }
  }

  // ---- The program's bucket is that arithmetic ----

  lemma RefillIsNotNegative(rate: real, elapsed: real)
    requires rate >= 0.0 && elapsed >= 0.0
    ensures Refill(rate, elapsed) >= 0.0
  {
  }

  /** A bucket made from usable settings starts full. */
  lemma StartsFull(settings: Settings, now: real)
    requires settings.perSecond > 0 && settings.burst > 0
    ensures Full(Start(settings, now))
  {
    var rate := settings.perSecond as real;
    forall elapsed | elapsed >= 0.0 ensures Linear(rate)(elapsed) >= 0.0 {
      RefillIsNotNegative(rate, elapsed);
    }
  }

  lemma GainsAreNotNegative(b: Bucket, times: seq<real>)
    requires Full(b)
    ensures forall j :: 0 <= j < |times| ==> Gains(b, times)[j] >= 0.0
  {
    forall j | 0 < j < |times| ensures Gains(b, times)[j] >= 0.0 {
      assert b.refill(Elapsed(times[j - 1], times[j])) >= 0.0;
    }
  }

  lemma AfterStep(b: Bucket, times: seq<real>, j: nat)
    requires j < |times|
    ensures After(b, times[..j + 1]) == Acquire(After(b, times[..j]), times[j]).0
  {
    assert times[..j + 1][..j] == times[..j];
  }

  lemma GainAt(b: Bucket, times: seq<real>, j: nat)
    requires 0 < j < |times|
    ensures Gains(b, times)[j] == b.refill(Elapsed(times[j - 1], times[j]))
  {
  }

  /** Tokens left after the first `n` calls. */
  function Left(capacity: real, gains: seq<real>, n: nat): real
    requires n <= |gains|
  {
    if n == 0 then capacity
    else
      var level := Level(capacity, gains, n - 1);
      if level >= 1.0 then level - 1.0 else level
  }

  lemma AcquireWithGain(b: Bucket, now: real, gain: real)
    requires gain == b.refill(Elapsed(b.last, now))
    ensures var level := Least(b.tokens + gain, b.capacity);
            Acquire(b, now) == (b.(tokens := if level >= 1.0 then level - 1.0 else level, last := now), level >= 1.0)
  {
  }

  lemma FirstAcquire(b: Bucket, now: real)
    requires Full(b)
    ensures Acquire(b, now) == (b.(tokens := b.capacity - 1.0, last := now), true)
  {
    assert b.refill(Elapsed(b.last, now)) >= 0.0;
  }

  function Follower(b: Bucket, times: seq<real>, gains: seq<real>, n: nat): Bucket
    requires n <= |times| == |gains|
  {
    b.(tokens := Left(b.capacity, gains, n), last := if n == 0 then b.last else times[n - 1])
  }

  lemma FollowStep(b: Bucket, times: seq<real>, gains: seq<real>, j: nat)
    requires Full(b) && j < |times| == |gains|
    requires 0 < j ==> gains[j] == b.refill(Elapsed(times[j - 1], times[j]))
    ensures Acquire(Follower(b, times, gains, j), times[j])
         == (Follower(b, times, gains, j + 1), Level(b.capacity, gains, j) >= 1.0)
  {
    if j == 0 {
      FirstAcquire(b, times[0]);
    } else {
      AcquireWithGain(Follower(b, times, gains, j), times[j], gains[j]);
    }
  }

  lemma FollowNext(b: Bucket, times: seq<real>, j: nat)
    requires Full(b) && j < |times| && After(b, times[..j]) == Follower(b, times, Gains(b, times), j)
    ensures After(b, times[..j + 1]) == Follower(b, times, Gains(b, times), j + 1)
    ensures Granted(b, times, j) <==> Level(b.capacity, Gains(b, times), j) >= 1.0
  {
    AfterStep(b, times, j);
    FollowStep(b, times, Gains(b, times), j);
  }

  lemma FollowStart(b: Bucket, times: seq<real>, gains: seq<real>)
    requires Full(b) && |times| == |gains|
    ensures After(b, times[..0]) == Follower(b, times, gains, 0)
  {
    assert times[..0] == [];
  }

  lemma {:induction false} BucketFollows(b: Bucket, times: seq<real>, n: nat)
    requires Full(b) && n <= |times|
    ensures After(b, times[..n]) == Follower(b, times, Gains(b, times), n)
  {
    if n == 0 {
      FollowStart(b, times, Gains(b, times));
    } else {
      var j := n - 1;
      BucketFollows(b, times, j);
      FollowNext(b, times, j);
      assert j + 1 == n;
    }
  }

  lemma BucketDecides(b: Bucket, times: seq<real>)
    requires Full(b)
    ensures Decided(b.capacity, Gains(b, times), Decisions(b, times))
  {
    forall j | 0 <= j < |times|
      ensures Decisions(b, times)[j] <==> Level(b.capacity, Gains(b, times), j) >= 1.0
    {
      BucketFollows(b, times, j);
      FollowNext(b, times, j);
    }
  }

  // ---- The limit ----

  /** A call is refused if and only if some window ending at it has no room for one more grant. */
  lemma RefusedExactlyWhenAWindowIsFull(b: Bucket, times: seq<real>, j: nat)
    requires Full(b) && j < |times|
    ensures !Granted(b, times, j) <==>
      exists i :: 0 <= i < j && Allowance(b.capacity, Gains(b, times), Decisions(b, times), i, j) < 1.0
  {
    var gains, grants := Gains(b, times), Decisions(b, times);
    BucketDecides(b, times);
    var tightest := LevelIsTheTightestWindow(b.capacity, gains, grants, j);
    assert Granted(b, times, j) <==> grants[j];
    if !grants[j] {
      assert Allowance(b.capacity, gains, grants, tightest, j) < 1.0;
      assert Allowance(b.capacity, gains, grants, j, j) == b.capacity;
    }
  }

  lemma DecisionsAreBounded(capacity: real, gains: seq<real>, grants: seq<bool>, i: nat, j: nat)
    requires Decided(capacity, gains, grants) && i <= j < |gains|
    requires capacity >= 0.0 && forall k :: 0 <= k < |gains| ==> gains[k] >= 0.0
    ensures Total(grants, i, j + 1) as real <= capacity + Earned(gains, i, j)
  {
    var tightest := LevelIsTheTightestWindow(capacity, gains, grants, j);
    LevelIsNotNegative(capacity, gains, j);
    assert Level(capacity, gains, j) <= Allowance(capacity, gains, grants, i, j);
    assert Total(grants, i, j + 1) == Total(grants, i, j) + if grants[j] then 1 else 0;
  }

  /** Every window, on every clock: grants never exceed burst plus what was refilled. */
  lemma WindowBound(b: Bucket, times: seq<real>, i: nat, j: nat)
    requires Full(b) && i <= j < |times|
    ensures Total(Decisions(b, times), i, j + 1) as real <= b.capacity + Earned(Gains(b, times), i, j)
  {
    BucketDecides(b, times);
    GainsAreNotNegative(b, times);
    DecisionsAreBounded(b.capacity, Gains(b, times), Decisions(b, times), i, j);
  }

  /** The clock does not go back within the window. */
  ghost predicate NeverBack(times: seq<real>, i: nat, j: nat)
    requires j < |times|
  {
    forall k :: i < k <= j ==> Forward(times, k)
  }

  predicate Forward(times: seq<real>, k: int)
    requires 0 < k < |times|
  {
    times[k - 1] <= times[k]
  }

  function Rise(marks: seq<real>, k: int): real
    requires 0 < k < |marks|
  {
    marks[k] - marks[k - 1]
  }

  /** Gains that are each at least a difference of marks sum up to at least the whole difference, and to exactly that
      only if each is exact. */
  lemma {:induction false} EarnedAgainstMarks(gains: seq<real>, marks: seq<real>, i: nat, j: nat)
    requires |gains| == |marks| && i <= j < |gains|
    requires forall k :: 0 < k < |gains| ==> gains[k] >= Rise(marks, k)
    ensures Earned(gains, i, j) >= marks[j] - marks[i]
    ensures Earned(gains, i, j) == marks[j] - marks[i] <==> forall k :: i < k <= j ==> gains[k] == Rise(marks, k)
    decreases j
  {
    if i < j {
      EarnedAgainstMarks(gains, marks, i, j - 1);
    }
  }

  lemma Distribute(r: real, from: real, to: real)
    ensures Refill(r, to - from) == Refill(r, to) - Refill(r, from)
  {
  }

  function Marks(r: real, times: seq<real>): (marks: seq<real>)
    ensures |marks| == |times|
  {
    seq(|times|, k requires 0 <= k < |times| => Refill(r, times[k]))
  }

  lemma MarkAt(r: real, times: seq<real>, k: nat)
    requires k < |times|
    ensures Marks(r, times)[k] == Refill(r, times[k])
  {
  }

  lemma RefillAgainstClock(r: real, from: real, to: real)
    requires r > 0.0
    ensures Refill(r, Elapsed(from, to)) >= Refill(r, to) - Refill(r, from)
    ensures Refill(r, Elapsed(from, to)) == Refill(r, to) - Refill(r, from) <==> from <= to
  {
    Distribute(r, from, to);
    assert from > to ==> r * (to - from) < 0.0;
  }

  lemma GainAgainstMarks(b: Bucket, rate: real, times: seq<real>, j: nat, k: nat)
    requires rate > 0.0 && b.refill == Linear(rate) && k == j + 1 < |times|
    ensures Gains(b, times)[k] >= Marks(rate, times)[k] - Marks(rate, times)[j]
    ensures Gains(b, times)[k] == Marks(rate, times)[k] - Marks(rate, times)[j] <==> times[j] <= times[k]
  {
    var from, to := times[j], times[k];
    assert Gains(b, times)[k] == Linear(rate)(Elapsed(from, to)) by { GainAt(b, times, k); }
    assert Marks(rate, times)[k] == Refill(rate, to) by { MarkAt(rate, times, k); }
    assert Marks(rate, times)[j] == Refill(rate, from) by { MarkAt(rate, times, j); }
    RefillAgainstClock(rate, from, to);
  }

  lemma EarnedIsDifferenceExactlyWhen(b: Bucket, rate: real, times: seq<real>, i: nat, j: nat)
    requires rate > 0.0 && b.refill == Linear(rate) && i <= j < |times|
    ensures Earned(Gains(b, times), i, j) >= Marks(rate, times)[j] - Marks(rate, times)[i]
    ensures Earned(Gains(b, times), i, j) == Marks(rate, times)[j] - Marks(rate, times)[i] <==> NeverBack(times, i, j)
  {
    var gains, marks := Gains(b, times), Marks(rate, times);
    forall k | 0 < k < |times|
      ensures gains[k] >= Rise(marks, k)
      ensures gains[k] == Rise(marks, k) <==> Forward(times, k)
    {
      GainAgainstMarks(b, rate, times, k - 1, k);
    }
    EarnedAgainstMarks(gains, marks, i, j);
  }

  lemma DifferenceOfMarks(r: real, times: seq<real>, i: nat, j: nat)
    requires i < |times| && j < |times|
    ensures Marks(r, times)[j] - Marks(r, times)[i] == Refill(r, times[j] - times[i])
  {
    MarkAt(r, times, i);
    MarkAt(r, times, j);
    Distribute(r, times[i], times[j]);
  }

  /** What is refilled in a window is at least rate times its length, and exactly that if and only if the clock
      does not go back within the window. */
  lemma RefillIsRateTimesLengthExactlyWhen(b: Bucket, rate: real, times: seq<real>, i: nat, j: nat)
    requires rate > 0.0 && b.refill == Linear(rate) && i <= j < |times|
    ensures Earned(Gains(b, times), i, j) >= Refill(rate, times[j] - times[i])
    ensures Earned(Gains(b, times), i, j) == Refill(rate, times[j] - times[i]) <==> NeverBack(times, i, j)
  {
    EarnedIsDifferenceExactlyWhen(b, rate, times, i, j);
    DifferenceOfMarks(rate, times, i, j);
  }

  /** The advertised limit: a window within which the clock does not go back grants at most burst + rate * length. */
  lemma AdvertisedLimit(settings: Settings, now: real, times: seq<real>, i: nat, j: nat)
    requires settings.perSecond > 0 && settings.burst > 0 && i <= j < |times| && NeverBack(times, i, j)
    ensures var b, rate := Start(settings, now), settings.perSecond as real;
            Total(Decisions(b, times), i, j + 1) as real <= settings.burst as real + Refill(rate, times[j] - times[i])
  {
    StartsFull(settings, now);
    WindowBound(Start(settings, now), times, i, j);
    RefillIsRateTimesLengthExactlyWhen(Start(settings, now), settings.perSecond as real, times, i, j);
  }

  /** If the clock has not gone back so far, a call is refused if and only if some window that ends at it has no room for
      one more grant within burst + rate * length. */
  lemma AdvertisedRefusal(settings: Settings, now: real, times: seq<real>, j: nat)
    requires settings.perSecond > 0 && settings.burst > 0 && j < |times| && NeverBack(times, 0, j)
    ensures var b, rate := Start(settings, now), settings.perSecond as real;
            !Granted(b, times, j) <==>
              exists k :: 0 <= k < j && settings.burst as real + Refill(rate, times[j] - times[k]) - Total(Decisions(b, times), k, j) as real < 1.0
  {
    var b, rate := Start(settings, now), settings.perSecond as real;
    StartsFull(settings, now);
    RefusedExactlyWhenAWindowIsFull(b, times, j);
    forall k | 0 <= k < j
      ensures Allowance(b.capacity, Gains(b, times), Decisions(b, times), k, j)
           == b.capacity + Refill(rate, times[j] - times[k]) - Total(Decisions(b, times), k, j) as real
    {
      assert NeverBack(times, k, j);
      RefillIsRateTimesLengthExactlyWhen(b, rate, times, k, j);
    }
  }

  /** A clock that goes back defeats the advertised limit: two grants in a window of no length, burst one. */
  lemma BackwardClockBreaksTheLimit()
    ensures var b := Start(Settings(true, 1, 1), 0.0);
            var times := [1.0, 0.0, 1.0];
            Full(b) && Total(Decisions(b, times), 0, 3) as real > b.capacity + Refill(1.0, times[2] - times[0])
  {
    var b := Start(Settings(true, 1, 1), 0.0);
    var times := [1.0, 0.0, 1.0];
    var grants := Decisions(b, times);
    AfterStep(b, times, 0);
    AfterStep(b, times, 1);
    assert times[..0] == [];
    assert After(b, times[..1]) == b.(tokens := 0.0, last := 1.0);
    assert After(b, times[..2]) == b.(tokens := 0.0, last := 0.0);
    assert grants[0] && !grants[1] && grants[2];
    assert Total(grants, 0, 1) == 1;
    assert Total(grants, 0, 2) == 1;
    assert Refill(1.0, times[2] - times[0]) == 0.0;
    StartsFull(Settings(true, 1, 1), 0.0);
  }

  // ---- No limiter with the same bound admits more ----

  lemma {:induction false} TotalSplits(grants: seq<bool>, i: nat, j: nat)
    requires i <= j <= |grants|
    ensures Total(grants, 0, j) == Total(grants, 0, i) + Total(grants, i, j)
    decreases j
  {
    if i < j {
      TotalSplits(grants, i, j - 1);
    }
  }

  /** Another limiter's choices on the same calls, kept within the same bound on every window. */
  ghost predicate WithinBound(b: Bucket, times: seq<real>, choices: seq<bool>) {
    && |choices| == |times|
    && forall i, j :: 0 <= i <= j < |times| ==>
         Total(choices, i, j + 1) as real <= b.capacity + Earned(Gains(b, times), i, j)
  }

  /** Whoever grants a call that the bucket refuses has granted fewer in some window before it. */
  lemma RefusalCostsNothing(b: Bucket, times: seq<real>, choices: seq<bool>, j: nat) returns (i: nat)
    requires Full(b) && WithinBound(b, times, choices) && j < |times| && choices[j] && !Decisions(b, times)[j]
    ensures i < j && Total(choices, i, j) + 1 <= Total(Decisions(b, times), i, j)
  {
    var grants := Decisions(b, times);
    assert !Granted(b, times, j);
    RefusedExactlyWhenAWindowIsFull(b, times, j);
    i :| 0 <= i < j && Allowance(b.capacity, Gains(b, times), grants, i, j) < 1.0;
    assert Total(choices, i, j + 1) == Total(choices, i, j) + 1;
  }

  /** After any number of calls, no limiter that respects the bound has granted more than the bucket. */
  lemma {:induction false} BucketIsOptimal(b: Bucket, times: seq<real>, choices: seq<bool>, n: nat)
    requires Full(b) && WithinBound(b, times, choices) && n <= |times|
    ensures Total(choices, 0, n) <= Total(Decisions(b, times), 0, n)
  {
    if n > 0 {
      var j, grants := n - 1, Decisions(b, times);
      BucketIsOptimal(b, times, choices, j);
      if choices[j] && !grants[j] {
        var i := RefusalCostsNothing(b, times, choices, j);
        BucketIsOptimal(b, times, choices, i);
        TotalSplits(grants, i, j);
        TotalSplits(choices, i, j);
      }
    }
  }

  /** On every clock: no limiter that keeps every window within burst + rate * length has granted more than the bucket,
      after any number of calls. */
  lemma AdvertisedIsOptimal(settings: Settings, now: real, times: seq<real>, choices: seq<bool>, n: nat)
    requires settings.perSecond > 0 && settings.burst > 0 && |choices| == |times| && n <= |times|
    requires forall i, j :: 0 <= i <= j < |times| ==>
      Total(choices, i, j + 1) as real <= settings.burst as real + Refill(settings.perSecond as real, times[j] - times[i])
    ensures Total(choices, 0, n) <= Total(Decisions(Start(settings, now), times), 0, n)
  {
    var b, rate := Start(settings, now), settings.perSecond as real;
    StartsFull(settings, now);
    forall i, j | 0 <= i <= j < |times|
      ensures Total(choices, i, j + 1) as real <= b.capacity + Earned(Gains(b, times), i, j)
    {
      RefillIsRateTimesLengthExactlyWhen(b, rate, times, i, j);
    }
    BucketIsOptimal(b, times, choices, n);
  }
}
