/** The adaptive round timer (consensus/src/timer.rs), in exact arithmetic: an estimate of
    the round time and of its deviation as in section 2.3 of RFC 6298. */
module Timer {
  import opened Messages

  const MIN_TIMEOUT := 1500
  const MAX_TIMEOUT := 30000

  datatype Estimate = Estimate(rtt: real, dev: real, timeout: nat)

  function Abs(x: real): real {
    if x < 0.0 then -x else x
  }

  function Clamp(x: real): (r: real)
    ensures MIN_TIMEOUT as real <= r <= MAX_TIMEOUT as real
  {
    var atLeast := if x < MIN_TIMEOUT as real then MIN_TIMEOUT as real else x;
    if atLeast > MAX_TIMEOUT as real then MAX_TIMEOUT as real else atLeast
  }

  function Initial(timeout: nat): Estimate {
    Estimate(timeout as real, timeout as real / 4.0, timeout)
  }

  /** The deviation is updated with the error of the old estimate, then the estimate:
      alpha is 1/8 and beta is 1/4. */
  function Update(e: Estimate, sample: nat): Estimate {
    var error := Abs(sample as real - e.rtt);
    var dev := (1.0 - 0.25) * e.dev + 0.25 * error;
    var rtt := (1.0 - 0.125) * e.rtt + 0.125 * sample as real;
    Estimate(rtt, dev, Clamp(rtt + 4.0 * dev).Floor)
  }

  function UpdateAll(e: Estimate, samples: seq<nat>): Estimate
    decreases |samples|
  {
    if samples == [] then e else Update(UpdateAll(e, samples[..|samples| - 1]), samples[|samples| - 1])
  }

  class Timer {
    var estimatedRtt: real
    var devRtt: real
    var currentTimeout: nat
    var roundStartTime: Option<nat>
    var deadline: nat

    function State(): Estimate
      reads this
    {
      Estimate(estimatedRtt, devRtt, currentTimeout)
    }

    constructor (initialTimeout: nat, now: nat)
      ensures State() == Initial(initialTimeout)
      ensures roundStartTime == None && deadline == now + initialTimeout
    {
      estimatedRtt := initialTimeout as real;
      devRtt := initialTimeout as real / 4.0;
      currentTimeout := initialTimeout;
      roundStartTime := None;
      deadline := now + initialTimeout;
    }

    method StartRound(now: nat)
      modifies this`roundStartTime
      ensures roundStartTime == Some(now)
    {
      roundStartTime := Some(now);
    }

    /** Takes a sample if a round was started; the clock does not go backwards. */
    method OnRoundComplete(now: nat)
      requires roundStartTime.Some? ==> roundStartTime.value <= now
      modifies this`estimatedRtt, this`devRtt, this`currentTimeout
      ensures State() == if roundStartTime.None? then old(State())
                         else Update(old(State()), now - roundStartTime.value)
    {
      if roundStartTime.Some? {
        var sampleRtt := (now - roundStartTime.value) as real;
        var error := Abs(sampleRtt - estimatedRtt);
        devRtt := (1.0 - 0.25) * devRtt + 0.25 * error;
        estimatedRtt := (1.0 - 0.125) * estimatedRtt + 0.125 * sampleRtt;
        var calculatedTimeout := estimatedRtt + 4.0 * devRtt;
        currentTimeout := Clamp(calculatedTimeout).Floor;
      }
    }

    /** Starts a round and arms the alarm. */
    method Reset(now: nat)
      modifies this`roundStartTime, this`deadline
      ensures roundStartTime == Some(now) && deadline == now + currentTimeout
    {
      StartRound(now);
      deadline := now + currentTimeout;
    }
  }

  // ---------- any samples ----------

  lemma {:induction false} DeviationNotNegative(e: Estimate, samples: seq<nat>)
    requires e.dev >= 0.0
    ensures UpdateAll(e, samples).dev >= 0.0
    decreases |samples|
  {
    if samples != [] {
      DeviationNotNegative(e, samples[..|samples| - 1]);
    }
  }

  /** Right after any update, whatever came before, the timeout covers the last sample up
      to its cap, and it respects its bounds. */
  lemma TimeoutCoversSample(initial: nat, samples: seq<nat>, sample: nat)
    ensures var e := UpdateAll(Initial(initial), samples + [sample]);
            && e.rtt + 4.0 * e.dev >= sample as real
            && e.timeout >= (if sample < 30000 then sample else 30000)
            && 1500 <= e.timeout <= 30000
  {
    var all := samples + [sample];
    assert all[..|all| - 1] == samples;
    DeviationNotNegative(Initial(initial), samples);
    UpdateCovers(UpdateAll(Initial(initial), samples), sample);
  }

  lemma UpdateCovers(e: Estimate, sample: nat)
    requires e.dev >= 0.0
    ensures var e' := Update(e, sample);
            && e'.rtt + 4.0 * e'.dev >= sample as real
            && e'.timeout >= (if sample < MAX_TIMEOUT then sample else MAX_TIMEOUT)
            && MIN_TIMEOUT <= e'.timeout <= MAX_TIMEOUT
  {
    var e' := Update(e, sample);
    var least := if sample < MAX_TIMEOUT then sample else MAX_TIMEOUT;
    assert e'.rtt + 4.0 * e'.dev >= sample as real;
    FloorAtLeast(Clamp(e'.rtt + 4.0 * e'.dev), least);
    FloorAtLeast(Clamp(e'.rtt + 4.0 * e'.dev), MIN_TIMEOUT);
  }

  lemma FloorAtLeast(x: real, n: int)
    requires x >= n as real
    ensures x.Floor >= n
  {
  }

  /** The estimate never leaves the interval spanned by its start and the samples. */
  lemma {:induction false} EstimateInHull(e: Estimate, samples: seq<nat>, low: real, high: real)
    requires low <= e.rtt <= high
    requires forall i | 0 <= i < |samples| :: low <= samples[i] as real <= high
    ensures low <= UpdateAll(e, samples).rtt <= high
    decreases |samples|
  {
    if samples != [] {
      var init, last := samples[..|samples| - 1], samples[|samples| - 1];
      EstimateInHull(e, init, low, high);
      assert low <= last as real <= high;
    }
  }

  // ---------- the estimate as a function of all samples ----------

  /** `x` after shrinking to 7/8 of itself `n` times. */
  function Decayed(x: real, n: nat): real {
    if n == 0 then x else 0.875 * Decayed(x, n - 1)
  }

  /** `x` after shrinking to 3/4 of itself `n` times. */
  function Faded(x: real, n: nat): real {
    if n == 0 then x else 0.75 * Faded(x, n - 1)
  }

  /** The first `upTo` of `n` samples, each with the weight 1/8 and shrunk to 7/8 by every
      later one. */
  function SampleSum(samples: seq<nat>, n: nat, upTo: nat): real
    requires upTo <= n <= |samples|
  {
    if upTo == 0 then 0.0
    else SampleSum(samples, n, upTo - 1) + 0.125 * Decayed(samples[upTo - 1] as real, n - upTo)
  }

  /** The estimate after `n` samples. */
  function EstimateOf(start: Estimate, samples: seq<nat>, n: nat): real
    requires n <= |samples|
  {
    Decayed(start.rtt, n) + SampleSum(samples, n, n)
  }

  /** The distances of the samples from the estimates before them, each with the weight 1/4
      and shrunk to 3/4 by every later one. */
  function ErrorSum(start: Estimate, samples: seq<nat>, n: nat, upTo: nat): real
    requires upTo <= n <= |samples|
  {
    if upTo == 0 then 0.0
    else
      var error := Abs(samples[upTo - 1] as real - EstimateOf(start, samples, upTo - 1));
      ErrorSum(start, samples, n, upTo - 1) + 0.25 * Faded(error, n - upTo)
  }

  function DeviationOf(start: Estimate, samples: seq<nat>, n: nat): real
    requires n <= |samples|
  {
    Faded(start.dev, n) + ErrorSum(start, samples, n, n)
  }

  lemma {:induction false} SampleSumShrinks(samples: seq<nat>, n: nat, upTo: nat)
    requires upTo <= n < |samples|
    ensures SampleSum(samples, n + 1, upTo) == 0.875 * SampleSum(samples, n, upTo)
    decreases upTo
  {
    if upTo > 0 {
      SampleSumShrinks(samples, n, upTo - 1);
    }
  }

  lemma {:induction false} ErrorSumShrinks(start: Estimate, samples: seq<nat>, n: nat, upTo: nat)
    requires upTo <= n < |samples|
    ensures ErrorSum(start, samples, n + 1, upTo) == 0.75 * ErrorSum(start, samples, n, upTo)
    decreases upTo
  {
    if upTo > 0 {
      ErrorSumShrinks(start, samples, n, upTo - 1);
    }
  }

  /** The estimate and the deviation after any samples: the start, and each sample or its
      distance from the estimate before it, with weights that fall off by 7/8 and 3/4. */
  lemma {:induction false} EstimateExact(start: Estimate, samples: seq<nat>, n: nat)
    requires n <= |samples|
    ensures UpdateAll(start, samples[..n]).rtt == EstimateOf(start, samples, n)
    ensures UpdateAll(start, samples[..n]).dev == DeviationOf(start, samples, n)
    decreases n
  {
    if n > 0 {
      EstimateExact(start, samples, n - 1);
      SampleSumShrinks(samples, n - 1, n - 1);
      ErrorSumShrinks(start, samples, n - 1, n - 1);
      assert samples[..n][..n - 1] == samples[..n - 1];
    }
  }

  /** The timeout after any samples: the estimate and four deviations, held between 1500 and
      30000 and then cut to whole milliseconds. */
  lemma TimeoutExact(initial: nat, samples: seq<nat>)
    requires samples != []
    ensures var (start, n) := (Initial(initial), |samples|);
            var x := EstimateOf(start, samples, n) + 4.0 * DeviationOf(start, samples, n);
            var timeout := UpdateAll(start, samples).timeout;
            && start == Estimate(initial as real, initial as real / 4.0, initial)
            && (x <= 1500.0 ==> timeout == 1500)
            && (x >= 30000.0 ==> timeout == 30000)
            && (1500.0 <= x <= 30000.0 ==> timeout as real <= x < timeout as real + 1.0)
  {
    assert samples[..|samples|] == samples;
    EstimateExact(Initial(initial), samples, |samples|);
  }

  // ---------- a constant sample ----------

  function Repeat(sample: nat, n: nat): seq<nat> {
    seq(n, _ => sample)
  }

  function After(e: Estimate, sample: nat, n: nat): Estimate {
    UpdateAll(e, Repeat(sample, n))
  }

  lemma OneMore(e: Estimate, sample: nat, n: nat)
    requires n > 0
    ensures After(e, sample, n) == Update(After(e, sample, n - 1), sample)
  {
    assert Repeat(sample, n)[..n - 1] == Repeat(sample, n - 1);
  }

  /** The error of the estimate shrinks by exactly 7/8 per sample. */
  lemma {:induction false} ErrorDecays(e: Estimate, sample: nat, n: nat)
    ensures After(e, sample, n).rtt - sample as real == Decayed(e.rtt - sample as real, n)
    decreases n
  {
    if n > 0 {
      ErrorDecays(e, sample, n - 1);
      OneMore(e, sample, n);
    }
  }

  lemma {:induction false} DecayedDistance(x: real, n: nat)
    ensures Abs(Decayed(x, n)) == Decayed(Abs(x), n)
    decreases n
  {
    if n > 0 {
      DecayedDistance(x, n - 1);
    }
  }

  /** The deviation under a constant sample: its start fades by 3/4 per sample, and the
      first error comes in and decays. */
  lemma {:induction false} DeviationExact(e: Estimate, sample: nat, n: nat)
    ensures var error := Abs(e.rtt - sample as real);
            After(e, sample, n).dev == Faded(e.dev, n) + 2.0 * (Decayed(error, n) - Faded(error, n))
    decreases n
  {
    if n > 0 {
      DeviationExact(e, sample, n - 1);
      OneMore(e, sample, n);
      ErrorDecays(e, sample, n - 1);
      DecayedDistance(e.rtt - sample as real, n - 1);
    }
  }

  lemma {:induction false} DecayedOrder(x: real, scale: real, n: nat)
    requires 2.0 * Abs(x) <= scale
    ensures 2.0 * Abs(Decayed(x, n)) <= Decayed(scale, n)
    decreases n
  {
    if n > 0 {
      DecayedOrder(x, scale, n - 1);
    }
  }

  /** The deviation decays as fast as the error of the estimate. */
  lemma {:induction false} DeviationDecays(e: Estimate, sample: nat, n: nat, scale: real)
    requires e.dev >= 0.0 && scale >= e.dev && scale >= 2.0 * Abs(e.rtt - sample as real)
    ensures 0.0 <= After(e, sample, n).dev <= Decayed(scale, n)
    decreases n
  {
    if n > 0 {
      DeviationDecays(e, sample, n - 1, scale);
      OneMore(e, sample, n);
      ErrorDecays(e, sample, n - 1);
      DecayedOrder(e.rtt - sample as real, scale, n - 1);
    }
  }

  lemma {:induction false} DecayedBound(scale: real, n: nat)
    requires scale >= 0.0
    ensures Decayed(scale, n) >= 0.0 && Decayed(scale, n) * (n + 8) as real <= 8.0 * scale
    decreases n
  {
    if n > 0 {
      DecayedBound(scale, n - 1);
      var d := Decayed(scale, n - 1);
      assert d * (n + 7) as real <= 8.0 * scale;
      assert d * (n + 7) as real >= d * 8.0;
      assert (0.875 * d) * (n + 8) as real == 0.875 * (d * (n + 7) as real) + 0.875 * d;
    }
  }

  /** From some point on, the decay beats any bound. */
  lemma Settled(scale: real, epsilon: real) returns (n0: nat)
    requires scale >= 0.0 && epsilon > 0.0
    ensures forall n: nat | n >= n0 :: Decayed(scale, n) < epsilon
  {
    n0 := (8.0 * scale / epsilon).Floor + 1;
    forall n: nat | n >= n0 ensures Decayed(scale, n) < epsilon {
      DecayedBound(scale, n);
      SmallEnough(8.0 * scale, epsilon, Decayed(scale, n), (n + 8) as real);
    }
  }

  lemma SmallEnough(bound: real, epsilon: real, d: real, m: real)
    requires epsilon > 0.0 && m > 0.0 && d * m <= bound && bound / epsilon < m
    ensures d < epsilon
  {
    var q := bound / epsilon;
    assert q * epsilon == bound;
    assert (m - q) * epsilon > 0.0;
    assert d >= epsilon ==> (d - epsilon) * m >= 0.0;
  }

  /** The deviation tends to zero under a constant sample. */
  lemma DeviationVanishes(e: Estimate, sample: nat, epsilon: real) returns (n0: nat)
    requires e.dev >= 0.0 && epsilon > 0.0
    ensures forall n | n >= n0 :: 0.0 <= After(e, sample, n).dev < epsilon
  {
    var scale := e.dev + 2.0 * Abs(e.rtt - sample as real);
    n0 := Settled(scale, epsilon);
    forall n | n >= n0 ensures 0.0 <= After(e, sample, n).dev < epsilon {
      DeviationDecays(e, sample, n, scale);
      assert Decayed(scale, n) < epsilon;
    }
  }

  /** Under a constant sample the timeout settles: from some point on it is exactly the
      sample, held within the timer's bounds. */
  lemma TimeoutSettles(e: Estimate, sample: nat) returns (n0: nat)
    requires e.dev >= 0.0
    ensures forall n | n >= n0 ::
              After(e, sample, n).timeout ==
                if sample < MIN_TIMEOUT then MIN_TIMEOUT
                else if sample > MAX_TIMEOUT then MAX_TIMEOUT else sample
  {
    var scale := e.dev + 2.0 * Abs(e.rtt - sample as real);
    var settled := Settled(scale, 0.2);
    n0 := settled + 1;
    forall n | n >= n0
      ensures After(e, sample, n).timeout ==
                if sample < MIN_TIMEOUT then MIN_TIMEOUT
                else if sample > MAX_TIMEOUT then MAX_TIMEOUT else sample
    {
      assert Decayed(scale, n) < 0.2;
      ErrorDecays(e, sample, n);
      DecayedOrder(e.rtt - sample as real, scale, n);
      DeviationDecays(e, sample, n, scale);
      OneMore(e, sample, n);
      DeviationNotNegative(e, Repeat(sample, n - 1));
      UpdateCovers(After(e, sample, n - 1), sample);
      SettledTimeout(After(e, sample, n - 1), sample);
    }
  }

  lemma SettledTimeout(e: Estimate, sample: nat)
    requires e.dev >= 0.0
    requires var e' := Update(e, sample); e'.rtt + 4.0 * e'.dev < sample as real + 1.0
    ensures Update(e, sample).timeout ==
              if sample < MIN_TIMEOUT then MIN_TIMEOUT
              else if sample > MAX_TIMEOUT then MAX_TIMEOUT else sample
  {
    UpdateCovers(e, sample);
  }
}
