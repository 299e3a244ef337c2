/**
  The sliding average of the timing counters (internal/balancer/counters.go): a running sum
  that is the exact sum of up to 1024 samples and afterwards gives up a 1024th part, rounded
  up, for every sample it takes in. The sum is an unsigned 64-bit word.
 */
module SlidingAverage {
  import opened Common

  const SAMPLES: int := 1024
  const WORD: int := 0x1_0000_0000_0000_0000

  /** Samples are durations in whole milliseconds; a duration is a signed 64-bit number of
      nanoseconds. */
  const MAX_MILLIS: int := 9223372036854

  datatype Rate = Rate(sum: int, n: int)

  /** One sample, in the word arithmetic of the source. */
  function After(r: Rate, sample: int): Rate
  {
    var v := if sample < 0 then 0 else sample;
    if r.n < SAMPLES then Rate((r.sum + v) % WORD, r.n + 1)
    else Rate((r.sum - (r.sum + r.n - 1) % WORD / (if r.n == 0 then 1 else r.n) + v) % WORD, r.n)
  }

  /** A word read as a signed number. */
  function Signed(x: int): int
  {
    if x >= WORD / 2 then x - WORD else x
  }

  function Average(r: Rate): int
  {
    if r.n == 0 then 0 else Signed(r.sum / r.n)
  }

  function Run(samples: seq<int>): Rate
  {
    if samples == [] then Rate(0, 0) else After(Run(samples[..|samples| - 1]), samples[|samples| - 1])
  }

  function Sum(samples: seq<int>): int
  {
    if samples == [] then 0 else Sum(samples[..|samples| - 1]) + samples[|samples| - 1]
  }

  class Swrate {
    var sum: int
    var n: int

    function View(): Rate
      reads this
    {
      Rate(sum, n)
    }

    constructor ()
      ensures View() == Run([])
    {
      sum, n := 0, 0;
    }

    method Add(sample: int)
      requires 0 <= n <= SAMPLES && 0 <= sum < WORD
      modifies this
      ensures View() == After(old(View()), sample)
      ensures 0 <= n <= SAMPLES && 0 <= sum < WORD
    {
      var v := sample;
      if v < 0 {
        v := 0;
      }
      if n < SAMPLES {
        n := n + 1;
        sum := (sum + v) % WORD;
      } else {
        sum := (sum - (sum + n - 1) % WORD / n + v) % WORD;
      }
    }

    method Avg() returns (avg: int)
      requires 0 <= n <= SAMPLES && 0 <= sum < WORD
      ensures avg == Average(View())
    {
      if n == 0 {
        return 0;
      }
      avg := Signed(sum / n);
    }
  }

  lemma Quotient(sum: int, n: int, low: int, high: int)
    requires n > 0 && n * low <= sum <= n * high
    ensures low <= sum / n <= high
  {
    var q := sum / n;
    assert sum == q * n + sum % n;
    MulOrder(q + 1, low, n);
    MulOrder(high + 1, q, n);
  }

  lemma MulOrder(x: int, y: int, n: int)
    requires n > 0
    ensures x <= y ==> x * n <= y * n
    ensures (x - 1) * n == x * n - n && (x + 1) * n == x * n + n
  {
  }

  /** Giving up a 1024th, rounded up, and taking in a sample keeps the sum between 1024 times
      the bounds: it neither underflows nor outgrows them. */
  lemma WindowStep(sum: int, low: int, high: int, v: int)
    requires 0 <= low <= v <= high && SAMPLES * low <= sum <= SAMPLES * high
    ensures var part := (sum + SAMPLES - 1) / SAMPLES;
            0 <= part <= sum && SAMPLES * low <= sum - part + v <= SAMPLES * high
  {
  }

  /** For every stream of samples within bounds the sum stays between n times the bounds, no
      word overflows or underflows, and up to 1024 samples it is their exact sum. */
  lemma {:induction false} Bounds(samples: seq<int>, low: int, high: int)
    requires 0 <= low <= high <= MAX_MILLIS && forall i :: 0 <= i < |samples| ==> low <= samples[i] <= high
    ensures var r := Run(samples);
            r.n == (if |samples| < SAMPLES then |samples| else SAMPLES) &&
            r.n * low <= r.sum <= r.n * high &&
            0 <= r.sum < WORD &&
            (|samples| <= SAMPLES ==> r.sum == Sum(samples))
  {
    if samples != [] {
      var k := |samples| - 1;
      var r, v := Run(samples[..k]), samples[k];
      Bounds(samples[..k], low, high);
      StepBounds(r, v, low, high);
    }
  }

  lemma StepBounds(r: Rate, v: int, low: int, high: int)
    requires 0 <= low <= v <= high <= MAX_MILLIS
    requires 0 <= r.n <= SAMPLES && r.n * low <= r.sum <= r.n * high && 0 <= r.sum
    ensures var r' := After(r, v);
            r'.n == (if r.n < SAMPLES then r.n + 1 else SAMPLES) &&
            r'.n * low <= r'.sum <= r'.n * high && 0 <= r'.sum < WORD &&
            (r.n < SAMPLES ==> r'.sum == r.sum + v)
  {
    Grows(r.n, low, high);
    if r.n < SAMPLES {
      SmallWord(r.sum + v);
    } else {
      FullStep(r.sum, low, high, v);
    }
  }

  lemma SmallWord(x: int)
    ensures 0 <= x < WORD ==> x % WORD == x
  {
  }

  lemma FullStep(sum: int, low: int, high: int, v: int)
    requires 0 <= low <= v <= high <= MAX_MILLIS && SAMPLES * low <= sum <= SAMPLES * high
    ensures var r := After(Rate(sum, SAMPLES), v);
            r.n == SAMPLES && SAMPLES * low <= r.sum <= SAMPLES * high && r.sum < WORD
  {
    var part := (sum + SAMPLES - 1) / SAMPLES;
    WindowStep(sum, low, high, v);
    SmallWord(sum + SAMPLES - 1);
    SmallWord(sum - part + v);
  }

  lemma Grows(n: int, low: int, high: int)
    requires 0 <= n <= SAMPLES && 0 <= low <= high <= MAX_MILLIS
    ensures (n + 1) * low == n * low + low && (n + 1) * high == n * high + high
    ensures 0 <= n * low && n * high <= SAMPLES * MAX_MILLIS
  {
    ProductNotNegative(n, low);
    ProductNotNegative(SAMPLES - n, high);
    assert SAMPLES * high == n * high + (SAMPLES - n) * high;
  }

  /** The average of every nonempty stream of samples within bounds is within them; up to 1024
      samples it is the floor of their mean. */
  lemma AverageIsBounded(samples: seq<int>, low: int, high: int)
    requires samples != []
    requires 0 <= low <= high <= MAX_MILLIS && forall i :: 0 <= i < |samples| ==> low <= samples[i] <= high
    ensures low <= Average(Run(samples)) <= high
    ensures |samples| <= 1024 ==> Average(Run(samples)) == Sum(samples) / |samples|
  {
    Bounds(samples, low, high);
    Quotient(Run(samples).sum, Run(samples).n, low, high);
  }

  // ------------------------------------------------------------ what the window follows

  /** A full window follows its samples: the sum grows exactly if it was at most 1024 times one
      less than the sample, and shrinks exactly if it was above 1024 times the sample. */
  lemma FullWindowFollows(sum: int, v: int)
    requires 0 <= v <= MAX_MILLIS && 0 <= sum <= SAMPLES * MAX_MILLIS
    ensures var next := After(Rate(sum, SAMPLES), v).sum;
            (next > sum <==> sum <= SAMPLES * (v - 1)) &&
            (next < sum <==> sum > SAMPLES * v) &&
            (sum > SAMPLES * v ==> next >= SAMPLES * v) &&
            (sum <= SAMPLES * v ==> next <= SAMPLES * v)
  {
    var part := (sum + SAMPLES - 1) / SAMPLES;
    WindowStep(sum, 0, MAX_MILLIS, v);
    SmallWord(sum + SAMPLES - 1);
    SmallWord(sum - part + v);
  }

  /** t samples of v after the window was full with a sum of at most 1024 times high: either the
      sum is still above 1024 times v and has lost t, or it is not above and has gained t or
      arrived. */
  predicate Approaches(sum: int, high: int, v: int, t: int)
  {
    if sum > SAMPLES * v then sum <= SAMPLES * high - t
    else sum >= t || sum > SAMPLES * (v - 1)
  }

  function Repeated(v: int, j: nat): (samples: seq<int>)
    ensures |samples| == j
  {
    seq(j, _ => v)
  }

  lemma {:induction false} Approaching(samples: seq<int>, high: int, v: int, j: nat)
    requires 0 <= v <= high <= MAX_MILLIS && forall i :: 0 <= i < |samples| ==> 0 <= samples[i] <= high
    requires |samples| + j >= SAMPLES
    ensures var r := Run(samples + Repeated(v, j));
            r.n == SAMPLES && 0 <= r.sum <= SAMPLES * high &&
            Approaches(r.sum, high, v, if |samples| < SAMPLES then |samples| + j - SAMPLES else j)
    decreases j
  {
    var all := samples + Repeated(v, j);
    Bounds(all, 0, high);
    if j > 0 && |samples| + j > SAMPLES {
      Approaching(samples, high, v, j - 1);
      assert all[..|all| - 1] == samples + Repeated(v, j - 1) && all[|all| - 1] == v;
      FullWindowFollows(Run(all[..|all| - 1]).sum, v);
    }
  }

  /** After any samples up to high, enough samples of v bring the average to v - 1 or v, and it
      stays there. */
  lemma AverageFollows(samples: seq<int>, high: int, v: int, j: nat)
    requires 0 <= v <= high <= MAX_MILLIS && forall i :: 0 <= i < |samples| ==> 0 <= samples[i] <= high
    requires j >= 1024 + 1024 * high
    ensures v - 1 <= Average(Run(samples + Repeated(v, j))) <= v
  {
    Approaching(samples, high, v, j);
    var sum := Run(samples + Repeated(v, j)).sum;
    Quotient(sum, SAMPLES, v - 1, v);
  }

  /** A negative sample counts as 0. */
  lemma {:induction false} NegativeIsZero(samples: seq<int>)
    ensures Run(samples) == Run(Clamped(samples))
  {
    if samples != [] {
      var k := |samples| - 1;
      NegativeIsZero(samples[..k]);
      assert Clamped(samples)[..k] == Clamped(samples[..k]);
    }
  }

  function Clamped(samples: seq<int>): (r: seq<int>)
    ensures |r| == |samples|
  {
    seq(|samples|, i requires 0 <= i < |samples| => Max(samples[i], 0))
  }
}
