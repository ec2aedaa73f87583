/**
 * The emulation of en-bloc dialling: from the time between the digits of a number the driver guesses
 * whether a machine is dialling, in which case it waits less for the next digit.
 *
 * Times are in milliseconds, the two sums are unsigned 32-bit counters, and variance and mean are exact.
 */
module EnblocDialing {
  const MAX_EXTENSION := 80
  const MAX_PER_DIGIT := 400
  const MIN_DIGITS := 4
  const FAST_TIMEOUT := 2
  const DEFAULT_TIMEOUT := 8
  const FIRST_TIMEOUT := 16
  const WORD := 0x1_0000_0000

  /** `armed` is what the digit timer was last set to, `timeout` what the emulation takes it to be, in seconds;
    * `samples` is the history of the times that went into the sums. */
  datatype Dial = Dial(len: nat, timeout: nat, armed: nat, off: bool, total: nat, squared: nat, samples: seq<int>)

  const START := Dial(0, DEFAULT_TIMEOUT, FIRST_TIMEOUT, false, 0, 0, [])

  /** A digit comes when the digit timer would have waited so long still; or the last digit is taken back,
    * which sets the timer to its default. */
  datatype Event = Digit(wait: int) | Backspace

  function Mean(total: nat, n: nat): real
    requires n > 0
  {
    total as real / n as real
  }

  /** The variance from the two sums, in one pass. */
  function OnePass(total: nat, squared: nat, n: nat): real
    requires n > 1
  {
    (squared as real - n as real * (Mean(total, n) * Mean(total, n))) / (n as real - 1.0)
  }

  /** Whether a time is at most one standard deviation from the mean. */
  predicate Steady(t: int, total: nat, squared: nat, n: nat)
    requires n > 1
  {
    var d := t as real - Mean(total, n);
    OnePass(total, squared, n) >= 0.0 && d * d <= OnePass(total, squared, n)
  }

  /** Adds a sample to the sums, which are 32 bits wide. */
  function Sample(s: Dial, t: int): Dial {
    s.(total := (s.total + t) % WORD, squared := (s.squared + t * t) % WORD, samples := s.samples + [t])
  }

  /** The judgement on the n-th sample. */
  function Judge(s: Dial, t: int, n: nat): Dial {
    if n < MIN_DIGITS then s
    else if t >= MAX_PER_DIGIT then s.(off := true)
    else if !Steady(t, s.total, s.squared, n) then s.(off := true)
    else if s.timeout > FAST_TIMEOUT then s.(timeout := FAST_TIMEOUT)
    else s
  }

  /** One key press: a digit beyond the longest number is dropped, the first one is not measured. */
  function Press(s: Dial, wait: int): Dial {
    if s.len + 1 >= MAX_EXTENSION then s
    else
      var s1 :=
        if s.off || s.len < 1 then s
        else
          var late := s.timeout >= wait;
          var t := if late then 0 else s.timeout * 1000 - wait;
          Judge(Sample(if late then s.(off := true) else s, t), t, s.len);
      s1.(len := s.len + 1, armed := s1.timeout)
  }

  function Step(s: Dial, e: Event): Dial {
    match e
    case Digit(wait) => Press(s, wait)
    case Backspace =>
      if s.len == 0 then s.(armed := FIRST_TIMEOUT) else s.(len := s.len - 1, armed := DEFAULT_TIMEOUT)
  }

  function Run(s: Dial, events: seq<Event>): Dial
    decreases |events|
  {
    if events == [] then s else Run(Step(s, events[0]), events[1..])
  }

  function Sum(x: seq<int>): int {
    if x == [] then 0 else Sum(x[..|x| - 1]) + x[|x| - 1]
  }

  function SumSquares(x: seq<int>): int {
    if x == [] then 0 else SumSquares(x[..|x| - 1]) + x[|x| - 1] * x[|x| - 1]
  }

  /** The squared deviations from a number, added up in a second pass. */
  function Deviations(x: seq<int>, m: real): real {
    if x == [] then 0.0
    else Deviations(x[..|x| - 1], m) + (x[|x| - 1] as real - m) * (x[|x| - 1] as real - m)
  }

  // ---------------------------------------------------------------------------------------------
  // Variance

  lemma Square(z: real, m: real)
    ensures (z - m) * (z - m) == z * z - 2.0 * (m * z) + m * m
    ensures (z - m) * (z - m) >= 0.0
  {
  }

  lemma Distribute(m: real, a: real, b: real)
    ensures m * (a + b) == m * a + m * b
  {
  }

  lemma {:induction false} DeviationsExpand(x: seq<int>, m: real)
    ensures Deviations(x, m) == SumSquares(x) as real - 2.0 * (m * Sum(x) as real) + |x| as real * (m * m)
    ensures Deviations(x, m) >= 0.0
  {
    if x == [] {
      assert m * 0.0 == 0.0 && 0.0 * (m * m) == 0.0;
    } else {
      var y, z := x[..|x| - 1], x[|x| - 1] as real;
      DeviationsExpand(y, m);
      Square(z, m);
      SquareOfInt(x[|x| - 1]);
      Distribute(m, Sum(y) as real, z);
      Distribute(m * m, |y| as real, 1.0);
      assert Sum(x) as real == Sum(y) as real + z;
      assert |x| as real == |y| as real + 1.0;
    }
  }

  lemma SquareOfInt(z: int)
    ensures (z * z) as real == z as real * z as real
  {
  }

  /** The variance from the sums is the two-pass one, so it is not negative, if the sums are those of as
    * many samples as they are divided by. */
  lemma OnePassIsTwoPass(x: seq<int>, total: nat, squared: nat)
    requires |x| > 1 && total == Sum(x) && squared == SumSquares(x)
    ensures OnePass(total, squared, |x|) == Deviations(x, Mean(total, |x|)) / (|x| as real - 1.0)
    ensures OnePass(total, squared, |x|) >= 0.0
  {
    hide Deviations, Sum, SumSquares;
    assert |x| as real * Mean(total, |x|) == total as real by { MeanTimes(total as real, |x| as real); }
    hide Mean;
    AboutTheMean(x, Mean(total, |x|));
    SameQuotient(squared as real - |x| as real * (Mean(total, |x|) * Mean(total, |x|)),
      Deviations(x, Mean(total, |x|)), |x| as real - 1.0);
    Quotient(Deviations(x, Mean(total, |x|)), |x| as real - 1.0);
  }

  /** About the mean, the squared deviations are the squares less n times the squared mean. */
  lemma AboutTheMean(x: seq<int>, m: real)
    requires |x| as real * m == Sum(x) as real
    ensures Deviations(x, m) == SumSquares(x) as real - |x| as real * (m * m)
    ensures Deviations(x, m) >= 0.0
  {
    hide Deviations, Sum, SumSquares;
    DeviationsExpand(x, m);
    Regroup(m, |x| as real);
    Middle(SumSquares(x) as real, Sum(x) as real, m, |x| as real, Deviations(x, m));
  }

  /** The middle term of the expansion is twice the last one when m is the mean. */
  lemma Middle(squares: real, sum: real, m: real, n: real, deviations: real)
    requires deviations == squares - 2.0 * (m * sum) + n * (m * m)
    requires n * m == sum && m * (n * m) == n * (m * m)
    ensures deviations == squares - n * (m * m)
  {
    assert m * sum == n * (m * m);
  }

  lemma MeanTimes(t: real, n: real)
    requires n > 0.0
    ensures n * (t / n) == t
  {
  }

  lemma Regroup(m: real, n: real)
    ensures m * (n * m) == n * (m * m)
  {
  }

  lemma SameQuotient(a: real, b: real, c: real)
    requires a == b && c > 0.0
    ensures a / c == b / c
  {
  }

  lemma Quotient(a: real, b: real)
    requires b > 0.0
    ensures a >= 0.0 ==> a / b >= 0.0
  {
  }

  /** Divided by fewer than there are samples, the squared deviations come out lower by the sum times the
    * difference of the two means. */
  lemma OnePassWithSurplus(x: seq<int>, total: nat, squared: nat, n: nat)
    requires 1 < n <= |x| && total == Sum(x) && squared == SumSquares(x)
    ensures OnePass(total, squared, n) * (n as real - 1.0)
            == Deviations(x, Mean(total, |x|)) - total as real * (Mean(total, n) - Mean(total, |x|))
    ensures Mean(total, n) >= Mean(total, |x|)
    ensures Mean(total, n) == Mean(total, |x|) <==> n == |x| || total == 0
  {
    hide Deviations, Sum, SumSquares;
    MeanTimes(total as real, |x| as real);
    MeanTimes(total as real, n as real);
    MeansDiffer(total, n, |x|);
    Cancels(squared as real - n as real * (Mean(total, n) * Mean(total, n)), n as real - 1.0);
    hide Mean;
    AboutTheMean(x, Mean(total, |x|));
    Regroup(Mean(total, n), n as real);
    Regroup(Mean(total, |x|), |x| as real);
    Means(total as real, Mean(total, n), Mean(total, |x|), n as real, |x| as real);
  }

  lemma Cancels(a: real, b: real)
    requires b > 0.0
    ensures a / b * b == a
  {
  }

  lemma Means(sum: real, m: real, k: real, n: real, l: real)
    requires n * m == sum && l * k == sum
    requires m * (n * m) == n * (m * m) && k * (l * k) == l * (k * k)
    ensures n * (m * m) - l * (k * k) == sum * (m - k)
  {
    assert m * sum == n * (m * m) && k * sum == l * (k * k);
  }

  lemma MeansDiffer(total: nat, n: nat, l: nat)
    requires 0 < n <= l
    ensures Mean(total, n) >= Mean(total, l)
    ensures Mean(total, n) == Mean(total, l) <==> n == l || total == 0
  {
    var t := total as real;
    MeanTimes(t, n as real);
    MeanTimes(t, l as real);
    Ordered(Mean(total, n), Mean(total, l), n as real, l as real, t);
  }

  lemma Positive(n: real, d: real)
    requires n > 0.0 && n * d >= 0.0
    ensures d >= 0.0
  {
  }

  lemma Ordered(m: real, k: real, n: real, l: real, t: real)
    requires 0.0 < n <= l && t >= 0.0 && n * m == t && l * k == t
    ensures m >= k && (m == k <==> n == l || t == 0.0)
  {
    assert k >= 0.0 && m >= 0.0;
    assert n * k <= l * k;
    Positive(n, m - k);
    if m == k {
      assert (l - n) * k == 0.0;
    }
  }

  // ---------------------------------------------------------------------------------------------
  // Digits taken back

  /** The backspaces that take back a digit whose time is in the sums. */
  function Taken(s: Dial, events: seq<Event>): nat
    decreases |events|
  {
    if events == [] then 0
    else (if events[0].Backspace? && s.len >= 2 then 1 else 0) + Taken(Step(s, events[0]), events[1..])
  }

  function Measurable(len: nat): nat {
    if len == 0 then 0 else len - 1
  }

  ghost predicate Surplus(s: Dial, taken: nat) {
    && (!s.off ==> |s.samples| == Measurable(s.len) + taken)
    && s.total == Sum(s.samples) % WORD && s.squared == SumSquares(s.samples) % WORD
  }

  lemma SumsNext(x: seq<int>, t: int)
    ensures Sum(x + [t]) == Sum(x) + t && SumSquares(x + [t]) == SumSquares(x) + t * t
  {
    assert (x + [t])[..|x|] == x;
  }

  lemma WordSum(a: int, t: int)
    ensures (a % WORD + t) % WORD == (a + t) % WORD
  {
  }

  lemma SampleSurplus(s: Dial, t: int)
    requires s.total == Sum(s.samples) % WORD && s.squared == SumSquares(s.samples) % WORD
    ensures
      var r := Sample(s, t);
      && r.total == Sum(r.samples) % WORD && r.squared == SumSquares(r.samples) % WORD
      && |r.samples| == |s.samples| + 1 && r.off == s.off && r.len == s.len && r.timeout == s.timeout
    ensures Sample(s.(off := true), t) == Sample(s, t).(off := true)
  {
    SumsNext(s.samples, t);
    WordSum(Sum(s.samples), t);
    WordSum(SumSquares(s.samples), t * t);
    hide Sum, SumSquares;
  }

  /** What the emulation measures when a digit comes. */
  function Time(s: Dial, wait: int): int {
    if s.timeout >= wait then 0 else s.timeout * 1000 - wait
  }

  lemma PressSurplus(s: Dial, wait: int, taken: nat)
    requires Surplus(s, taken)
    ensures Surplus(Press(s, wait), taken)
  {
    hide Steady, Sum, SumSquares, Sample;
    SampleSurplus(s, Time(s, wait));
  }

  lemma {:induction false} RunSurplus(s: Dial, events: seq<Event>, taken: nat)
    requires Surplus(s, taken)
    ensures Surplus(Run(s, events), taken + Taken(s, events))
    decreases |events|
  {
    if events != [] {
      var more := if events[0].Backspace? && s.len >= 2 then 1 else 0;
      if events[0].Digit? { PressSurplus(s, events[0].wait, taken); }
      assert Surplus(Step(s, events[0]), taken + more) by { hide Press, Sum, SumSquares; }
      hide Step, Surplus;
      RunSurplus(Step(s, events[0]), events[1..], taken + more);
    }
  }

  /** Over every run of digits and backspaces: both counters hold their sums modulo the word, and as long as the
    * emulation is on the samples outnumber the digits after the first by the measured digits that were taken
    * back.  So they are as many exactly if none was. */
  lemma SurplusIsTakenBack(events: seq<Event>)
    ensures
      var s := Run(START, events);
      && s.total == Sum(s.samples) % WORD && s.squared == SumSquares(s.samples) % WORD
      && (!s.off ==> |s.samples| == Measurable(s.len) + Taken(START, events))
      && (!s.off ==> (|s.samples| == Measurable(s.len) <==> Taken(START, events) == 0))
  {
    RunSurplus(START, events, 0);
  }

  // ---------------------------------------------------------------------------------------------
  // Sums that fit

  /** A digit that comes before its timer runs out. */
  predicate Timely(s: Dial, e: Event) {
    e.Digit? ==> e.wait <= s.armed * 1000
  }

  /** A digit that is measured comes within the time the emulation takes its timer to have. */
  predicate Measured(s: Dial, e: Event) {
    e.Digit? && !s.off && 1 <= s.len < MAX_EXTENSION - 1 ==> e.wait <= s.timeout * 1000
  }

  predicate AllTimely(s: Dial, events: seq<Event>)
    decreases |events|
  {
    events == [] || (Timely(s, events[0]) && AllTimely(Step(s, events[0]), events[1..]))
  }

  predicate AllMeasured(s: Dial, events: seq<Event>)
    decreases |events|
  {
    events == [] || (Measured(s, events[0]) && AllMeasured(Step(s, events[0]), events[1..]))
  }

  /** The timer is what the emulation takes it to be, at least where it measures. */
  predicate InStep(s: Dial) {
    && (s.timeout == DEFAULT_TIMEOUT || s.timeout == FAST_TIMEOUT)
    && (s.len == 0 || s.armed == s.timeout)
    && (s.len < 2 ==> s.timeout == DEFAULT_TIMEOUT)
  }

  lemma PressInStep(s: Dial, wait: int)
    requires InStep(s)
    ensures InStep(Press(s, wait))
  {
    hide Steady;
  }

  /** Unless a measured digit is taken back, every digit that comes in time is measured rightly. */
  lemma {:induction false} TimelyIsMeasured(s: Dial, events: seq<Event>)
    requires InStep(s) && AllTimely(s, events) && Taken(s, events) == 0
    ensures AllMeasured(s, events)
    decreases |events|
  {
    if events != [] {
      if events[0].Digit? { PressInStep(s, events[0].wait); }
      hide Press;
      TimelyIsMeasured(Step(s, events[0]), events[1..]);
    }
  }

  const LONGEST := 7991
  const LONGEST_SQUARED := 63856081
  const SHORT := 399
  const SHORT_SQUARED := 159201

  /** The most that can have been added up: a long time for each of the first three measured digits, for each
    * digit taken back and for the one that switched the emulation off, and a short one for every other. */
  function Most(s: Dial, taken: nat, long: nat, short: nat): nat {
    (if s.len <= MIN_DIGITS then Measurable(s.len) else MIN_DIGITS - 1) * long
    + (if s.len <= MIN_DIGITS then 0 else s.len - MIN_DIGITS) * short
    + taken * long + if s.off then long else 0
  }

  ghost predicate Good(s: Dial, taken: nat) {
    && (s.timeout == DEFAULT_TIMEOUT || s.timeout == FAST_TIMEOUT)
    && s.len < MAX_EXTENSION
    && 0 <= Sum(s.samples) <= Most(s, taken, LONGEST, SHORT)
    && 0 <= SumSquares(s.samples) <= Most(s, taken, LONGEST_SQUARED, SHORT_SQUARED)
  }

  lemma Squares(t: int, most: nat)
    requires 0 <= t <= most
    ensures 0 <= t * t <= most * most
  {
    assert t * t <= t * most <= most * most;
  }

  lemma MostGrows(s: Dial, s': Dial, taken: nat, long: nat, short: nat)
    requires short <= long && s'.len == s.len + 1 && (s.off ==> s'.off)
    ensures Most(s', taken, long, short) >= Most(s, taken, long, short)
            + (if s.len == 0 then 0 else if s.len < MIN_DIGITS then long else short)
            + if s'.off && !s.off then long else 0
  {
    if s.len < MIN_DIGITS {
      Step1(Measurable(s.len), Measurable(s'.len), long);
    } else {
      Step1(s.len - MIN_DIGITS, s'.len - MIN_DIGITS, short);
    }
  }

  lemma Step1(a: nat, b: nat, c: nat)
    requires b == a || b == a + 1
    ensures b * c == a * c + if b == a then 0 else c
  {
  }

  lemma MostShrinks(s: Dial, s': Dial, taken: nat, long: nat, short: nat)
    requires short <= long && s.len > 0 && s'.len == s.len - 1 && s'.off == s.off
    ensures Most(s', if s.len >= 2 then taken + 1 else taken, long, short) >= Most(s, taken, long, short)
  {
    if s.len <= MIN_DIGITS {
      Step1(Measurable(s'.len), Measurable(s.len), long);
    } else {
      Step1(s'.len - MIN_DIGITS, s.len - MIN_DIGITS, short);
    }
    if s.len >= 2 { Step1(taken, taken + 1, long); }
  }

  lemma PressGood(s: Dial, wait: int, taken: nat)
    requires Good(s, taken) && Measured(s, Digit(wait))
    ensures Good(Press(s, wait), taken)
  {
    hide Steady, Sum, SumSquares, Most;
    if s.len + 1 < MAX_EXTENSION {
      var s' := Press(s, wait);
      MostGrows(s, s', taken, LONGEST, SHORT);
      MostGrows(s, s', taken, LONGEST_SQUARED, SHORT_SQUARED);
      if !s.off && s.len >= 1 {
        var t := Time(s, wait);
        assert s'.samples == s.samples + [t];
        assert s.len >= MIN_DIGITS && t > SHORT ==> s'.off;
        assert 0 <= t <= LONGEST;
        SumsNext(s.samples, t);
        Squares(t, LONGEST);
        if t <= SHORT { Squares(t, SHORT); }
        hide Press;
      } else {
        assert s'.samples == s.samples;
      }
    }
  }

  lemma StepGood(s: Dial, e: Event, taken: nat)
    requires Good(s, taken) && Measured(s, e)
    ensures Good(Step(s, e), if e.Backspace? && s.len >= 2 then taken + 1 else taken)
  {
    hide Press, Sum, SumSquares, Most;
    match e
    case Digit(wait) => PressGood(s, wait, taken);
    case Backspace =>
      if s.len > 0 {
        MostShrinks(s, Step(s, e), taken, LONGEST, SHORT);
        MostShrinks(s, Step(s, e), taken, LONGEST_SQUARED, SHORT_SQUARED);
      } else {
        SameMost(s, Step(s, e), taken);
      }
  }

  lemma SameMost(s: Dial, s': Dial, taken: nat)
    requires s'.len == s.len && s'.off == s.off
    ensures Most(s', taken, LONGEST, SHORT) == Most(s, taken, LONGEST, SHORT)
    ensures Most(s', taken, LONGEST_SQUARED, SHORT_SQUARED) == Most(s, taken, LONGEST_SQUARED, SHORT_SQUARED)
  {
  }

  lemma {:induction false} RunGood(s: Dial, events: seq<Event>, taken: nat)
    requires Good(s, taken) && AllMeasured(s, events)
    ensures Good(Run(s, events), taken + Taken(s, events))
    decreases |events|
  {
    if events != [] {
      StepGood(s, events[0], taken);
      hide Good, Step, Measured;
      RunGood(Step(s, events[0]), events[1..], if events[0].Backspace? && s.len >= 2 then taken + 1 else taken);
    }
  }

  lemma MostFits(s: Dial, taken: nat)
    requires s.len < MAX_EXTENSION && taken <= 63
    ensures Most(s, taken, LONGEST, SHORT) < WORD && Most(s, taken, LONGEST_SQUARED, SHORT_SQUARED) < WORD
  {
  }

  /** Whatever is dialled and taken back, both counters hold their exact sums if the digits are measured
    * rightly and no more than 63 measured ones are taken back. */
  lemma SumsNeverWrap(events: seq<Event>)
    requires AllMeasured(START, events) && Taken(START, events) <= 63
    ensures
      var s := Run(START, events);
      s.total == Sum(s.samples) && s.squared == SumSquares(s.samples)
  {
    RunGood(START, events, 0);
    RunSurplus(START, events, 0);
    MostFits(Run(START, events), Taken(START, events));
    hide Most, Run, Taken, AllMeasured, Sum, SumSquares;
  }

  /** In particular for every number that is only dialled on, or where nothing but a first digit is taken back,
    * as long as each digit comes before its timer runs out. */
  lemma PlainSumsNeverWrap(events: seq<Event>)
    requires AllTimely(START, events) && Taken(START, events) == 0
    ensures
      var s := Run(START, events);
      s.total == Sum(s.samples) && s.squared == SumSquares(s.samples)
  {
    TimelyIsMeasured(START, events);
    SumsNeverWrap(events);
  }

  /** One more is too many: the third digit is taken back 64 times, each digit as slow as can be. */
  lemma SixtyFourCanWrap()
    ensures
      var slow := Digit(9);
      var events := [slow, slow] + Corrections(64) + [slow, slow, slow];
      && AllMeasured(START, events) && Taken(START, events) == 64
      && Run(START, events).squared == SumSquares(Run(START, events).samples) - WORD
  {
    hide Run, Taken, AllMeasured, Corrections, SumSquares, Sum, SlowSoFar;
    var two, three := [Digit(9), Digit(9)], [Digit(9), Digit(9), Digit(9)];
    TwoSlow();
    Corrected(Run(START, two), 0, 64);
    ThreeSlow(Run(Run(START, two), Corrections(64)));
    SurplusIsTakenBack(two + Corrections(64) + three);
    Joined(START, two, Corrections(64));
    Joined(START, two + Corrections(64), three);
    Wrapped(Run(START, two + Corrections(64) + three).squared);
  }

  lemma Wrapped(squared: nat)
    requires squared == (68 * LONGEST_SQUARED) % WORD
    ensures squared == 68 * LONGEST_SQUARED - WORD
  {
  }

  /** A third digit that is dialled and taken back, so many times. */
  function Corrections(times: nat): seq<Event> {
    if times == 0 then [] else [Digit(9), Backspace] + Corrections(times - 1)
  }

  /** Two digits, both slow, and so many more that were taken back. */
  ghost predicate SlowSoFar(s: Dial, times: nat) {
    && s.len == 2 && s.timeout == DEFAULT_TIMEOUT && s.armed == DEFAULT_TIMEOUT && !s.off
    && SumSquares(s.samples) == (times + 1) * LONGEST_SQUARED
  }

  lemma {:induction false} Joined(s: Dial, xs: seq<Event>, ys: seq<Event>)
    ensures Run(s, xs + ys) == Run(Run(s, xs), ys)
    ensures Taken(s, xs + ys) == Taken(s, xs) + Taken(Run(s, xs), ys)
    ensures AllMeasured(s, xs + ys) <==> AllMeasured(s, xs) && AllMeasured(Run(s, xs), ys)
    decreases |xs|
  {
    if xs == [] {
      assert xs + ys == ys;
    } else {
      assert (xs + ys)[1..] == xs[1..] + ys;
      hide Step, Measured;
      Joined(Step(s, xs[0]), xs[1..], ys);
    }
  }

  lemma SlowDigit(s: Dial)
    requires 1 <= s.len <= MIN_DIGITS && s.timeout == DEFAULT_TIMEOUT && !s.off
    ensures
      var s' := Step(s, Digit(9));
      && s'.len == s.len + 1 && s'.timeout == DEFAULT_TIMEOUT && s'.armed == DEFAULT_TIMEOUT
      && (s'.off <==> s.len == MIN_DIGITS)
      && SumSquares(s'.samples) == SumSquares(s.samples) + LONGEST_SQUARED
      && Measured(s, Digit(9))
  {
    SumsNext(s.samples, LONGEST);
    assert Step(s, Digit(9)).samples == s.samples + [LONGEST] by { hide Steady, SumSquares; }
    hide Steady, SumSquares, Sum;
  }

  lemma TwoSlow()
    ensures
      var two := [Digit(9), Digit(9)];
      SlowSoFar(Run(START, two), 0) && Taken(START, two) == 0 && AllMeasured(START, two)
  {
    var two := [Digit(9), Digit(9)];
    var s1 := Step(START, Digit(9));
    assert s1 == START.(len := 1, armed := DEFAULT_TIMEOUT);
    SlowDigit(s1);
    hide Step, Measured;
    assert two[1..] == [Digit(9)] && [Digit(9)][1..] == [];
    assert Measured(START, Digit(9));
    assert Run(START, two) == Run(s1, [Digit(9)]) == Run(Step(s1, Digit(9)), []);
    assert Taken(s1, [Digit(9)]) == 0 && AllMeasured(s1, [Digit(9)]);
  }

  lemma {:induction false} Corrected(s: Dial, before: nat, times: nat)
    requires SlowSoFar(s, before)
    ensures SlowSoFar(Run(s, Corrections(times)), before + times)
    ensures Taken(s, Corrections(times)) == times && AllMeasured(s, Corrections(times))
    decreases times
  {
    if times > 0 {
      var all, rest := Corrections(times), Corrections(times - 1);
      assert all[0] == Digit(9) && all[1..][0] == Backspace && all[1..][1..] == rest;
      var s1 := Step(s, Digit(9));
      SlowDigit(s);
      var s2 := Step(s1, Backspace);
      assert SlowSoFar(s2, before + 1) by { hide SumSquares; }
      assert Measured(s1, Backspace);
      Corrected(s2, before + 1, times - 1);
      hide Step, SlowSoFar, Corrections, Measured;
      assert s1.len == 3;
    }
  }

  lemma ThreeSlow(s: Dial)
    requires SlowSoFar(s, 64)
    ensures
      var three := [Digit(9), Digit(9), Digit(9)];
      && SumSquares(Run(s, three).samples) == 68 * LONGEST_SQUARED
      && Taken(s, three) == 0 && AllMeasured(s, three)
  {
    var three := [Digit(9), Digit(9), Digit(9)];
    var s1 := Step(s, Digit(9));
    var s2 := Step(s1, Digit(9));
    SlowDigit(s);
    SlowDigit(s1);
    SlowDigit(s2);
    hide Step, SumSquares, Measured;
    assert three[1..] == [Digit(9), Digit(9)] && three[1..][1..] == [Digit(9)] && [Digit(9)][1..] == [];
    assert Run(s, three) == Run(s1, [Digit(9), Digit(9)]) == Run(s2, [Digit(9)]) == Run(Step(s2, Digit(9)), []);
    assert Taken(s2, [Digit(9)]) == 0 && AllMeasured(s2, [Digit(9)]);
    assert Taken(s1, three[1..]) == 0 && AllMeasured(s1, three[1..]);
  }

  // ---------------------------------------------------------------------------------------------
  // The judgement

  /** Whenever the next digit is judged, the number of samples exceeds the digit count that is used by the number
    * of measured digits that were taken back, and the squared deviations are those of just those samples, less
    * the sum times the difference of the means over the two counts.  So both agree exactly if no such digit
    * was taken back, or no time passed; and if none was, the variance is not negative. */
  lemma JudgedOnTrueVariance(events: seq<Event>, wait: int)
    requires AllMeasured(START, events) && Taken(START, events) <= 63
    requires
      var s := Run(START, events);
      !s.off && 2 <= s.len < MAX_EXTENSION - 1 && Measured(s, Digit(wait))
    ensures TrueBut(Press(Run(START, events), wait), Run(START, events).len, Taken(START, events))
  {
    Started();
    hide Run, Taken, AllMeasured, Good, Surplus, Press, TrueBut;
    RunSurplus(START, events, 0);
    RunGood(START, events, 0);
    JudgedNow(Run(START, events), wait, Taken(START, events));
  }

  lemma Started()
    ensures Good(START, 0) && Surplus(START, 0)
  {
  }

  /** The variance that the emulation computes over a count of n, with so many samples more. */
  ghost predicate TrueBut(s: Dial, n: nat, surplus: nat)
    requires n >= 2
  {
    && |s.samples| == n + surplus
    && var deviations := Deviations(s.samples, Mean(s.total, n + surplus));
       var computed := OnePass(s.total, s.squared, n) * (n as real - 1.0);
       && computed == deviations - s.total as real * (Mean(s.total, n) - Mean(s.total, n + surplus))
       && (computed == deviations <==> (surplus == 0 || s.total == 0))
       && (surplus == 0 ==> OnePass(s.total, s.squared, n) >= 0.0)
  }

  lemma JudgedNow(s: Dial, wait: int, taken: nat)
    requires Surplus(s, taken) && Good(s, taken) && taken <= 63
    requires !s.off && 2 <= s.len < MAX_EXTENSION - 1 && Measured(s, Digit(wait))
    ensures TrueBut(Press(s, wait), s.len, taken)
  {
    hide Deviations, OnePass, Sum, SumSquares, Mean, Most, TrueBut, Steady;
    PressSurplus(s, wait, taken);
    PressGood(s, wait, taken);
    var s' := Press(s, wait);
    assert s'.samples == s.samples + [Time(s, wait)] && s'.len == s.len + 1;
    MostFits(s', taken);
    hide Press;
    Judged(s', s.len, taken);
  }

  lemma Judged(s: Dial, n: nat, surplus: nat)
    requires n >= 2 && |s.samples| == n + surplus && s.total == Sum(s.samples) && s.squared == SumSquares(s.samples)
    ensures TrueBut(s, n, surplus)
  {
    hide Deviations, OnePass, Sum, SumSquares, Mean;
    OnePassWithSurplus(s.samples, s.total, s.squared, n);
    if surplus == 0 { OnePassIsTwoPass(s.samples, s.total, s.squared); }
    Product(s.total as real, Mean(s.total, n) - Mean(s.total, n + surplus));
  }

  lemma Product(a: real, b: real)
    ensures a * b == 0.0 <==> a == 0.0 || b == 0.0
  {
  }

  // ---------------------------------------------------------------------------------------------
  // What a digit taken back can do

  /** After a digit is taken back there are more samples than the count they are divided by: the computed
    * variance of a perfectly steady dialler is negative, and the emulation gives up. */
  lemma BackspaceMakesVarianceNegative()
    ensures
      var d := Digit(7900);
      var s := Run(START, [d, d, d, d, Backspace, d, d]);
      s.samples == [100, 100, 100, 100, 100] && s.off && OnePass(s.total, s.squared, 4) < 0.0
  {
    var d := Digit(7900);
    var s1 := Step(START, d);
    var s2 := Step(s1, d);
    var s3 := Step(s2, d);
    var s4 := Step(s3, d);
    var s5 := Step(s4, Backspace);
    var s6 := Step(s5, d);
    var s7 := Step(s6, d);
    FourDigits();
    TakenBack(s4);
    NegativeVariance();
    GivesUp(s6);
    hide Step, OnePass;
    assert [d, d, d, d, Backspace, d, d][1..] == [d, d, d, Backspace, d, d];
    assert [d, d, d, Backspace, d, d][1..] == [d, d, Backspace, d, d];
    assert [d, d, Backspace, d, d][1..] == [d, Backspace, d, d];
    assert [d, Backspace, d, d][1..] == [Backspace, d, d];
    assert [Backspace, d, d][1..] == [d, d] && [d, d][1..] == [d] && [d][1..] == [];
    assert Run(s4, [Backspace, d, d]) == Run(s5, [d, d]) == Run(s6, [d]) == Run(s7, []) == s7;
    assert Run(START, [d, d, d, d, Backspace, d, d]) == Run(s1, [d, d, d, Backspace, d, d]);
    assert Run(s1, [d, d, d, Backspace, d, d]) == Run(s2, [d, d, Backspace, d, d]);
    assert Run(s2, [d, d, Backspace, d, d]) == Run(s3, [d, Backspace, d, d]);
    assert Run(s3, [d, Backspace, d, d]) == Run(s4, [Backspace, d, d]);
  }

  lemma FourDigits()
    ensures
      var d := Digit(7900);
      Step(Step(Step(Step(START, d), d), d), d) == Dial(4, 8, 8, false, 300, 30000, [100, 100, 100])
  {
    hide Steady;
  }

  lemma TakenBack(s: Dial)
    requires s == Dial(4, 8, 8, false, 300, 30000, [100, 100, 100])
    ensures Step(Step(s, Backspace), Digit(7900)) == Dial(4, 8, 8, false, 400, 40000, [100, 100, 100, 100])
  {
    hide Steady;
  }

  lemma NegativeVariance()
    ensures OnePass(500, 50000, 4) < 0.0
  {
    assert Mean(500, 4) == 125.0;
    assert OnePass(500, 50000, 4) == (50000.0 - 4.0 * (125.0 * 125.0)) / 3.0;
  }

  lemma GivesUp(s: Dial)
    requires s == Dial(4, 8, 8, false, 400, 40000, [100, 100, 100, 100]) && OnePass(500, 50000, 4) < 0.0
    ensures Step(s, Digit(7900)) == Dial(5, 8, 8, true, 500, 50000, [100, 100, 100, 100, 100])
  {
    hide OnePass, Mean;
  }

  /** After a fast dialler takes a digit back, the timer is longer than the emulation takes it to be: a slow
    * digit then counts as negative time, and the sum wraps. */
  lemma SlowDigitAfterBackspaceWraps()
    ensures
      var d := Digit(7900);
      var s := Run(START, [d, d, d, d, d, Backspace, d]);
      && AllTimely(START, [d, d, d, d, d, Backspace, d])
      && Sum(s.samples) == -5500 && s.total == WORD - 5500
  {
    var d := Digit(7900);
    var s1 := Step(START, d);
    var s2 := Step(s1, d);
    var s3 := Step(s2, d);
    var s4 := Step(s3, d);
    var s5 := Step(s4, d);
    var s6 := Step(s5, Backspace);
    FourDigits();
    FifthIsFast(s4);
    NegativeTime(s6);
    SumsNext([100, 100, 100, 100], -5900);
    assert Sum([100, 100, 100, 100]) == 400 by { FourHundred(); }
    FourTimers();
    assert s5.armed == 2 && s6.armed == 8;
    hide Step, Sum;
    var e := [d, d, d, d, d, Backspace, d];
    assert e[1..][1..] == e[2..] && e[2..][1..] == e[3..] && e[3..][1..] == e[4..] && e[4..][1..] == e[5..];
    assert e[5..][1..] == e[6..] && e[6..][1..] == [];
    assert Run(s4, e[4..]) == Run(s5, e[5..]) == Run(s6, e[6..]) == Run(Step(s6, d), []);
    assert Run(START, e) == Run(s1, e[1..]) == Run(s2, e[2..]) == Run(s3, e[3..]) == Run(s4, e[4..]);
    assert AllTimely(s6, e[6..]);
    assert AllTimely(s5, e[5..]);
    assert AllTimely(s4, e[4..]);
    assert AllTimely(s3, e[3..]);
    assert AllTimely(s2, e[2..]);
    assert AllTimely(s1, e[1..]);
  }

  lemma FourTimers()
    ensures
      var d := Digit(7900);
      var s1 := Step(START, d);
      var s2 := Step(s1, d);
      var s3 := Step(s2, d);
      START.armed == 16 && s1.armed == 8 && s2.armed == 8 && s3.armed == 8 && Step(s3, d).armed == 8
  {
    hide Steady;
  }

  lemma FourHundred()
    ensures Sum([100, 100, 100, 100]) == 400
  {
    SumsNext([], 100);
    SumsNext([100], 100);
    SumsNext([100, 100], 100);
    SumsNext([100, 100, 100], 100);
    assert [] + [100] == [100] && [100] + [100] == [100, 100];
    assert [100, 100] + [100] == [100, 100, 100] && [100, 100, 100] + [100] == [100, 100, 100, 100];
  }

  lemma FifthIsFast(s: Dial)
    requires s == Dial(4, 8, 8, false, 300, 30000, [100, 100, 100])
    ensures Step(s, Digit(7900)) == Dial(5, 2, 2, false, 400, 40000, [100, 100, 100, 100])
  {
    assert Mean(400, 4) == 100.0;
    assert OnePass(400, 40000, 4) == 0.0;
  }

  lemma NegativeTime(s: Dial)
    requires s == Dial(4, 2, 8, false, 400, 40000, [100, 100, 100, 100])
    ensures
      var s' := Step(s, Digit(7900));
      s'.samples == [100, 100, 100, 100] + [-5900] && s'.total == WORD - 5500
  {
    hide Steady;
  }

  // ---------------------------------------------------------------------------------------------
  // In place

  class Emulation {
    var dialled: nat
    var digittimeout: nat
    var scheduled: nat
    var deactivate: bool
    var totaldigittime: nat
    var totaldigittimesquared: nat
    ghost var samples: seq<int>

    ghost function View(): Dial
      reads this
    {
      Dial(dialled, digittimeout, scheduled, deactivate, totaldigittime, totaldigittimesquared, samples)
    }

    constructor ()
      ensures View() == START
    {
      dialled, digittimeout, scheduled, deactivate := 0, DEFAULT_TIMEOUT, FIRST_TIMEOUT, false;
      totaldigittime, totaldigittimesquared, samples := 0, 0, [];
    }

    method HandleKeypadButton(wait: int)
      modifies this
      ensures View() == Press(old(View()), wait)
    {
      hide Steady, Sample;
      if dialled + 1 >= MAX_EXTENSION { return; }
      var n := dialled;
      if !deactivate && n >= 1 {
        var t := 0;
        if digittimeout < wait {
          t := digittimeout * 1000 - wait;
        } else {
          deactivate := true;
        }
        AddSample(t);
        if n >= MIN_DIGITS { JudgeSample(t, n); }
      }
      dialled := dialled + 1;
      scheduled := digittimeout;
    }

    method AddSample(t: int)
      modifies `totaldigittime, `totaldigittimesquared, `samples
      ensures View() == Sample(old(View()), t)
      ensures dialled == old(dialled) && digittimeout == old(digittimeout) && deactivate == old(deactivate)
    {
      totaldigittime := (totaldigittime + t) % WORD;
      totaldigittimesquared := (totaldigittimesquared + t * t) % WORD;
      samples := samples + [t];
    }

    method JudgeSample(t: int, n: nat)
      requires n >= MIN_DIGITS
      modifies `digittimeout, `deactivate
      ensures View() == Judge(old(View()), t, n)
    {
      hide Mean, OnePass;
      if t >= MAX_PER_DIGIT {
        deactivate := true;
        return;
      }
      var mean := Mean(totaldigittime, n);
      var variance := OnePass(totaldigittime, totaldigittimesquared, n);
      var deviation := t as real - mean;
      if variance >= 0.0 && deviation * deviation <= variance {
        if digittimeout > FAST_TIMEOUT { digittimeout := FAST_TIMEOUT; }
      } else {
        deactivate := true;
      }
    }

    method TakeBack()
      modifies this
      ensures View() == Step(old(View()), Backspace)
    {
      if dialled == 0 {
        scheduled := FIRST_TIMEOUT;
      } else {
        dialled := dialled - 1;
        scheduled := DEFAULT_TIMEOUT;
      }
    }
  }
}
