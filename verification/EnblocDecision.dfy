/**
 * The decision of the en-bloc emulation, on the times themselves: when it takes the dialler for a machine and
 * when it gives up.
 */
module EnblocDecision {
  import opened EnblocDialing

  /** The last of these times is no further from their mean than one standard deviation of them all, taken in two passes
    * over the times. */
  ghost predicate AsUsual(x: seq<int>)
    requires |x| >= 2
  {
    var m := Sum(x) as real / |x| as real;
    var d := x[|x| - 1] as real - m;
    d * d * (|x| as real - 1.0) <= Deviations(x, m)
  }

  /** What the digit is taken to have taken: nothing if its timer had hardly anything left. */
  function Taking(timeout: nat, wait: int): int {
    if wait <= timeout then 0 else timeout * 1000 - wait
  }

  lemma Compare(d: real, v: real, n: real)
    requires n > 0.0
    ensures d <= v <==> d * n <= v * n
  {
    if d <= v {
      assert (v - d) * n >= 0.0;
    } else {
      assert (d - v) * n > 0.0;
    }
  }

  /** The test on the sums is the test on the times, if the sums are theirs. */
  lemma SteadyIsAsUsual(x: seq<int>, total: nat, squared: nat)
    requires |x| >= 2 && total == Sum(x) && squared == SumSquares(x)
    ensures Steady(x[|x| - 1], total, squared, |x|) <==> AsUsual(x)
  {
    hide Deviations, Sum, SumSquares, OnePass;
    OnePassIsTwoPass(x, total, squared);
    var n := |x| as real - 1.0;
    var m := Mean(total, |x|);
    var d := x[|x| - 1] as real - m;
    Cancels(Deviations(x, m), n);
    hide Mean;
    Compare(d * d, OnePass(total, squared, |x|), n);
    assert m == Sum(x) as real / |x| as real by { MeanIs(total, |x|); }
  }

  lemma MeanIs(total: nat, n: nat)
    requires n > 0
    ensures Mean(total, n) == total as real / n as real
  {
  }

  /** What a digit that is measured makes of the emulation. */
  ghost predicate Decided(s: Dial, wait: int, s': Dial)
    requires s.len >= 1
  {
    var t := Taking(s.timeout, wait);
    var x := s.samples + [t];
    && s'.samples == x && |x| == s.len && s'.len == s.len + 1
    && var machine := s.len >= 4 && t < 400 && AsUsual(x);
       && (s'.off <==> wait <= s.timeout || (s.len >= 4 && !machine))
       && s'.timeout == (if machine then 2 else s.timeout)
       && s'.armed == s'.timeout
  }

  /**
   While no measured digit was taken back, the emulation decides on the true times. From the fifth digit on it waits
   for two seconds only, exactly if the digit came within 400 milliseconds and no further from the mean of all
   times than one standard deviation; and it gives up exactly if the digit did not, or came when its timer
   had hardly anything left.
   */
  lemma DecidesOnTimes(events: seq<Event>, wait: int)
    requires AllMeasured(START, events) && Taken(START, events) == 0
    requires
      var s := Run(START, events);
      !s.off && 1 <= s.len < 79 && Measured(s, Digit(wait))
    ensures Decided(Run(START, events), wait, Step(Run(START, events), Digit(wait)))
  {
    hide Run, Taken, AllMeasured, Good, Surplus, Step, Decided;
    Started();
    RunSurplus(START, events, 0);
    RunGood(START, events, 0);
    DecidesNow(Run(START, events), wait);
  }

  lemma DecidesNow(s: Dial, wait: int)
    requires Surplus(s, 0) && Good(s, 0) && !s.off && 1 <= s.len < 79 && Measured(s, Digit(wait))
    ensures Decided(s, wait, Step(s, Digit(wait)))
  {
    hide Deviations, OnePass, Sum, SumSquares, Mean, Most, Steady, AsUsual;
    PressSurplus(s, wait, 0);
    PressGood(s, wait, 0);
    var s' := Press(s, wait);
    MostFits(s', 0);
    var t := Taking(s.timeout, wait);
    assert t == Time(s, wait) && s'.samples == s.samples + [t] && s'.len == s.len + 1;
    if s.len >= 4 {
      SteadyIsAsUsual(s'.samples, s'.total, s'.squared);
    }
  }

  /** Once it gave up, and for the first digit, it measures nothing and sets the timer to what it was; beyond the longest
    * number nothing changes at all. */
  lemma OtherwiseUndecided(s: Dial, wait: int)
    requires s.off || s.len == 0 || s.len >= 79
    ensures Step(s, Digit(wait)) == if s.len >= 79 then s else s.(len := s.len + 1, armed := s.timeout)
  {
  }

  /** Taking a digit back changes the length and the timer, not what was measured. */
  lemma TakingBack(s: Dial)
    ensures Step(s, Backspace)
         == if s.len == 0 then s.(armed := 16) else s.(len := s.len - 1, armed := 8)
  {
  }
}
