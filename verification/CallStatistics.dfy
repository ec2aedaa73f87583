/**
 * The running averages of the statistics of a device's calls.  They are integers: each new average is cut
 * to an integer, so the error of one call is carried into the next.
 */
module CallStatistics {
  const WORD := 0x1_0000_0000

  /** Division as C does it: towards zero. */
  function Div(a: int, b: int): int
    requires b > 0
  {
    if a >= 0 then a / b else -((-a) / b)
  }

  /** The new average of n + 1 values, from the average of n. */
  function Next(value: int, mean: int, n: nat): int {
    Div(mean * n + value, n + 1)
  }

  /** The same on unsigned 32-bit words. */
  function NextWord(value: nat, mean: nat, n: nat): nat {
    ((mean * n + value) % WORD) / (n + 1)
  }

  function Average(values: seq<int>): int {
    if values == [] then 0
    else Next(values[|values| - 1], Average(values[..|values| - 1]), |values| - 1)
  }

  function Sum(values: seq<int>): int {
    if values == [] then 0 else Sum(values[..|values| - 1]) + values[|values| - 1]
  }

  predicate Within(values: seq<int>, low: int, high: int) {
    forall i :: 0 <= i < |values| ==> low <= values[i] <= high
  }

  lemma Scale(a: int, b: int, n: nat)
    requires a <= b
    ensures a * n <= b * n
  {
  }

  lemma Scale1(a: int, n: nat)
    ensures (a + 1) * n == a * n + n
  {
  }

  lemma FloorBounds(a: nat, b: int, low: int, high: int)
    requires b > 0 && low * b <= a <= high * b
    ensures low <= a / b <= high
  {
    FloorBetween(a, b, a / b, low, high);
  }

  lemma FloorBetween(a: nat, b: int, q: int, low: int, high: int)
    requires b > 0 && low * b <= a <= high * b
    requires q * b <= a < q * b + b
    ensures low <= q <= high
  {
    if q < low {
      Scale(q + 1, low, b);
      Scale1(q, b);
      assert false;
    }
    if q > high {
      Scale(high + 1, q, b);
      Scale1(high, b);
      assert false;
    }
  }

  lemma DivBounds(a: int, b: int, low: int, high: int)
    requires b > 0 && low * b <= a <= high * b
    ensures low <= Div(a, b) <= high
  {
    if a >= 0 {
      FloorBounds(a, b, low, high);
    } else {
      assert -high * b <= -a <= -low * b;
      FloorBounds(-a, b, -high, -low);
    }
  }

  /** The average of n values and one more stay within the same bounds. */
  lemma NextWithin(value: int, mean: int, n: nat, low: int, high: int)
    requires low <= value <= high && (n > 0 ==> low <= mean <= high)
    ensures low <= Next(value, mean, n) <= high
  {
    if n > 0 {
      Scale(low, mean, n);
      Scale(mean, high, n);
    }
    assert low * (n + 1) == low * n + low && high * (n + 1) == high * n + high;
    DivBounds(mean * n + value, n + 1, low, high);
  }

  /** The average stays between the smallest and the largest value there was. */
  lemma {:induction false} AverageWithin(values: seq<int>, low: int, high: int)
    requires values != [] && Within(values, low, high)
    ensures low <= Average(values) <= high
    decreases |values|
  {
    hide Next;
    var n := |values| - 1;
    if n > 0 {
      AverageWithin(values[..n], low, high);
    }
    NextWithin(values[n], Average(values[..n]), n, low, high);
  }

  lemma Remainder(a: int, b: int)
    requires b > 0
    ensures a >= 0 ==> 0 <= a - b * Div(a, b) < b
    ensures a < 0 ==> -b < a - b * Div(a, b) <= 0
  {
    if a < 0 {
      assert -a == b * ((-a) / b) + (-a) % b;
    }
  }

  /** What the true sum can be off by after n calls. */
  function Drift(n: nat): nat {
    n * (n - 1) / 2
  }

  lemma DriftNext(n: nat)
    ensures Drift(n + 1) == Drift(n) + n
  {
    assert (n + 1) * n == n * (n - 1) + 2 * n;
  }

  /** One call adds its rounding to the drift. */
  lemma NextDrift(value: int, mean: int, n: nat)
    ensures -(n as int) <= mean * n + value - (n + 1) * Next(value, mean, n) <= n
    ensures value >= 0 && mean >= 0 ==>
              (n + 1) * Next(value, mean, n) <= mean * n + value && Next(value, mean, n) >= 0
  {
    Remainder(mean * n + value, n + 1);
    if value >= 0 && mean >= 0 {
      Scale(0, mean, n);
    }
  }

  /** For counters that are never negative, n times the average is at most the true sum, and less than it
    * by n(n-1)/2 at most; for signed ones the two differ by no more than that, either way. */
  lemma {:induction false} AverageDrift(values: seq<int>)
    ensures -(Drift(|values|) as int) <= Sum(values) - |values| * Average(values) <= Drift(|values|)
    ensures (forall i :: 0 <= i < |values| ==> values[i] >= 0) ==>
              |values| * Average(values) <= Sum(values) && Average(values) >= 0
    decreases |values|
  {
    if values != [] {
      hide Next, Drift;
      var n := |values| - 1;
      var mean, value := Average(values[..n]), values[n];
      AverageDrift(values[..n]);
      DriftNext(n);
      NextDrift(value, mean, n);
      assert |values| * Average(values) == (n + 1) * Next(value, mean, n);
      assert n * mean == mean * n;
    }
  }

  /** The word arithmetic gives the true new average exactly if the sum it forms fits into a word. */
  lemma WordsAreExact(value: nat, mean: nat, n: nat)
    requires n + 1 <= WORD
    ensures NextWord(value, mean, n) == Next(value, mean, n) <==> mean * n + value < WORD
  {
    var x, b := mean * n + value, n + 1;
    if x >= WORD {
      Wraps(x, b);
    }
  }

  lemma Wraps(x: nat, b: nat)
    requires x >= WORD && 0 < b <= WORD
    ensures (x % WORD) / b < x / b
  {
    var y, q := x % WORD, x / b;
    assert y + b <= x;
    assert q * b <= x < q * b + b;
    FloorBelow(y, b, q);
  }

  lemma FloorBelow(y: nat, b: nat, q: int)
    requires b > 0 && y < q * b
    ensures y / b < q
  {
    if y / b >= q {
      Scale(q, y / b, b);
      assert false;
    }
  }

  // ---------------------------------------------------------------------------------------------
  // The counters of a device's calls

  /** The counters of one call; all are unsigned words but the lost packets, which can be negative. */
  datatype Report = Report(sent: nat, received: nat, lost: int, jitter: nat, latency: nat)

  datatype Counter = Sent | Received | Lost | Jitter | Latency

  function Of(r: Report, k: Counter): int {
    match k
    case Sent => r.sent
    case Received => r.received
    case Lost => r.lost
    case Jitter => r.jitter
    case Latency => r.latency
  }

  function Column(reports: seq<Report>, k: Counter): (values: seq<int>)
    ensures |values| == |reports|
  {
    if reports == [] then [] else Column(reports[..|reports| - 1], k) + [Of(reports[|reports| - 1], k)]
  }

  /** The sum that a new average is formed from. */
  function Formed(mean: int, n: nat, value: int): int {
    mean * n + value
  }

  /** The words give the average of one report more. */
  ghost predicate Exact(r: Report, k: Counter, reports: seq<Report>)
    requires Of(r, k) >= 0 && Average(Column(reports, k)) >= 0
  {
    NextWord(Of(r, k), Average(Column(reports, k)), |reports|) == Average(Column(reports + [r], k))
  }

  /** One call more is one value more; in words, exactly if the sum fits. */
  lemma OneMore(reports: seq<Report>, r: Report, k: Counter)
    requires |reports| + 1 <= WORD
    ensures Average(Column(reports + [r], k)) == Next(Of(r, k), Average(Column(reports, k)), |reports|)
    ensures Of(r, k) >= 0 && Average(Column(reports, k)) >= 0 ==>
              (Exact(r, k, reports) <==> Formed(Average(Column(reports, k)), |reports|, Of(r, k)) < WORD)
  {
    assert (reports + [r])[..|reports|] == reports;
    var values := Column(reports, k);
    assert (values + [Of(r, k)])[..|values|] == values;
    if Of(r, k) >= 0 && Average(values) >= 0 {
      hide Next, NextWord;
      WordsAreExact(Of(r, k), Average(values), |reports|);
    }
  }

  /** What becomes of each counter with one call more, all at once. */
  lemma AllFollow(reports: seq<Report>, r: Report)
    requires |reports| + 1 <= WORD
    ensures Average(Column(reports + [r], Lost)) == Next(r.lost, Average(Column(reports, Lost)), |reports|)
    ensures Follows(reports, r, Sent, r.sent) && Follows(reports, r, Received, r.received)
    ensures Follows(reports, r, Jitter, r.jitter) && Follows(reports, r, Latency, r.latency)
  {
    hide Average, Column, Next, NextWord, Formed;
    OneMore(reports, r, Sent);
    OneMore(reports, r, Received);
    OneMore(reports, r, Lost);
    OneMore(reports, r, Jitter);
    OneMore(reports, r, Latency);
  }

  ghost predicate Follows(reports: seq<Report>, r: Report, k: Counter, value: nat) {
    var mean := Average(Column(reports, k));
    mean >= 0 ==>
      (NextWord(value, mean, |reports|) == Average(Column(reports + [r], k)) <==> Formed(mean, |reports|, value) < WORD)
  }

  class Statistics {
    var num: nat
    var packetsSent: nat
    var packetsReceived: nat
    var packetsLost: int
    var jitter: nat
    var latency: nat

    function Value(k: Counter): int
      reads this
    {
      match k
      case Sent => packetsSent
      case Received => packetsReceived
      case Lost => packetsLost
      case Jitter => jitter
      case Latency => latency
    }

    ghost predicate Holds(reports: seq<Report>)
      reads this
    {
      |reports| == num && forall k: Counter :: Value(k) == Average(Column(reports, k))
    }

    /** One more call: the average of the lost packets is that of one call more, and so is each of the others
      * exactly if the sum it is formed from fits into a word. */
    method AddCall(last: Report, ghost reports: seq<Report>)
      requires Holds(reports) && num + 1 < WORD
      modifies this
      ensures num == old(num) + 1
      ensures packetsLost == Average(Column(reports + [last], Lost))
      ensures forall k: Counter :: k != Lost ==>
                (Value(k) == Average(Column(reports + [last], k)) <==> old(Formed(Value(k), num, Of(last, k))) < WORD)
    {
      hide Average, Column, Next, NextWord, Formed;
      AllFollow(reports, last);
      assert Value(Sent) == Average(Column(reports, Sent)) && Value(Received) == Average(Column(reports, Received));
      assert Value(Lost) == Average(Column(reports, Lost));
      assert Value(Jitter) == Average(Column(reports, Jitter)) && Value(Latency) == Average(Column(reports, Latency));
      hide Holds;
      packetsSent := NextWord(last.sent, packetsSent, num);
      packetsReceived := NextWord(last.received, packetsReceived, num);
      packetsLost := Next(last.lost, packetsLost, num);
      jitter := NextWord(last.jitter, jitter, num);
      latency := NextWord(last.latency, latency, num);
      num := num + 1;
    }
  }
}
