/** Broker health: a weighted score and the status read off it. */
module Health {
  import opened Common

  datatype Inputs = Inputs(latency: real, successRate: real, timeoutRate: real, connectivity: bool, ipHealth: real)

  datatype Weights = Weights(latency: real, success: real, connectivity: real, timeout: real, ip: real)

  datatype Thresholds = Thresholds(healthyMin: real, degradedMin: real)

  datatype Status = Unhealthy | Degraded | Healthy

  function Clamp(value: real, lo: real, hi: real): real {
    var upper := if hi < value then hi else value;
    if lo < upper then upper else lo
  }

  function Weigh(w: real, part: real): real {
    w * part
  }

  function Score(x: Inputs, w: Weights, budget: real): real
    requires budget != 0.0
  {
    Weigh(w.latency, Clamp(100.0 * (1.0 - x.latency / budget), 0.0, 100.0))
    + Weigh(w.success, x.successRate * 100.0)
    + Weigh(w.connectivity, if x.connectivity then 100.0 else 0.0)
    + Weigh(w.timeout, 100.0 - x.timeoutRate * 100.0)
    + Weigh(w.ip, x.ipHealth)
  }

  function StatusOf(score: real, t: Thresholds): Status {
    if score >= t.healthyMin then Healthy
    else if score >= t.degradedMin then Degraded
    else Unhealthy
  }

  function Level(s: Status): nat {
    match s
    case Unhealthy => 0
    case Degraded => 1
    case Healthy => 2
  }

  predicate NonNegative(w: Weights) {
    w.latency >= 0.0 && w.success >= 0.0 && w.connectivity >= 0.0 && w.timeout >= 0.0 && w.ip >= 0.0
  }

  /** y is at least as healthy as x in every input. */
  predicate AtLeastAsHealthy(x: Inputs, y: Inputs) {
    && y.latency <= x.latency
    && x.successRate <= y.successRate
    && y.timeoutRate <= x.timeoutRate
    && (x.connectivity ==> y.connectivity)
    && x.ipHealth <= y.ipHealth
  }

  lemma ScaleKeepsOrder(w: real, a: real, b: real)
    requires w >= 0.0 && a <= b
    ensures Weigh(w, a) <= Weigh(w, b)
  {
    assert w * (b - a) >= 0.0;
  }

  lemma LowerLatencyScoresHigher(a: real, b: real, budget: real)
    requires budget > 0.0 && b <= a
    ensures Clamp(100.0 * (1.0 - a / budget), 0.0, 100.0) <= Clamp(100.0 * (1.0 - b / budget), 0.0, 100.0)
  {
    var x, y := a / budget, b / budget;
    assert x * budget == a && y * budget == b;
    if x < y {
      assert (y - x) * budget > 0.0;
    }
  }

  // ---------------------------------------------------------------------------
  // What each measurement is worth
  // ---------------------------------------------------------------------------

  /** At best a broker scores 100 times the weights together. */
  lemma BestScore(x: Inputs, w: Weights, budget: real)
    requires budget > 0.0 && x.latency <= 0.0 && x.successRate == 1.0 && x.timeoutRate == 0.0 && x.connectivity && x.ipHealth == 100.0
    ensures Score(x, w, budget) == 100.0 * (w.latency + w.success + w.connectivity + w.timeout + w.ip)
  {
    assert x.latency / budget <= 0.0;
  }

  /** Success, timeouts, connectivity and the IP's health count in proportion to their own weights. */
  lemma MeasurementsCount(x: Inputs, w: Weights, budget: real, rate: real, health: real)
    requires budget > 0.0
    ensures Score(x.(successRate := rate), w, budget) == Score(x, w, budget) + w.success * (100.0 * (rate - x.successRate))
    ensures Score(x.(timeoutRate := rate), w, budget) == Score(x, w, budget) - w.timeout * (100.0 * (rate - x.timeoutRate))
    ensures Score(x.(ipHealth := health), w, budget) == Score(x, w, budget) + w.ip * (health - x.ipHealth)
    ensures Score(x.(connectivity := true), w, budget) == Score(x.(connectivity := false), w, budget) + w.connectivity * 100.0
  {
    Distributes(w.success, rate * 100.0, x.successRate * 100.0);
    Distributes(w.timeout, 100.0 - rate * 100.0, 100.0 - x.timeoutRate * 100.0);
    Distributes(w.ip, health, x.ipHealth);
    assert 100.0 * (rate - x.successRate) == rate * 100.0 - x.successRate * 100.0;
    assert -(100.0 * (rate - x.timeoutRate)) == (100.0 - rate * 100.0) - (100.0 - x.timeoutRate * 100.0);
  }

  lemma Distributes(w: real, a: real, b: real)
    ensures Weigh(w, a) - Weigh(w, b) == w * (a - b)
  {
  }

  /** Latency counts down linearly to nothing at the budget, and no further. */
  lemma LatencyCounts(x: Inputs, w: Weights, budget: real)
    requires budget > 0.0
    ensures x.latency >= budget ==> Score(x, w, budget) == Score(x.(latency := budget), w, budget)
    ensures x.latency <= 0.0 ==> Score(x, w, budget) == Score(x.(latency := 0.0), w, budget)
    ensures 0.0 <= x.latency <= budget ==>
              Score(x, w, budget) == Score(x.(latency := budget), w, budget) + w.latency * (100.0 * (1.0 - x.latency / budget))
  {
    ShareOf(x.latency, budget);
    ShareOf(budget, budget);
    ShareOf(0.0, budget);
  }

  /** The status follows from the thresholds. */
  lemma StatusFollows(score: real, t: Thresholds)
    ensures StatusOf(score, t) == Healthy <==> score >= t.healthyMin
    ensures StatusOf(score, t) == Unhealthy <==> score < t.healthyMin && score < t.degradedMin
  {
  }

  /** Improving any input never lowers the score, nor the status read off it, whatever the thresholds. */
  lemma HealthierNeverScoresLower(x: Inputs, y: Inputs, w: Weights, budget: real, t: Thresholds)
    requires NonNegative(w) && budget > 0.0 && AtLeastAsHealthy(x, y)
    ensures Score(x, w, budget) <= Score(y, w, budget)
    ensures Level(StatusOf(Score(x, w, budget), t)) <= Level(StatusOf(Score(y, w, budget), t))
  {
    LowerLatencyScoresHigher(x.latency, y.latency, budget);
    ScaleKeepsOrder(w.latency, Clamp(100.0 * (1.0 - x.latency / budget), 0.0, 100.0),
                    Clamp(100.0 * (1.0 - y.latency / budget), 0.0, 100.0));
    ScaleKeepsOrder(w.success, x.successRate * 100.0, y.successRate * 100.0);
    ScaleKeepsOrder(w.connectivity, if x.connectivity then 100.0 else 0.0, if y.connectivity then 100.0 else 0.0);
    ScaleKeepsOrder(w.timeout, 100.0 - x.timeoutRate * 100.0, 100.0 - y.timeoutRate * 100.0);
    ScaleKeepsOrder(w.ip, x.ipHealth, y.ipHealth);
  }
}
