/** Heartbeat timing over exact reals: clamping, guarded backoff and saturating schedules. */
module Heartbeat {
  import opened Common

  /** The last representable instant. */
  const MAX_TIME: Time := 253402300799999999

  const SECOND: int := 1000000

  function RealMin(a: real, b: real): real {
    if a <= b then a else b
  }

  function RealMax(a: real, b: real): real {
    if a >= b then a else b
  }

  /** Rounds to the nearest integer, ties to the even one. */
  function Round(x: real): int {
    var low, rest := x.Floor, x - x.Floor as real;
    if rest < 0.5 then low
    else if rest > 0.5 then low + 1
    else if low % 2 == 0 then low
    else low + 1
  }

  /** Adds seconds to an instant without ever leaving the representable range. */
  function AddSeconds(anchor: Time, seconds: real): Time {
    var available := MAX_TIME - anchor;
    var whole := seconds.Floor;
    if whole > available / SECOND then MAX_TIME
    else
      var micros := Round((seconds - whole as real) * SECOND as real);
      if whole == available / SECOND && micros >= available % SECOND then MAX_TIME
      else anchor + whole * SECOND + micros
  }

  lemma FloorOf(x: real, n: int)
    requires n as real <= x < n as real + 1.0
    ensures x.Floor == n
  {
  }

  lemma RoundShift(x: real, n: int)
    requires n % 2 == 0
    ensures Round(x + n as real) == Round(x) + n
  {
    FloorOf(x + n as real, x.Floor + n);
  }

  lemma RoundMonotone(x: real, y: real)
    requires x <= y
    ensures Round(x) <= Round(y)
  {
    assert x.Floor <= y.Floor;
  }

  lemma RoundBounds(x: real, low: int, high: int)
    requires low as real <= x <= high as real
    ensures low <= Round(x) <= high
  {
    FloorOf(low as real, low);
    FloorOf(high as real, high);
    RoundMonotone(low as real, x);
    RoundMonotone(x, high as real);
  }

  lemma SplitSeconds(seconds: real)
    requires seconds >= 0.0
    ensures var whole := seconds.Floor;
      var micros := Round((seconds - whole as real) * SECOND as real);
      0 <= micros <= SECOND && Round(seconds * SECOND as real) == whole * SECOND + micros
  {
    var whole := seconds.Floor;
    var rest := seconds - whole as real;
    assert 0.0 <= rest < 1.0;
    var scaled := rest * SECOND as real;
    assert seconds * SECOND as real == scaled + (whole * SECOND) as real;
    RoundBounds(scaled, 0, SECOND);
    RoundShift(scaled, whole * SECOND);
  }

  lemma CutOffByParts(available: int, whole: int, micros: int)
    requires 0 <= available && 0 <= micros <= SECOND && 0 <= whole
    ensures Min(available, whole * SECOND + micros) ==
      if whole > available / SECOND || (whole == available / SECOND && micros >= available % SECOND) then available
      else whole * SECOND + micros
  {
    assert available == available / SECOND * SECOND + available % SECOND;
  }

  /** The addition is the rounded exact sum, cut off at the last instant; splitting off whole seconds loses nothing. */
  lemma AddSecondsIsCutOffSum(anchor: Time, seconds: real)
    requires anchor <= MAX_TIME && seconds >= 0.0
    ensures AddSeconds(anchor, seconds) == Min(MAX_TIME, anchor + Round(seconds * SECOND as real))
  {
    hide Round;
    var whole := seconds.Floor;
    SplitSeconds(seconds);
    CutOffByParts(MAX_TIME - anchor, whole, Round((seconds - whole as real) * SECOND as real));
  }

  // ---- Policy ----

  datatype Policy = Policy(minimum: real, maximum: real, factor: real) {
    /** What the constructor checks. */
    predicate Valid() {
      0.0 < minimum <= maximum && factor >= 1.0
    }

    function Least(): real {
      RealMax(1.0, minimum)
    }

    function Most(): real {
      RealMax(Least(), maximum)
    }

    function Clamp(interval: real): real {
      RealMin(Most(), RealMax(Least(), interval))
    }

    function NextInterval(interval: real, autonomous: bool, activity: bool): real
      requires Valid()
    {
      var retained := Clamp(interval);
      if activity || !autonomous then Least()
      else if retained >= Most() / factor then Most()
      else RealMin(Most(), retained * factor)
    }

    function Schedule(anchor: Time, interval: real, commitmentDue: Option<Time>): (Time, bool)
    {
      var due := AddSeconds(anchor, Clamp(interval));
      if commitmentDue.Some? && commitmentDue.value > anchor then
        var shortened := Max(AddSeconds(anchor, Least()), commitmentDue.value);
        if shortened < due then (shortened, true) else (due, false)
      else (due, false)
    }
  }

  lemma ClampBounds(p: Policy, interval: real)
    ensures 1.0 <= p.Least() <= p.Clamp(interval) <= p.Most()
    ensures p.Clamp(p.Clamp(interval)) == p.Clamp(interval)
    ensures p.Least() <= interval <= p.Most() <==> p.Clamp(interval) == interval
  {
  }

  lemma DivideMultiply(a: real, b: real, c: real)
    requires c > 0.0
    ensures a >= b / c <==> a * c >= b
  {
    var q := b / c;
    assert q * c == b;
    if a >= q {
      assert (a - q) * c >= 0.0;
    } else {
      assert (q - a) * c > 0.0;
    }
  }

  /** The guard before the multiplication changes nothing over exact numbers. */
  lemma BackoffIsCutOffProduct(p: Policy, interval: real)
    requires p.Valid()
    ensures p.NextInterval(interval, true, false) == RealMin(p.Most(), p.Clamp(interval) * p.factor)
  {
    DivideMultiply(p.Clamp(interval), p.Most(), p.factor);
  }

  function Power(x: real, k: nat): real {
    if k == 0 then 1.0 else Power(x, k - 1) * x
  }

  /** The interval after `k` idle autonomous cycles in a row, starting from a reset. */
  function IdleInterval(p: Policy, k: nat): real
    requires p.Valid()
  {
    if k == 0 then p.NextInterval(1.0, false, false) else p.NextInterval(IdleInterval(p, k - 1), true, false)
  }

  lemma {:induction false} PowerGrows(x: real, k: nat)
    requires x >= 1.0
    ensures Power(x, k) >= 1.0 + k as real * (x - 1.0)
    ensures Power(x, k) >= 1.0
  {
    if k > 0 {
      PowerGrows(x, k - 1);
      var before := Power(x, k - 1);
      assert (before - 1.0) * (x - 1.0) >= 0.0;
      assert Power(x, k) == before * x;
      assert before * x - before - (x - 1.0) == (before - 1.0) * (x - 1.0);
    }
  }

  lemma ScaleUp(a: real, b: real, c: real)
    requires a <= b && c >= 0.0
    ensures a * c <= b * c
  {
    assert (b - a) * c >= 0.0;
  }

  lemma CutOffTwice(most: real, product: real, factor: real)
    requires factor >= 1.0 && most >= 0.0 && product >= 0.0
    ensures RealMin(most, RealMin(most, product) * factor) == RealMin(most, product * factor)
  {
    ScaleUp(1.0, factor, most);
    ScaleUp(1.0, factor, product);
  }

  /** The geometric sequence without the cut-off. */
  function Unbounded(p: Policy, k: nat): real {
    if k == 0 then p.Least() else Unbounded(p, k - 1) * p.factor
  }

  lemma Regroup(a: real, b: real, c: real)
    ensures a * (b * c) == (a * b) * c
  {
  }

  lemma {:induction false} UnboundedIsProduct(p: Policy, k: nat)
    requires p.Valid()
    ensures Unbounded(p, k) == p.Least() * Power(p.factor, k)
    ensures Unbounded(p, k) >= p.Least()
  {
    if k > 0 {
      UnboundedIsProduct(p, k - 1);
      var power := Power(p.factor, k - 1);
      Regroup(p.Least(), power, p.factor);
      assert Power(p.factor, k) == power * p.factor;
      hide Power;
      ScaleUp(1.0, p.factor, Unbounded(p, k - 1));
    }
  }

  /** One more idle cycle multiplies what the cut-off left. */
  lemma IdleStep(p: Policy, interval: real, before: real, after: real)
    requires p.Valid() && before >= p.Least() && interval == RealMin(p.Most(), before) && after == before * p.factor
    ensures p.NextInterval(interval, true, false) == RealMin(p.Most(), after)
  {
    hide Policy.NextInterval;
    BackoffIsCutOffProduct(p, interval);
    assert p.Clamp(interval) == interval;
    CutOffTwice(p.Most(), before, p.factor);
  }

  lemma {:induction false} IdleIsCutOff(p: Policy, k: nat)
    requires p.Valid()
    ensures IdleInterval(p, k) == RealMin(p.Most(), Unbounded(p, k))
  {
    hide Policy.NextInterval, RealMin;
    if k == 0 {
      IdleStart(p);
    } else {
      IdleIsCutOff(p, k - 1);
      UnboundedIsProduct(p, k - 1);
      IdleStep(p, IdleInterval(p, k - 1), Unbounded(p, k - 1), Unbounded(p, k));
    }
  }

  lemma IdleStart(p: Policy)
    requires p.Valid()
    ensures IdleInterval(p, 0) == RealMin(p.Most(), Unbounded(p, 0))
  {
  }

  /** Idle intervals follow the geometric sequence, cut off at the maximum. */
  lemma IdleIsGeometric(p: Policy, k: nat)
    requires p.Valid()
    ensures IdleInterval(p, k) == RealMin(p.Most(), p.Least() * Power(p.factor, k))
  {
    hide Policy.NextInterval, IdleInterval, Power, RealMin;
    IdleIsCutOff(p, k);
    UnboundedIsProduct(p, k);
  }

  /** With a factor above one the maximum is reached after finitely many idle cycles. */
  lemma MaximumIsReached(p: Policy) returns (k: nat)
    requires p.Valid() && p.factor > 1.0
    ensures forall j :: j >= k ==> IdleInterval(p, j) == p.Most()
  {
    var needed := p.Most() / (p.factor - 1.0);
    DivideMultiply(0.0, p.Most(), p.factor - 1.0);
    k := if needed < 0.0 then 0 else needed.Floor + 1;
    forall j | j >= k
      ensures IdleInterval(p, j) == p.Most()
    {
      IdleReaches(p, j, needed);
    }
  }

  lemma IdleReaches(p: Policy, j: nat, needed: real)
    requires p.Valid() && p.factor > 1.0 && needed == p.Most() / (p.factor - 1.0) && j as real >= needed
    ensures IdleInterval(p, j) == p.Most()
  {
    hide IdleInterval, Power;
    IdleIsGeometric(p, j);
    PowerGrows(p.factor, j);
    DivideMultiply(j as real, p.Most(), p.factor - 1.0);
    var power := Power(p.factor, j);
    assert power >= p.Most();
    ScaleUp(1.0, p.Least(), power);
  }

  // ---- Schedules ----

  lemma AddMonotone(anchor: Time, a: real, b: real)
    requires anchor <= MAX_TIME && 0.0 <= a <= b
    ensures anchor <= AddSeconds(anchor, a) <= AddSeconds(anchor, b) <= MAX_TIME
  {
    AddSecondsIsCutOffSum(anchor, a);
    AddSecondsIsCutOffSum(anchor, b);
    RoundMonotone(a * SECOND as real, b * SECOND as real);
    RoundBounds(a * SECOND as real, 0, (a * SECOND as real).Floor + 1);
  }

  /** A schedule lies between the minimum and the interval after its anchor; a deadline only ever shortens it. */
  lemma ScheduleBounds(p: Policy, anchor: Time, interval: real, commitmentDue: Option<Time>)
    requires p.Valid() && anchor <= MAX_TIME
    ensures var (due, shortened) := p.Schedule(anchor, interval, commitmentDue);
      && anchor <= AddSeconds(anchor, p.Least()) <= due <= AddSeconds(anchor, p.Clamp(interval)) <= MAX_TIME
      && (shortened <==> due < AddSeconds(anchor, p.Clamp(interval)))
      && (shortened ==> commitmentDue.Some? && due == Max(AddSeconds(anchor, p.Least()), commitmentDue.value))
      && (!shortened && commitmentDue.Some? && commitmentDue.value > anchor ==> due <= Max(AddSeconds(anchor, p.Least()), commitmentDue.value))
  {
    ClampBounds(p, interval);
    AddMonotone(anchor, p.Least(), p.Clamp(interval));
  }

  lemma ScheduleMonotone(p: Policy, anchor: Time, shorter: real, longer: real, commitmentDue: Option<Time>)
    requires p.Valid() && anchor <= MAX_TIME && shorter <= longer
    ensures p.Schedule(anchor, shorter, commitmentDue).0 <= p.Schedule(anchor, longer, commitmentDue).0
  {
    ClampBounds(p, shorter);
    ClampBounds(p, longer);
    AddMonotone(anchor, p.Clamp(shorter), p.Clamp(longer));
  }
}
