/** The UPS polling thread: one save per cycle, a sleep of the configured
  * interval after it, and an exponential back-off when a cycle raises. */
module App {
  import opened Wrappers

  /** How one cycle went: the save completed (successfully or not) and the
    * polling interval was read (`None` when there is no configuration row
    * or reading it failed), or the cycle raised. */
  datatype Cycle = Completed(saved: bool, interval: Option<int>) | Raised

  const MIN_INTERVAL: int := 1
  const MAX_INTERVAL: int := 60
  const MAX_BACKOFF: int := 300

  /** `max(1, min(60, interval))`. */
  function Clamp(interval: int): (r: int)
    ensures MIN_INTERVAL <= r <= MAX_INTERVAL
    ensures MIN_INTERVAL <= interval <= MAX_INTERVAL ==> r == interval
    ensures interval < MIN_INTERVAL ==> r == MIN_INTERVAL
    ensures interval > MAX_INTERVAL ==> r == MAX_INTERVAL
  {
    if interval < MIN_INTERVAL then MIN_INTERVAL else if interval > MAX_INTERVAL then MAX_INTERVAL else interval
  }

  function Pow2(n: nat): (r: nat)
    ensures r >= 1
  {
    if n == 0 then 1 else 2 * Pow2(n - 1)
  }

  /** `min(300, 2 ** failures)`. */
  function Backoff(failures: nat): (r: int)
    ensures 1 <= r <= MAX_BACKOFF
    ensures failures >= 1 ==> r >= 2
  {
    if Pow2(failures) < MAX_BACKOFF then Pow2(failures) else MAX_BACKOFF
  }

  /** The back-off doubles until it reaches five minutes. */
  lemma {:induction false} BackoffGrowth(failures: nat)
    ensures failures <= 8 ==> Backoff(failures) == Pow2(failures)
    ensures failures >= 9 ==> Backoff(failures) == MAX_BACKOFF
    ensures Backoff(failures) <= Backoff(failures + 1)
  {
    assert Pow2(8) == 256 && Pow2(9) == 512;
    if failures <= 8 {
      Pow2Monotone(failures, 8);
    } else {
      Pow2Monotone(9, failures);
    }
  }

  lemma {:induction false} Pow2Monotone(a: nat, b: nat)
    requires a <= b
    ensures Pow2(a) <= Pow2(b)
    decreases b - a
  {
    if a < b {
      Pow2Monotone(a, b - 1);
    }
  }

  /** The number of failed cycles at the end of the run, back to the last
    * successful save. */
  function TrailingFailures(cycles: seq<Cycle>): (r: nat)
    ensures r <= |cycles|
    decreases |cycles|
  {
    if |cycles| == 0 then 0
    else
      var last := cycles[|cycles| - 1];
      if last.Completed? && last.saved then 0 else TrailingFailures(cycles[..|cycles| - 1]) + 1
  }

  /** The state the polling thread keeps between cycles. */
  class Poller {
    var failures: nat

    constructor ()
      ensures failures == 0
    {
      failures := 0;
    }

    /** One cycle: a completed save resets or bumps the failure count and
      * sleeps the clamped interval (1 second when it could not be read);
      * a cycle that raised bumps the count and backs off. Returns the
      * sleep in seconds. */
    method Step(c: Cycle) returns (sleep: int)
      modifies this
      ensures c.Completed? && c.saved ==> failures == 0
      ensures !(c.Completed? && c.saved) ==> failures == old(failures) + 1
      ensures c.Completed? ==> sleep == Clamp(c.interval.GetOr(1))
      ensures c.Raised? ==> sleep == Backoff(failures)
    {
      match c
      case Completed(saved, interval) =>
        if !saved {
          failures := failures + 1;
        } else {
          failures := 0;
        }
        var pollingInterval := if interval.Some? then interval.value else 1;
        sleep := Clamp(pollingInterval);
      case Raised =>
        failures := failures + 1;
        sleep := Backoff(failures);
    }
  }

  /** The polling loop over a finite run of cycles: returns the sleeps it
    * takes and leaves the failure count at the number of failed cycles
    * since the last successful save. A save that fails without raising
    * takes the normal clamped sleep, never the back-off. */
  method PollingThread(cycles: seq<Cycle>) returns (sleeps: seq<int>, failures: nat)
    ensures |sleeps| == |cycles|
    ensures failures == TrailingFailures(cycles)
    ensures forall i :: 0 <= i < |cycles| ==> 1 <= sleeps[i] <= MAX_BACKOFF
    ensures forall i :: 0 <= i < |cycles| && cycles[i].Completed? ==> sleeps[i] == Clamp(cycles[i].interval.GetOr(1))
    ensures forall i :: 0 <= i < |cycles| && cycles[i].Raised? ==> sleeps[i] == Backoff(TrailingFailures(cycles[..i + 1]))
  {
    var p := new Poller();
    sleeps := [];
    var i := 0;
    while i < |cycles|
      invariant 0 <= i <= |cycles|
      invariant |sleeps| == i
      invariant p.failures == TrailingFailures(cycles[..i])
      invariant forall j :: 0 <= j < i ==> 1 <= sleeps[j] <= MAX_BACKOFF
      invariant forall j :: 0 <= j < i && cycles[j].Completed? ==> sleeps[j] == Clamp(cycles[j].interval.GetOr(1))
      invariant forall j :: 0 <= j < i && cycles[j].Raised? ==> sleeps[j] == Backoff(TrailingFailures(cycles[..j + 1]))
    {
      assert cycles[..i + 1][..i] == cycles[..i];
      var s := p.Step(cycles[i]);
      sleeps := sleeps + [s];
      i := i + 1;
    }
    assert cycles[..i] == cycles;
    failures := p.failures;
  }
}
