/** The simulated wristband of the monitoring screen (MonitoramentoScreen): every
    five seconds the heart rate moves by a random offset and is clamped to the
    band 60..120. The random draw `Math.floor(Math.random() * 10)` is a
    parameter `d` in 0..9. */
module DeviceMonitor {

  const MinRate: int := 60
  const MaxRate: int := 120

  /** The initial value of `heartRate`. */
  const InitialRate: int := 72

  predicate InBand(rate: int) {
    MinRate <= rate <= MaxRate
  }

  function Distance(a: int, b: int): nat {
    if a <= b then b - a else a - b
  }

  /** The updater `prev => max(60, min(120, prev + d - 5))`. */
  function HeartRateStep(prev: int, d: int): (r: int)
    requires 0 <= d <= 9
    ensures InBand(r)
  {
    var raw := prev + d - 5;
    if raw < MinRate then MinRate else if raw > MaxRate then MaxRate else raw
  }

  /** The step picks the rate in the band closest to the unclamped value: the
      unclamped value itself when it is inside the band. */
  lemma StepIsNearestInBand(prev: int, d: int, x: int)
    requires 0 <= d <= 9
    requires InBand(x)
    ensures Distance(HeartRateStep(prev, d), prev + d - 5) <= Distance(x, prev + d - 5)
    ensures InBand(prev + d - 5) ==> HeartRateStep(prev, d) == prev + d - 5
  {
  }

  /** From a rate inside the band, one step moves it by at most 5 beats (down
      by at most 5, up by at most 4). */
  lemma StepBoundedChange(prev: int, d: int)
    requires 0 <= d <= 9
    requires InBand(prev)
    ensures -5 <= HeartRateStep(prev, d) - prev <= 4
    ensures Distance(HeartRateStep(prev, d), prev) <= 5
  {
  }

  predicate ValidDraws(ds: seq<int>) {
    forall i :: 0 <= i < |ds| ==> 0 <= ds[i] <= 9
  }

  /** The rates the screen shows: the start value, then one more per firing of
      the interval, with `ds[i]` the draw of the i-th firing. */
  function Readings(start: int, ds: seq<int>): (r: seq<int>)
    requires ValidDraws(ds)
    ensures |r| == |ds| + 1 && r[0] == start
    ensures forall i :: 0 < i < |r| ==> InBand(r[i])
    ensures forall i :: 0 <= i < |ds| ==> r[i + 1] == HeartRateStep(r[i], ds[i])
  {
    if ds == [] then [start]
    else
      var before := Readings(start, ds[..|ds| - 1]);
      before + [HeartRateStep(before[|before| - 1], ds[|ds| - 1])]
  }

  /** Over any run of the simulation from the initial 72, every shown rate is
      in the band and consecutive rates differ by at most 5. */
  lemma {:induction false} ReadingsStayInBand(ds: seq<int>)
    requires ValidDraws(ds)
    ensures var r := Readings(InitialRate, ds);
      (forall i :: 0 <= i < |r| ==> InBand(r[i])) &&
      (forall i :: 0 <= i < |ds| ==> Distance(r[i], r[i + 1]) <= 5)
  {
    var r := Readings(InitialRate, ds);
    forall i | 0 <= i < |ds|
      ensures Distance(r[i], r[i + 1]) <= 5
    {
      StepBoundedChange(r[i], ds[i]);
    }
  }
}
