/** The three instruments of `prepareStatistics` (duration histogram, call counter, error
    counter), kept as counts per label, and the label `funcLabel` derives. */
module Telemetry {

  /** A label value. `Named(text)` is a string label; `LabelFunction` is the `funcLabel`
      method object itself, which one error path passes where a string is expected. */
  datatype Label = Named(text: string) | LabelFunction

  /** A started timer: the `end` function `startTimer` returns, bound to its label. */
  datatype Timer = Timer(series: Label)

  /** The instruments' contents: `calls` and `errors` are the counters, `observed` counts
      the durations the histogram has recorded, and `started` the timers handed out. */
  datatype Tally = Tally(
    calls: map<Label, nat>,
    errors: map<Label, nat>,
    observed: map<Label, nat>,
    started: map<Label, nat>)

  const Zero: Tally := Tally(map[], map[], map[], map[])

  function Count(m: map<Label, nat>, l: Label): nat {
    if l in m then m[l] else 0
  }

  /** One increment of the series for `l`. */
  function Bump(m: map<Label, nat>, l: Label): (r: map<Label, nat>)
    ensures Count(r, l) == Count(m, l) + 1
    ensures forall k :: k != l ==> Count(r, k) == Count(m, k)
    ensures r.Keys == m.Keys + {l}
  {
    m[l := Count(m, l) + 1]
  }

  /** `funcLabel(req)`: the module name, a dash and the request's method. */
  function FuncLabel(moduleName: string, httpMethod: string): (r: string)
    ensures |r| > |moduleName| && r[..|moduleName|] == moduleName && r[|moduleName|] == '-'
  {
    var r := moduleName + "-" + httpMethod;
    assert r[..|moduleName|] == moduleName;
    r
  }

  /** The method can be read back from a label of a known module. */
  function MethodOfLabel(moduleName: string, text: string): string
    requires |text| > |moduleName|
  {
    text[|moduleName| + 1..]
  }

  lemma {:induction false} LabelRoundTrip(moduleName: string, httpMethod: string)
    ensures |FuncLabel(moduleName, httpMethod)| > |moduleName|
    ensures MethodOfLabel(moduleName, FuncLabel(moduleName, httpMethod)) == httpMethod
  {
    var l := FuncLabel(moduleName, httpMethod);
    assert l[|moduleName| + 1..] == httpMethod;
  }

  /** Distinct methods of one module are counted under distinct labels. */
  lemma LabelSeparatesMethods(moduleName: string, m1: string, m2: string)
    requires m1 != m2
    ensures FuncLabel(moduleName, m1) != FuncLabel(moduleName, m2)
  {
    LabelRoundTrip(moduleName, m1);
    LabelRoundTrip(moduleName, m2);
  }

  /** The process-wide instruments. `started` is bookkeeping of the model: the
      histogram itself only records the observations. */
  class Metrics {
    var calls: map<Label, nat>
    var errors: map<Label, nat>
    var observed: map<Label, nat>
    ghost var started: map<Label, nat>

    ghost function Snapshot(): Tally
      reads this
    {
      Tally(calls, errors, observed, started)
    }

    constructor ()
      ensures Snapshot() == Zero
    {
      calls, errors, observed := map[], map[], map[];
      started := map[];
    }

    /** `callsCounter.labels(l).inc()`. */
    method IncCalls(l: Label)
      modifies this
      ensures Snapshot() == old(Snapshot()).(calls := Bump(old(calls), l))
    {
      calls := Bump(calls, l);
    }

    /** `errorsCounter.labels(l).inc()`. */
    method IncErrors(l: Label)
      modifies this
      ensures Snapshot() == old(Snapshot()).(errors := Bump(old(errors), l))
    {
      errors := Bump(errors, l);
    }

    /** `timeHistogram.labels(l).startTimer()`. */
    method StartTimer(l: Label) returns (t: Timer)
      modifies this
      ensures t == Timer(l)
      ensures Snapshot() == old(Snapshot()).(started := Bump(old(started), l))
    {
      started := Bump(started, l);
      t := Timer(l);
    }

    /** Calling the `end` function `startTimer` returned: one observation. */
    method EndTimer(t: Timer)
      modifies this
      ensures Snapshot() == old(Snapshot()).(observed := Bump(old(observed), t.series))
    {
      observed := Bump(observed, t.series);
    }
  }
}
