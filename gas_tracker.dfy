/**
 * The two-slot gas history of `LoopEnergy` as a value: the current and the
 * previous sample (register reading and device timestamp) and the last
 * published rate. `Ingest` is one call of `_update_gas`; `Run` is a series
 * of calls.
 */
module GasTracker {
  import opened Wrappers
  import opened GasRate

  /** A `gas_interval` payload: `totalRegister` and `deviceTimestamp`. */
  datatype Sample = Sample(totalRegister: int, deviceTimestamp: int)

  /** `gas_reading`, `gas_device_timestamp`, `gas_old_reading`, `gas_old_timestamp`, `gas_kw`. */
  datatype GasState = GasState(
    reading: Option<int>,
    deviceTimestamp: Option<int>,
    oldReading: Option<int>,
    oldTimestamp: Option<int>,
    kw: Option<real>)

  /** The history of a freshly constructed client: everything unset. */
  const Fresh := GasState(None, None, None, None, None)

  /** The new history, and whether a rate was computed (so the callback is due). */
  datatype Step = Step(next: GasState, published: bool)

  /** True when `x` repeats the stored device timestamp. */
  predicate IsDuplicate(s: GasState, x: Sample)
  {
    Some(x.deviceTimestamp) == s.deviceTimestamp
  }

  /**
   * What every reachable history satisfies: a reading and its timestamp are
   * set together, the two slots hold different timestamps, the previous
   * slot is only filled once the current one is, and a rate exists only
   * once two distinct samples have been seen.
   */
  predicate Valid(s: GasState)
  {
    && (s.reading.Some? <==> s.deviceTimestamp.Some?)
    && (s.oldReading.Some? <==> s.oldTimestamp.Some?)
    && (s.oldTimestamp.Some? ==> s.deviceTimestamp.Some? && s.oldTimestamp != s.deviceTimestamp)
    && (s.kw.Some? ==> s.oldTimestamp.Some?)
  }

  /** One call of `_update_gas` on the history `s` with payload `x`. */
  function Ingest(s: GasState, x: Sample): (r: Step)
    // a duplicate is dropped: nothing changes and nothing is published
    ensures IsDuplicate(s, x) ==> r == Step(s, false)
    // otherwise current shifts into previous and the sample becomes current
    ensures !IsDuplicate(s, x) ==>
      && r.next.oldTimestamp == s.deviceTimestamp && r.next.oldReading == s.reading
      && r.next.deviceTimestamp == Some(x.deviceTimestamp) && r.next.reading == Some(x.totalRegister)
      && r.next.oldTimestamp != r.next.deviceTimestamp
    // a rate is computed exactly when a previous sample exists after the shift
    ensures r.published <==> !IsDuplicate(s, x) && s.deviceTimestamp.Some? && s.reading.Some?
    ensures r.published ==>
      && s.deviceTimestamp.value != x.deviceTimestamp
      && r.next.kw == Some(GasKw(x.totalRegister - s.reading.value,
                                 PeriodHours(x.deviceTimestamp - s.deviceTimestamp.value)))
    ensures !r.published ==> r.next.kw == s.kw
    ensures Valid(s) ==> Valid(r.next)
  {
    if IsDuplicate(s, x) then
      Step(s, false)
    else
      var shifted := s.(oldTimestamp := s.deviceTimestamp, deviceTimestamp := Some(x.deviceTimestamp),
                        oldReading := s.reading, reading := Some(x.totalRegister));
      if shifted.oldTimestamp.None? || shifted.oldReading.None? then
        Step(shifted, false)
      else
        var gasUsed := shifted.reading.value - shifted.oldReading.value;
        var period := PeriodHours(shifted.deviceTimestamp.value - shifted.oldTimestamp.value);
        Step(shifted.(kw := Some(GasKw(gasUsed, period))), true)
  }

  /** Feeding the same sample twice in a row: the second call is a no-op. */
  lemma IngestTwice(s: GasState, x: Sample)
    ensures Ingest(Ingest(s, x).next, x) == Step(Ingest(s, x).next, false)
  {
  }

  /** The history after a series of calls, and how many of them published a rate. */
  datatype RunResult = RunResult(state: GasState, published: nat)

  function Run(s: GasState, xs: seq<Sample>): (r: RunResult)
    ensures r.published <= |xs|
    ensures Valid(s) ==> Valid(r.state)
    decreases |xs|
  {
    if xs == [] then
      RunResult(s, 0)
    else
      var prev := Run(s, xs[..|xs| - 1]);
      var step := Ingest(prev.state, xs[|xs| - 1]);
      RunResult(step.next, prev.published + if step.published then 1 else 0)
  }

  /** No sample repeats the timestamp of the one right before it. */
  predicate NoRepeats(xs: seq<Sample>)
  {
    forall i :: 0 < i < |xs| ==> xs[i].deviceTimestamp != xs[i - 1].deviceTimestamp
  }

  /**
   * On a fresh client, a series of samples without repeats publishes no rate
   * for the first sample and one rate for each later sample, and the
   * published rate is the one between the last two samples.
   */
  lemma {:induction false} RunFresh(xs: seq<Sample>)
    requires NoRepeats(xs)
    ensures Run(Fresh, xs).published == if xs == [] then 0 else |xs| - 1
    ensures xs != [] ==>
      Run(Fresh, xs).state.reading == Some(xs[|xs| - 1].totalRegister) &&
      Run(Fresh, xs).state.deviceTimestamp == Some(xs[|xs| - 1].deviceTimestamp)
    ensures |xs| < 2 ==> Run(Fresh, xs).state.kw == None
    ensures |xs| >= 2 ==>
      var last, prev := xs[|xs| - 1], xs[|xs| - 2];
      Run(Fresh, xs).state.oldReading == Some(prev.totalRegister) &&
      Run(Fresh, xs).state.oldTimestamp == Some(prev.deviceTimestamp) &&
      Run(Fresh, xs).state.kw == Some(GasKw(last.totalRegister - prev.totalRegister,
                                            PeriodHours(last.deviceTimestamp - prev.deviceTimestamp)))
  {
    if xs != [] {
      var init := xs[..|xs| - 1];
      assert NoRepeats(init) by {
        forall i | 0 < i < |init| ensures init[i].deviceTimestamp != init[i - 1].deviceTimestamp {
          assert init[i] == xs[i] && init[i - 1] == xs[i - 1];
        }
      }
      RunFresh(init);
      if |xs| >= 2 {
        assert init[|init| - 1] == xs[|xs| - 2];
      }
    }
  }

  /** The samples `_update_gas` keeps: each one that repeats the last kept timestamp is dropped. */
  function Dedup(xs: seq<Sample>): (d: seq<Sample>)
    ensures NoRepeats(d)
    ensures |d| <= |xs|
    ensures xs != [] ==> d != [] && d[|d| - 1].deviceTimestamp == xs[|xs| - 1].deviceTimestamp
    decreases |xs|
  {
    if xs == [] then
      []
    else
      var kept := Dedup(xs[..|xs| - 1]);
      var x := xs[|xs| - 1];
      if kept != [] && kept[|kept| - 1].deviceTimestamp == x.deviceTimestamp then kept else kept + [x]
  }

  /**
   * Duplicates make no difference: on a fresh client a series of samples
   * leaves the same history and publishes as many rates as the same series
   * with the duplicates removed.
   */
  lemma {:induction false} RunDedup(xs: seq<Sample>)
    ensures Run(Fresh, xs) == Run(Fresh, Dedup(xs))
  {
    if xs != [] {
      var init := xs[..|xs| - 1];
      var x := xs[|xs| - 1];
      var kept := Dedup(init);
      RunDedup(init);
      RunFresh(kept);
      if kept != [] && kept[|kept| - 1].deviceTimestamp == x.deviceTimestamp {
        assert IsDuplicate(Run(Fresh, init).state, x);
      } else {
        assert (kept + [x])[..|kept|] == kept;
      }
    }
  }

  /** On a fresh client, every sample that is not a duplicate but the first publishes a rate. */
  lemma {:induction false} RunPublishedCount(xs: seq<Sample>)
    ensures Run(Fresh, xs).published == if xs == [] then 0 else |Dedup(xs)| - 1
  {
    RunDedup(xs);
    RunFresh(Dedup(xs));
  }
}
