/** Which samples of one device the collector saves: the first, each change, one per
    record interval, and the two on either side of every outage. */
module SavedHistory {
  import opened Common

  // live: read from a device, not generated for a demonstration.
  datatype Latest = Latest(time: real, online: bool, live: bool)

  datatype Track = Track(latest: Option<Latest>, lastRecorded: Option<real>, failures: nat, saved: seq<real>)

  // changed: the sample opened or closed an alarm; Forget: the device left the
  // configuration and its live values were dropped.
  datatype Event = Received(time: real, live: bool, changed: bool) | Failed(at: real) | Forget

  function Persist(k: Track, time: real): Track {
    if k.lastRecorded == Some(time) then k
    else k.(saved := k.saved + [time], lastRecorded := Some(time))
  }

  predicate Due(k: Track, time: real, changed: bool, interval: real) {
    k.latest.None? || k.failures > 0 || changed
    || time - (if k.lastRecorded.Some? then k.lastRecorded.value else 0.0) >= interval
  }

  function After(k: Track, e: Event, interval: real): Track {
    match e
    case Received(time, live, changed) =>
      var w := if Due(k, time, changed, interval) then Persist(k, time) else k;
      w.(latest := Some(Latest(time, true, live)), failures := 0)
    case Failed(at) =>
      var live := k.latest.Some? && k.latest.value.live;
      var w := k.(latest := Some(Latest(at, false, live)), failures := k.failures + 1);
      if live && k.latest.value.online then Persist(w, k.latest.value.time) else w
    case Forget => k.(latest := None, lastRecorded := None)
  }

  class Recorder {
    const interval: real
    var latest: Option<Latest>
    var lastRecorded: Option<real>
    var failures: nat
    var saved: seq<real>

    function Now(): Track
      reads this
    {
      Track(latest, lastRecorded, failures, saved)
    }

    method PersistSample(time: real)
      modifies this
      ensures Now() == Persist(old(Now()), time)
    {
      if lastRecorded == Some(time) {
        return;
      }
      saved := saved + [time];
      lastRecorded := Some(time);
    }

    method PollSucceeded(time: real, live: bool, changed: bool)
      modifies this
      ensures Now() == After(old(Now()), Received(time, live, changed), interval)
    {
      var firstRead := latest.None?;
      var since := if lastRecorded.Some? then lastRecorded.value else 0.0;
      if firstRead || failures > 0 || changed || time - since >= interval {
        PersistSample(time);
      }
      latest := Some(Latest(time, true, live));
      failures := 0;
    }

    /** The live value is marked offline first; what is saved is the one before it. */
    method PollFailed(at: real)
      modifies this
      ensures Now() == After(old(Now()), Failed(at), interval)
    {
      failures := failures + 1;
      var previous := latest;
      latest := Some(Latest(at, false, previous.Some? && previous.value.live));
      if previous.Some? && previous.value.online && previous.value.live {
        PersistSample(previous.value.time);
      }
    }
  }

  // ----- histories --------------------------------------------------------

  function Run(h: seq<Event>, n: nat, interval: real): Track
    requires n <= |h|
  {
    if n == 0 then Track(None, None, 0, []) else After(Run(h, n - 1, interval), h[n - 1], interval)
  }

  // Received samples have increasing times.
  predicate Increasing(h: seq<Event>) {
    forall i, j :: 0 <= i < j < |h| && h[i].Received? && h[j].Received? ==> h[i].time < h[j].time
  }

  // Every saved time is that of a sample among the first n events.
  predicate Covered(saved: seq<real>, h: seq<Event>, n: nat)
    requires n <= |h|
  {
    forall i :: 0 <= i < |saved| ==> Measured(saved[i], h, n)
  }

  predicate Measured(time: real, h: seq<Event>, n: nat)
    requires n <= |h|
  {
    exists j :: 0 <= j < n && h[j].Received? && h[j].time == time
  }

  predicate Sorted(saved: seq<real>) { forall i, j :: 0 <= i < j < |saved| ==> saved[i] < saved[j] }

  // The live value is the newest sample; what was recorded last is the last saved time.
  predicate Sound(k: Track, h: seq<Event>, n: nat)
    requires n <= |h|
  {
    && Sorted(k.saved) && Covered(k.saved, h, n)
    && (k.lastRecorded.Some? ==> k.saved != [] && k.lastRecorded.value == k.saved[|k.saved| - 1])
    && (k.latest.Some? && k.latest.value.online ==> Newest(k.latest.value.time, h, n) && k.lastRecorded.Some?)
    && (k.latest.Some? && !k.latest.value.online ==> k.failures > 0)
  }

  predicate Newest(time: real, h: seq<Event>, n: nat)
    requires n <= |h|
  {
    && Measured(time, h, n)
    && (forall j :: 0 <= j < n && h[j].Received? ==> h[j].time <= time)
  }

  lemma NotAfterNewest(saved: seq<real>, time: real, h: seq<Event>, n: nat)
    requires n <= |h| && Covered(saved, h, n)
    requires forall j :: 0 <= j < n && h[j].Received? ==> h[j].time <= time
    ensures forall i :: 0 <= i < |saved| ==> saved[i] <= time
  {
    forall i | 0 <= i < |saved| ensures saved[i] <= time {
      assert Measured(saved[i], h, n);
    }
  }

  lemma PersistSound(k: Track, time: real, h: seq<Event>, n: nat)
    requires n <= |h| && Sorted(k.saved) && Covered(k.saved, h, n)
    requires k.lastRecorded.Some? ==> k.saved != [] && k.lastRecorded.value == k.saved[|k.saved| - 1]
    requires Newest(time, h, n) && (k.lastRecorded.Some? || (forall i :: 0 <= i < |k.saved| ==> k.saved[i] < time))
    ensures var u := Persist(k, time); Sorted(u.saved) && Covered(u.saved, h, n)
    ensures var u := Persist(k, time); u.lastRecorded == Some(time) && u.saved != [] && u.saved[|u.saved| - 1] == time
  {
    NotAfterNewest(k.saved, time, h, n);
    if k.lastRecorded != Some(time) {
      forall i | 0 <= i < |k.saved| ensures k.saved[i] < time {
        if k.lastRecorded.Some? {
          assert k.saved[|k.saved| - 1] < time;
        }
      }
    }
  }

  lemma {:induction false} RunSound(h: seq<Event>, n: nat, interval: real)
    requires n <= |h| && Increasing(h) && interval > 0.0
    ensures Sound(Run(h, n, interval), h, n)
  {
    hide Sound, After;
    if n > 0 {
      RunSound(h, n - 1, interval);
      StepSound(Run(h, n - 1, interval), h, n - 1, interval);
    } else {
      NothingSound(h);
    }
  }

  lemma NothingSound(h: seq<Event>)
    ensures Sound(Track(None, None, 0, []), h, 0)
  {
  }

  lemma StepSound(k: Track, h: seq<Event>, n: nat, interval: real)
    requires n < |h| && Increasing(h) && interval > 0.0 && Sound(k, h, n)
    ensures Sound(After(k, h[n], interval), h, n + 1)
  {
    hide Persist, Covered, Measured, Sorted, Increasing;
    CoveredMore(k.saved, h, n);
    match h[n] {
      case Received(time, live, changed) =>
        NewestNow(h, n);
        NotBefore(k, h, n + 1, time);
        if Due(k, time, changed, interval) {
          PersistSound(k, time, h, n + 1);
        }
      case Failed(at) =>
        var live := k.latest.Some? && k.latest.value.live;
        var w := k.(latest := Some(Latest(at, false, live)), failures := k.failures + 1);
        if live && k.latest.value.online {
          NewestStays(k.latest.value.time, h, n);
          PersistSound(w, k.latest.value.time, h, n + 1);
          FailureKept(w, k.latest.value.time);
        }
      case Forget =>
    }
  }

  lemma NewestNow(h: seq<Event>, n: nat)
    requires n < |h| && Increasing(h) && h[n].Received?
    ensures Newest(h[n].time, h, n + 1)
  {
  }

  lemma NewestStays(time: real, h: seq<Event>, n: nat)
    requires n < |h| && !h[n].Received? && Newest(time, h, n)
    ensures Newest(time, h, n + 1)
  {
    MeasuredStays(time, h, n);
  }

  lemma MeasuredStays(time: real, h: seq<Event>, n: nat)
    requires n < |h| && Measured(time, h, n)
    ensures Measured(time, h, n + 1)
  {
    var j :| 0 <= j < n && h[j].Received? && h[j].time == time;
    assert 0 <= j < n + 1;
  }

  lemma CoveredMore(saved: seq<real>, h: seq<Event>, n: nat)
    requires n < |h| && Covered(saved, h, n)
    ensures Covered(saved, h, n + 1)
  {
    forall i | 0 <= i < |saved| ensures Measured(saved[i], h, n + 1) {
      MeasuredStays(saved[i], h, n);
    }
  }

  lemma FailureKept(w: Track, time: real)
    ensures Persist(w, time).latest == w.latest && Persist(w, time).failures == w.failures
  {
  }

  // Everything saved before the n-th event is older than the sample it brings.
  lemma NotBefore(k: Track, h: seq<Event>, n: nat, time: real)
    requires 0 < n <= |h| && Increasing(h) && Covered(k.saved, h, n - 1)
    requires h[n - 1].Received? && h[n - 1].time == time
    ensures forall i :: 0 <= i < |k.saved| ==> k.saved[i] < time
  {
    forall i | 0 <= i < |k.saved| ensures k.saved[i] < time {
      assert Measured(k.saved[i], h, n - 1);
    }
  }

  lemma PersistGrows(k: Track, time: real)
    ensures k.saved <= Persist(k, time).saved
    ensures time in Persist(k, time).saved || k.lastRecorded == Some(time)
  {
  }

  lemma {:induction false} SavedGrows(h: seq<Event>, m: nat, n: nat, interval: real)
    requires m <= n <= |h|
    ensures Run(h, m, interval).saved <= Run(h, n, interval).saved
    decreases n
  {
    if m < n {
      SavedGrows(h, m, n - 1, interval);
    }
  }

  /** No sample is ever saved twice, and only received samples are saved, in the order
      they were measured. */
  lemma SavedOnce(h: seq<Event>, interval: real)
    requires Increasing(h) && interval > 0.0
    ensures var saved := Run(h, |h|, interval).saved; Sorted(saved) && Covered(saved, h, |h|)
  {
    RunSound(h, |h|, interval);
  }

  /** Every received sample has a saved one at most a record interval older. */
  lemma EverySampleCovered(h: seq<Event>, n: nat, interval: real)
    requires n < |h| && Increasing(h) && interval > 0.0 && h[n].Received?
    ensures exists s :: s in Run(h, |h|, interval).saved && h[n].time - interval < s <= h[n].time
  {
    RunSound(h, n, interval);
    RunSound(h, n + 1, interval);
    SavedGrows(h, n + 1, |h|, interval);
    var k, u := Run(h, n, interval), Run(h, n + 1, interval);
    var time := h[n].time;
    assert u == After(k, h[n], interval);
    assert u.lastRecorded.Some?;
    var s := u.lastRecorded.value;
    assert s == u.saved[|u.saved| - 1] && s in Run(h, |h|, interval).saved;
    if !Due(k, time, h[n].changed, interval) {
      NotBefore(k, h, n + 1, time);
    }
  }

  /** The last live sample before an outage and the first sample after it are saved at
      their own times. */
  lemma OutageBordersSaved(h: seq<Event>, n: nat, interval: real)
    requires n < |h| && Increasing(h) && interval > 0.0
    ensures h[n].Failed? && n > 0 && h[n - 1].Received? && h[n - 1].live ==>
      h[n - 1].time in Run(h, |h|, interval).saved
    ensures h[n].Received? && n > 0 && h[n - 1].Failed? ==> h[n].time in Run(h, |h|, interval).saved
  {
    RunSound(h, n, interval);
    SavedGrows(h, n + 1, |h|, interval);
    var k, u := Run(h, n, interval), Run(h, n + 1, interval);
    assert u == After(k, h[n], interval);
    if n > 0 {
      assert k == After(Run(h, n - 1, interval), h[n - 1], interval);
      if h[n].Failed? && h[n - 1].Received? {
        PersistGrows(k, h[n - 1].time);
      }
      if h[n].Received? && h[n - 1].Failed? {
        NotBefore(k, h, n + 1, h[n].time);
        PersistGrows(k, h[n].time);
      }
    }
  }

  /** A failure after a failure saves nothing. */
  lemma RepeatedFailuresAddNothing(h: seq<Event>, n: nat, interval: real)
    requires 0 < n < |h| && h[n - 1].Failed? && h[n].Failed?
    ensures Run(h, n + 1, interval).saved == Run(h, n, interval).saved
  {
    var j := Run(h, n - 1, interval);
    var k := Run(h, n, interval);
    assert k == After(j, h[n - 1], interval);
    assert k.latest.Some? && !k.latest.value.online;
  }

  // ----- exactly which samples are saved ----------------------------------

  // Nothing saved before the n-th event lies within an interval of this time.
  predicate Bare(saved: seq<real>, time: real, interval: real) {
    forall i :: 0 <= i < |saved| ==> saved[i] <= time - interval
  }

  // What makes a sample one to keep when it comes: no sample just before it, a change of
  // alarms, or a whole interval without a saved one.
  predicate WorthSaving(h: seq<Event>, n: nat, interval: real)
    requires n < |h| && h[n].Received?
  {
    n == 0 || !h[n - 1].Received? || h[n].changed || Bare(Run(h, n, interval).saved, h[n].time, interval)
  }

  predicate OutageNext(h: seq<Event>, n: nat)
    requires n < |h| && h[n].Received?
  {
    n + 1 < |h| && h[n + 1].Failed? && h[n].live
  }

  // Unix time: a sample is never younger than the record interval.
  predicate AfterEpoch(h: seq<Event>, interval: real) {
    forall i :: 0 <= i < |h| && h[i].Received? ==> h[i].time >= interval
  }

  lemma DueIff(h: seq<Event>, n: nat, interval: real)
    requires n < |h| && Increasing(h) && AfterEpoch(h, interval) && interval > 0.0 && h[n].Received?
    ensures Due(Run(h, n, interval), h[n].time, h[n].changed, interval) <==> WorthSaving(h, n, interval)
  {
    hide After, Covered, Newest, Increasing;
    RunSound(h, n, interval);
    var k := Run(h, n, interval);
    if n > 0 {
      var j := Run(h, n - 1, interval);
      BeforeIs(j, h[n - 1], interval);
      assert k == After(j, h[n - 1], interval);
    }
    if k.lastRecorded.Some? {
      assert k.saved[|k.saved| - 1] == k.lastRecorded.value;
    }
  }

  lemma BeforeIs(k: Track, e: Event, interval: real)
    ensures var u := After(k, e, interval);
      && (e.Received? ==> u.latest == Some(Latest(e.time, true, e.live)) && u.failures == 0)
      && (e.Failed? ==> u.failures > 0) && (e.Forget? ==> u.latest.None?)
  {
  }

  lemma NewlySaved(k: Track, e: Event, interval: real, time: real)
    ensures time in After(k, e, interval).saved <==>
      || time in k.saved
      || (e.Received? && time == e.time && Due(k, e.time, e.changed, interval) && k.lastRecorded != Some(time))
      || (e.Failed? && k.latest.Some? && k.latest.value.live && k.latest.value.online && time == k.latest.value.time
          && k.lastRecorded != Some(time))
  {
  }

  // Whether a sample is saved is settled by the event after it.
  lemma {:induction false} OnlyThen(h: seq<Event>, n: nat, m: nat, interval: real)
    requires n + 2 <= m <= |h| && Increasing(h) && interval > 0.0 && h[n].Received?
    ensures h[n].time in Run(h, m, interval).saved <==> h[n].time in Run(h, n + 2, interval).saved
    decreases m
  {
    hide After, Covered, Sorted;
    if m > n + 2 {
      OnlyThen(h, n, m - 1, interval);
      RunSound(h, m - 1, interval);
      var k := Run(h, m - 1, interval);
      NewlySaved(k, h[m - 1], interval, h[n].time);
      if h[m - 1].Failed? && k.latest.Some? && k.latest.value.online {
        LatestLater(h, n, m - 1, interval);
      }
    }
  }

  lemma LatestLater(h: seq<Event>, n: nat, m: nat, interval: real)
    requires n + 2 <= m <= |h| && Increasing(h) && interval > 0.0 && h[n].Received?
    requires var k := Run(h, m, interval); k.latest.Some? && k.latest.value.online
    ensures Run(h, m, interval).latest.value.time != h[n].time
    decreases m
  {
    hide Due;
    var k := Run(h, m, interval);
    assert k == After(Run(h, m - 1, interval), h[m - 1], interval);
    assert h[m - 1].Received? && k.latest.value.time == h[m - 1].time;
  }

  /** A sample is saved exactly when it was worth it as it came, or is the last live one
      before an outage. */
  lemma SavedIff(h: seq<Event>, n: nat, interval: real)
    requires n < |h| && Increasing(h) && AfterEpoch(h, interval) && interval > 0.0 && h[n].Received?
    ensures h[n].time in Run(h, |h|, interval).saved <==> WorthSaving(h, n, interval) || OutageNext(h, n)
  {
    hide After, WorthSaving, Due, Covered, Sorted;
    var k, u := Run(h, n, interval), Run(h, n + 1, interval);
    RunSound(h, n, interval);
    NotSavedYet(h, n, interval);
    DueIff(h, n, interval);
    NewlySaved(k, h[n], interval, h[n].time);
    BeforeIs(k, h[n], interval);
    if n + 1 < |h| {
      NewlySaved(u, h[n + 1], interval, h[n].time);
      RunSound(h, n + 1, interval);
      OnlyThen(h, n, |h|, interval);
    }
  }

  lemma NotSavedYet(h: seq<Event>, n: nat, interval: real)
    requires n < |h| && Increasing(h) && interval > 0.0 && h[n].Received?
    ensures h[n].time !in Run(h, n, interval).saved && Run(h, n, interval).lastRecorded != Some(h[n].time)
  {
    RunSound(h, n, interval);
    var k := Run(h, n, interval);
    forall i | 0 <= i < |k.saved| ensures k.saved[i] < h[n].time {
      assert Measured(k.saved[i], h, n);
    }
  }
}
