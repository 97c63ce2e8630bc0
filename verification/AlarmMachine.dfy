/** Alarm debouncing of one metric of one device: the four-state machine with its
    event log, and the store whose evaluation runs it for every metric of a sample. */
module AlarmMachine {
  import opened Common

  type Source = nat
  type Metric = nat

  datatype State = Normal | PendingAlarm | AlarmActive | PendingClear

  datatype StateRow = StateRow(source: Source, state: State, pendingSince: Option<real>, activeSince: Option<real>)

  datatype Event = Event(source: Source, startedAt: real, endedAt: Option<real>, trigger: real, peak: real,
                         synced: bool)

  // One metric of one reading, with the rule that applies to it.
  datatype Sample = Sample(time: real, source: Source, value: real, enabled: bool, exceeded: bool, delay: real)

  datatype View = View(row: Option<StateRow>, events: seq<Event>)

  // ----- the updates of the event log -------------------------------------

  predicate Open(e: Event) { e.endedAt.None? }

  function Max(a: real, b: real): real { if a < b then b else a }

  // ended_at for every open event of the metric, and the upload mark cleared.
  function CloseAll(events: seq<Event>, now: real): (out: seq<Event>)
    ensures |out| == |events|
  {
    seq(|events|, i requires 0 <= i < |events| =>
      if Open(events[i]) then events[i].(endedAt := Some(now), synced := false) else events[i])
  }

  // The close on a change of source leaves the upload mark as it is.
  function CloseSource(events: seq<Event>, source: Source, now: real): (out: seq<Event>)
    ensures |out| == |events|
  {
    seq(|events|, i requires 0 <= i < |events| =>
      if Open(events[i]) && events[i].source == source then events[i].(endedAt := Some(now)) else events[i])
  }

  function ClearSource(events: seq<Event>, source: Source, now: real): (out: seq<Event>)
    ensures |out| == |events|
  {
    seq(|events|, i requires 0 <= i < |events| =>
      if Open(events[i]) && events[i].source == source
      then events[i].(endedAt := Some(now), synced := false) else events[i])
  }

  function RaisePeak(events: seq<Event>, source: Source, value: real): (out: seq<Event>)
    ensures |out| == |events|
  {
    seq(|events|, i requires 0 <= i < |events| =>
      if Open(events[i]) && events[i].source == source
      then events[i].(peak := Max(events[i].peak, value), synced := false) else events[i])
  }

  // ----- one sample -------------------------------------------------------

  // The view a sample of another source starts from.
  function Switched(v: View, x: Sample): View {
    if v.row.Some? && v.row.value.source != x.source
    then View(None, CloseSource(v.events, v.row.value.source, x.time)) else v
  }

  function Advance(v: View, x: Sample): View {
    var state := if v.row.Some? then v.row.value.state else Normal;
    var pending := if v.row.Some? then v.row.value.pendingSince else None;
    var active := if v.row.Some? then v.row.value.activeSince else None;
    var waited := pending.Some? && x.time - pending.value >= x.delay;
    match state
    case Normal =>
      if x.exceeded
      then View(Some(StateRow(x.source, PendingAlarm, Some(x.time), active)), v.events)
      else View(Some(StateRow(x.source, Normal, pending, active)), v.events)
    case PendingAlarm =>
      if !x.exceeded then View(Some(StateRow(x.source, Normal, None, active)), v.events)
      else if waited
      then View(Some(StateRow(x.source, AlarmActive, None, Some(x.time))),
                v.events + [Event(x.source, x.time, None, x.value, x.value, false)])
      else View(Some(StateRow(x.source, PendingAlarm, pending, active)), v.events)
    case AlarmActive =>
      if x.exceeded
      then View(Some(StateRow(x.source, AlarmActive, pending, active)), RaisePeak(v.events, x.source, x.value))
      else View(Some(StateRow(x.source, PendingClear, Some(x.time), active)), v.events)
    case PendingClear =>
      if x.exceeded then View(Some(StateRow(x.source, AlarmActive, None, active)), v.events)
      else if waited
      then View(Some(StateRow(x.source, Normal, None, None)), ClearSource(v.events, x.source, x.time))
      else View(Some(StateRow(x.source, PendingClear, pending, active)), v.events)
  }

  function Step(v: View, x: Sample): View {
    if !x.enabled then View(None, CloseAll(v.events, x.time)) else Advance(Switched(v, x), x)
  }

  predicate AnyOpen(events: seq<Event>) { exists i :: 0 <= i < |events| && Open(events[i]) }

  // Whether the sample counts as a change worth saving at once.
  predicate Changes(v: View, x: Sample) {
    if !x.enabled then AnyOpen(v.events) || (v.row.Some? && v.row.value.state != Normal)
    else
      var w := Switched(v, x);
      w.row.Some? && w.row.value.pendingSince.Some? && x.time - w.row.value.pendingSince.value >= x.delay
      && ((w.row.value.state == PendingAlarm && x.exceeded) || (w.row.value.state == PendingClear && !x.exceeded))
  }

  // ----- the store --------------------------------------------------------

  class AlarmStore {
    var states: map<Metric, StateRow>
    var events: map<Metric, seq<Event>>

    ghost function ViewOf(m: Metric): View
      reads this
    {
      View(if m in states then Some(states[m]) else None, if m in events then events[m] else [])
    }

    method EvaluateMetric(m: Metric, x: Sample) returns (changed: bool)
      modifies this
      ensures ViewOf(m) == Step(old(ViewOf(m)), x)
      ensures forall n :: n != m ==> ViewOf(n) == old(ViewOf(n))
      ensures changed <==> Changes(old(ViewOf(m)), x)
    {
      changed := false;
      var log := if m in events then events[m] else [];
      if !x.enabled {
        var closed := AnyOpen(log);
        events := events[m := CloseAll(log, x.time)];
        if closed || (m in states && states[m].state != Normal) {
          changed := true;
        }
        states := states - {m};
        return;
      }
      var row := if m in states then Some(states[m]) else None;
      if row.Some? && row.value.source != x.source {
        log := CloseSource(log, row.value.source, x.time);
        row := None;
      }
      var state := if row.Some? then row.value.state else Normal;
      var pending := if row.Some? then row.value.pendingSince else None;
      var active := if row.Some? then row.value.activeSince else None;
      if state == Normal && x.exceeded {
        state, pending := PendingAlarm, Some(x.time);
      } else if state == PendingAlarm {
        if !x.exceeded {
          state, pending := Normal, None;
        } else if pending.Some? && x.time - pending.value >= x.delay {
          state, active, pending := AlarmActive, Some(x.time), None;
          log := log + [Event(x.source, x.time, None, x.value, x.value, false)];
          changed := true;
        }
      } else if state == AlarmActive {
        if x.exceeded {
          log := RaisePeak(log, x.source, x.value);
        } else {
          state, pending := PendingClear, Some(x.time);
        }
      } else if state == PendingClear {
        if x.exceeded {
          state, pending := AlarmActive, None;
        } else if pending.Some? && x.time - pending.value >= x.delay {
          state, pending, active := Normal, None, None;
          log := ClearSource(log, x.source, x.time);
          changed := true;
        }
      }
      states := states[m := StateRow(x.source, state, pending, active)];
      events := events[m := log];
    }

    /** All checks of one reading; each metric occurs once. */
    method Evaluate(checks: seq<(Metric, Sample)>) returns (changed: bool)
      requires forall i, j :: 0 <= i < j < |checks| ==> checks[i].0 != checks[j].0
      modifies this
      ensures forall i :: 0 <= i < |checks| ==> ViewOf(checks[i].0) == Step(old(ViewOf(checks[i].0)), checks[i].1)
      ensures forall n :: (forall i :: 0 <= i < |checks| ==> checks[i].0 != n) ==> ViewOf(n) == old(ViewOf(n))
      ensures changed <==> exists i :: 0 <= i < |checks| && Changes(old(ViewOf(checks[i].0)), checks[i].1)
    {
      changed := false;
      for k := 0 to |checks|
        invariant forall i :: 0 <= i < k ==> ViewOf(checks[i].0) == Step(old(ViewOf(checks[i].0)), checks[i].1)
        invariant forall n :: (forall i :: 0 <= i < k ==> checks[i].0 != n) ==> ViewOf(n) == old(ViewOf(n))
        invariant changed <==> exists i :: 0 <= i < k && Changes(old(ViewOf(checks[i].0)), checks[i].1)
      {
        assert ViewOf(checks[k].0) == old(ViewOf(checks[k].0));
        var now := EvaluateMetric(checks[k].0, checks[k].1);
        changed := changed || now;
      }
    }
  }

  // ----- shape of every reachable view ------------------------------------

  predicate InAlarm(s: State) { s == AlarmActive || s == PendingClear }

  predicate Waiting(s: State) { s == PendingAlarm || s == PendingClear }

  /** Times are set exactly in their states; the one open event, if any, is the last
      of the log and has the state's source. */
  predicate Shape(v: View) {
    && (v.row.Some? ==>
          && (Waiting(v.row.value.state) <==> v.row.value.pendingSince.Some?)
          && (InAlarm(v.row.value.state) <==> v.row.value.activeSince.Some?))
    && (forall i :: 0 <= i < |v.events| - 1 ==> !Open(v.events[i]))
    && (v.events != [] && Open(v.events[|v.events| - 1]) <==> v.row.Some? && InAlarm(v.row.value.state))
    && (v.row.Some? && InAlarm(v.row.value.state) ==> v.events[|v.events| - 1].source == v.row.value.source)
  }

  lemma StepKeepsShape(v: View, x: Sample)
    requires Shape(v)
    ensures Shape(Step(v, x))
  {
    hide Max;
    if x.enabled {
      SwitchKeepsShape(v, x);
      AdvanceKeepsShape(Switched(v, x), x);
    }
  }

  lemma SwitchKeepsShape(v: View, x: Sample)
    requires Shape(v)
    ensures Shape(Switched(v, x))
    ensures Switched(v, x).row.Some? ==> Switched(v, x).row.value.source == x.source
  {
  }

  lemma AdvanceKeepsShape(v: View, x: Sample)
    requires Shape(v)
    requires v.row.Some? ==> v.row.value.source == x.source
    ensures Shape(Advance(v, x))
  {
    hide Max;
  }

  function Fold(v: View, h: seq<Sample>, n: nat): View
    requires n <= |h|
  {
    if n == 0 then v else Step(Fold(v, h, n - 1), h[n - 1])
  }

  /** Over every history, with rules disabled and sources changed at will: exactly one
      event is open in ALARM_ACTIVE and PENDING_CLEAR, of the state's source, and none
      in any other state. */
  lemma {:induction false} EveryViewShaped(h: seq<Sample>, n: nat)
    requires n <= |h|
    ensures Shape(Fold(View(None, []), h, n))
  {
    if n > 0 {
      EveryViewShaped(h, n - 1);
      StepKeepsShape(Fold(View(None, []), h, n - 1), h[n - 1]);
    }
  }
}
