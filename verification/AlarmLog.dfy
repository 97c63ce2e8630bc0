/** What one sample does to the event log of its metric, and where the times of an event
    come from over a whole history. */
module AlarmLog {
  import opened Common
  import opened AlarmMachine

  // The event ended at this time.
  predicate Ends(e: Event, u: Event, at: real) { Open(e) && u.endedAt == Some(at) }

  /** A disabled rule ends every open event at the sample's time, to be uploaded again,
      forgets the state and touches no event that is over. */
  lemma DisabledCloses(v: View, x: Sample)
    requires !x.enabled
    ensures var u := Step(v, x);
      && u.row.None? && |u.events| == |v.events|
      && forall i :: 0 <= i < |v.events| ==>
           u.events[i] == if Open(v.events[i]) then v.events[i].(endedAt := Some(x.time), synced := false)
                          else v.events[i]
  {
  }

  /** A sample of another source ends the open events of the old one at its time and
      leaves their upload mark, opens none, and starts waiting afresh. */
  lemma SwitchCloses(v: View, x: Sample)
    requires x.enabled && v.row.Some? && v.row.value.source != x.source
    ensures var u := Step(v, x);
      && u.row == Some(if x.exceeded then StateRow(x.source, PendingAlarm, Some(x.time), None)
                       else StateRow(x.source, Normal, None, None))
      && |u.events| == |v.events|
      && forall i :: 0 <= i < |v.events| ==>
           u.events[i] == if Open(v.events[i]) && v.events[i].source == v.row.value.source
                          then v.events[i].(endedAt := Some(x.time)) else v.events[i]
  {
  }

  // The sample belongs to the stretch the state is in.
  predicate Continues(v: View, x: Sample) { x.enabled && (v.row.Some? ==> v.row.value.source == x.source) }

  predicate SomeEnds(v: View, u: View, at: real) {
    exists i :: 0 <= i < |v.events| && i < |u.events| && Ends(v.events[i], u.events[i], at)
  }

  /** A sample counts as a change exactly when it opens or ends an event by confirming an
      alarm or a return, or when a disabled rule ends one or breaks off a wait. */
  lemma ChangesIff(v: View, x: Sample)
    requires Shape(v)
    ensures var u := Step(v, x);
      Changes(v, x) <==>
        (Continues(v, x) && (|u.events| > |v.events| || SomeEnds(v, u, x.time)))
        || (!x.enabled && (SomeEnds(v, u, x.time) || (v.row.Some? && v.row.value.state != Normal)))
  {
    hide Max;
    var u := Step(v, x);
    if Continues(v, x) {
      assert Switched(v, x) == v;
      if Changes(v, x) && |u.events| == |v.events| {
        var last := |v.events| - 1;
        assert Open(v.events[last]) && Ends(v.events[last], u.events[last], x.time);
      }
    } else if !x.enabled && AnyOpen(v.events) {
      var i :| 0 <= i < |v.events| && Open(v.events[i]);
      assert Ends(v.events[i], u.events[i], x.time);
    }
  }

  // ----- over a history ---------------------------------------------------

  // The event was raised by sample a of the history and, if over, ended by a later one.
  predicate From(h: seq<Sample>, n: nat, e: Event, a: nat) {
    && a < n <= |h|
    && e.startedAt == h[a].time && e.trigger == h[a].value && e.source == h[a].source
    && (e.endedAt.Some? ==> exists b :: a < b < n && EndedBy(h, b, e))
  }

  predicate EndedBy(h: seq<Sample>, b: nat, e: Event)
    requires b < |h|
  {
    e.endedAt == Some(h[b].time)
  }

  ghost predicate AllFrom(h: seq<Sample>, n: nat, events: seq<Event>) {
    forall i :: 0 <= i < |events| ==> FromSome(h, n, events[i])
  }

  ghost predicate FromSome(h: seq<Sample>, n: nat, e: Event) { exists a: nat :: From(h, n, e, a) }

  // What a sample leaves of an event.
  predicate Follows(e: Event, u: Event, at: real) {
    && u.startedAt == e.startedAt && u.trigger == e.trigger && u.source == e.source
    && (u.endedAt == e.endedAt || Ends(e, u, at))
  }

  lemma StepFollows(v: View, x: Sample)
    ensures var u := Step(v, x);
      && |v.events| <= |u.events| <= |v.events| + 1
      && (forall i :: 0 <= i < |v.events| ==> Follows(v.events[i], u.events[i], x.time))
      && (|u.events| > |v.events| ==> u.events[|v.events|] == Event(x.source, x.time, None, x.value, x.value, false))
  {
  }

  /** Over every history each event starts at a sample, with its value, and ends, if it
      does, at a later one: no time is made up. */
  lemma {:induction false} TimesAreSamples(h: seq<Sample>, n: nat)
    requires n <= |h|
    ensures AllFrom(h, n, Fold(View(None, []), h, n).events)
  {
    if n > 0 {
      hide Step;
      TimesAreSamples(h, n - 1);
      var v, u := Fold(View(None, []), h, n - 1), Fold(View(None, []), h, n);
      StepFollows(v, h[n - 1]);
      forall i | 0 <= i < |u.events| ensures FromSome(h, n, u.events[i]) {
        if i < |v.events| {
          assert FromSome(h, n - 1, v.events[i]);
          var a: nat :| From(h, n - 1, v.events[i], a);
          FromLater(h, n - 1, v.events[i], u.events[i], a);
        } else {
          assert From(h, n, u.events[i], n - 1);
        }
      }
    }
  }

  lemma FromLater(h: seq<Sample>, n: nat, e: Event, u: Event, a: nat)
    requires n < |h| && From(h, n, e, a) && Follows(e, u, h[n].time)
    ensures From(h, n + 1, u, a)
  {
    if u.endedAt.Some? {
      if e.endedAt.Some? {
        var b: nat :| a < b < n && EndedBy(h, b, e);
        assert EndedBy(h, b, u);
      } else {
        assert EndedBy(h, n, u);
      }
    }
  }
}
