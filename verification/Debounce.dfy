/** The alarm machine against a declarative debounce of the whole sample history. */
module Debounce {
  import opened Common
  import opened AlarmMachine

  // ----- the declarative reading of a history -----------------------------

  // First sample of the unbroken run of equal levels that ends at sample k.
  function RunStart(h: seq<Sample>, k: nat): (j: nat)
    requires k < |h|
    ensures j <= k
  {
    if k == 0 || h[k - 1].exceeded != h[k].exceeded then k else RunStart(h, k - 1)
  }

  // Sample k confirms its level: an earlier sample began the run, long enough ago.
  predicate Confirms(h: seq<Sample>, k: nat)
    requires k < |h|
  {
    RunStart(h, k) < k && h[k].time - h[RunStart(h, k)].time >= h[k].delay
  }

  // After n samples some exceedance has been confirmed and no return since.
  ghost predicate Alarmed(h: seq<Sample>, n: nat)
    requires n <= |h|
  {
    exists k: nat :: k < n && Confirms(h, k) && h[k].exceeded && NoReturn(h, k, n)
  }

  ghost predicate NoReturn(h: seq<Sample>, k: nat, n: nat)
    requires k <= n <= |h|
  {
    forall j: nat :: k < j < n && Confirms(h, j) ==> h[j].exceeded
  }

  ghost predicate Rise(h: seq<Sample>, k: nat)
    requires k < |h|
  {
    !Alarmed(h, k) && Alarmed(h, k + 1)
  }

  ghost predicate Fall(h: seq<Sample>, k: nat)
    requires k < |h|
  {
    Alarmed(h, k) && !Alarmed(h, k + 1)
  }

  // The samples at which an alarm started, in order.
  ghost function Rises(h: seq<Sample>, n: nat): seq<nat>
    requires n <= |h|
  {
    if n == 0 then []
    else if Rise(h, n - 1) then Rises(h, n - 1) + [n - 1]
    else Rises(h, n - 1)
  }

  ghost predicate NoFall(h: seq<Sample>, k: nat, n: nat)
    requires n <= |h|
  {
    forall f: nat :: k < f < n ==> !Fall(h, f)
  }

  // The alarm that started at k ended, within n samples, at sample f.
  ghost predicate FirstFall(h: seq<Sample>, k: nat, n: nat, f: nat)
    requires n <= |h|
  {
    k < f < n && Fall(h, f) && NoFall(h, k, f)
  }

  ghost predicate EndsAt(h: seq<Sample>, k: nat, n: nat, end: Option<real>)
    requires n <= |h|
  {
    match end
    case None => NoFall(h, k, n)
    case Some(t) => exists f: nat :: FirstFall(h, k, n, f) && t == h[f].time
  }

  // Sample i counts towards the peak of the alarm that started at k: it exceeds
  // while the alarm is active, which the sample after a pause does not.
  ghost predicate Counts(h: seq<Sample>, k: nat, n: nat, i: nat)
    requires k < n <= |h|
  {
    i == k || (k < i < n && h[i].exceeded && h[i - 1].exceeded && NoFall(h, k, i))
  }

  ghost predicate IsPeak(h: seq<Sample>, k: nat, n: nat, peak: real)
    requires k < n <= |h|
  {
    && (exists i: nat :: Counts(h, k, n, i) && h[i].value == peak)
    && (forall i: nat :: Counts(h, k, n, i) ==> h[i].value <= peak)
  }

  // The event the log must hold for the alarm that started at sample k.
  ghost predicate Declared(h: seq<Sample>, k: nat, n: nat, e: Event)
    requires k < n <= |h|
  {
    && e.source == h[k].source && e.startedAt == h[k].time && e.trigger == h[k].value
    && EndsAt(h, k, n, e.endedAt) && IsPeak(h, k, n, e.peak)
  }

  ghost predicate LogDeclared(h: seq<Sample>, n: nat, log: seq<Event>)
    requires n <= |h|
  {
    && |log| == |Rises(h, n)|
    && forall i :: 0 <= i < |log| ==> Rises(h, n)[i] < n && Declared(h, Rises(h, n)[i], n, log[i])
  }

  ghost function ExpectedRow(h: seq<Sample>, n: nat): StateRow
    requires 0 < n <= |h|
    requires Alarmed(h, n) ==> Rises(h, n) != [] && Rises(h, n)[|Rises(h, n)| - 1] < |h|
  {
    var x := h[n - 1];
    var since := Some(h[RunStart(h, n - 1)].time);
    if Alarmed(h, n)
    then StateRow(x.source, if x.exceeded then AlarmActive else PendingClear, if x.exceeded then None else since,
                  Some(h[Rises(h, n)[|Rises(h, n)| - 1]].time))
    else StateRow(x.source, if x.exceeded then PendingAlarm else Normal, if x.exceeded then since else None, None)
  }

  // ----- levels -----------------------------------------------------------

  lemma ConfirmDecides(h: seq<Sample>, n: nat)
    requires n < |h| && Confirms(h, n)
    ensures Alarmed(h, n + 1) <==> h[n].exceeded
  {
    hide RunStart, Confirms;
    if h[n].exceeded {
      assert NoReturn(h, n, n + 1);
    }
  }

  lemma NoConfirmKeeps(h: seq<Sample>, n: nat)
    requires n < |h| && !Confirms(h, n)
    ensures Alarmed(h, n + 1) <==> Alarmed(h, n)
  {
    hide RunStart, Confirms;
    if Alarmed(h, n) {
      var k: nat :| k < n && Confirms(h, k) && h[k].exceeded && NoReturn(h, k, n);
      assert NoReturn(h, k, n + 1);
    }
    if Alarmed(h, n + 1) {
      var k: nat :| k < n + 1 && Confirms(h, k) && h[k].exceeded && NoReturn(h, k, n + 1);
      assert k < n && NoReturn(h, k, n);
    }
  }

  lemma AlarmedNext(h: seq<Sample>, n: nat)
    requires n < |h|
    ensures Alarmed(h, n + 1) <==> if Confirms(h, n) then h[n].exceeded else Alarmed(h, n)
  {
    hide RunStart, Confirms, Alarmed;
    if Confirms(h, n) { ConfirmDecides(h, n); } else { NoConfirmKeeps(h, n); }
  }

  lemma NotAlarmedYet(h: seq<Sample>)
    ensures !Alarmed(h, 0)
  {
  }

  lemma {:induction false} RunUniform(h: seq<Sample>, k: nat, j: nat)
    requires k < |h| && RunStart(h, k) <= j <= k
    ensures h[j].exceeded == h[k].exceeded
  {
    if j < k { RunUniform(h, k - 1, j); }
  }

  /** Alarms start only at a confirmed exceedance and end only at a confirmed return. */
  lemma EdgesConfirm(h: seq<Sample>, k: nat)
    requires k < |h|
    ensures Rise(h, k) ==> Confirms(h, k) && h[k].exceeded
    ensures Fall(h, k) ==> Confirms(h, k) && !h[k].exceeded
    ensures Rise(h, k) <==> !Alarmed(h, k) && Confirms(h, k) && h[k].exceeded
    ensures Fall(h, k) <==> Alarmed(h, k) && Confirms(h, k) && !h[k].exceeded
  {
    AlarmedNext(h, k);
  }

  lemma {:induction false} RisesOrdered(h: seq<Sample>, n: nat)
    requires n <= |h|
    ensures forall i :: 0 <= i < |Rises(h, n)| ==> Rises(h, n)[i] < n && Rise(h, Rises(h, n)[i])
    ensures forall i, j :: 0 <= i < j < |Rises(h, n)| ==> Rises(h, n)[i] < Rises(h, n)[j]
  {
    hide Alarmed;
    if n > 0 { RisesOrdered(h, n - 1); }
  }

  // While the alarm is on, no fall has happened since its last start, and before
  // that start every alarm had fallen.
  lemma {:induction false} LastRise(h: seq<Sample>, n: nat)
    requires n <= |h|
    ensures Rises(h, n) != [] ==> Rises(h, n)[|Rises(h, n)| - 1] < n
    ensures Alarmed(h, n) ==> Rises(h, n) != [] && NoFall(h, Rises(h, n)[|Rises(h, n)| - 1], n)
    ensures forall i :: 0 <= i < |Rises(h, n)| && (i < |Rises(h, n)| - 1 || !Alarmed(h, n)) ==>
      !NoFall(h, Rises(h, n)[i], n)
  {
    hide Alarmed;
    NotAlarmedYet(h);
    if n > 0 {
      LastRise(h, n - 1);
      RisesOrdered(h, n);
      var r, r' := Rises(h, n - 1), Rises(h, n);
      forall i | 0 <= i < |r'| && (i < |r'| - 1 || !Alarmed(h, n)) ensures !NoFall(h, r'[i], n) {
        assert i < |r| && r'[i] == r[i] && r[i] < n - 1;
        if NoFall(h, r[i], n - 1) {
          assert Fall(h, n - 1);
        }
      }
    }
  }

  // ----- one more sample --------------------------------------------------

  lemma EndsKept(h: seq<Sample>, k: nat, n: nat, end: Option<real>)
    requires k < n < |h| && EndsAt(h, k, n, end)
    ensures end.Some? ==> EndsAt(h, k, n + 1, end)
    ensures end.None? && !Fall(h, n) ==> EndsAt(h, k, n + 1, end)
    ensures end.None? && Fall(h, n) ==> EndsAt(h, k, n + 1, Some(h[n].time))
  {
    if end.Some? {
      var f: nat :| FirstFall(h, k, n, f) && end.value == h[f].time;
      assert FirstFall(h, k, n + 1, f);
    } else if Fall(h, n) {
      assert FirstFall(h, k, n + 1, n);
    }
  }

  lemma PeakKept(h: seq<Sample>, k: nat, n: nat, peak: real)
    requires k < n < |h| && IsPeak(h, k, n, peak)
    ensures !Counts(h, k, n + 1, n) ==> IsPeak(h, k, n + 1, peak)
    ensures Counts(h, k, n + 1, n) ==> IsPeak(h, k, n + 1, Max(peak, h[n].value))
  {
    forall i: nat ensures Counts(h, k, n + 1, i) <==> Counts(h, k, n, i) || (i == n && Counts(h, k, n + 1, n)) {
    }
    var i: nat :| Counts(h, k, n, i) && h[i].value == peak;
    assert Counts(h, k, n + 1, i);
  }

  lemma NewEvent(h: seq<Sample>, n: nat)
    requires n < |h|
    ensures Declared(h, n, n + 1, Event(h[n].source, h[n].time, None, h[n].value, h[n].value, false))
  {
    assert Counts(h, n, n + 1, n);
  }

  // How the log of a good view changes with sample n, case by case.
  lemma EventKept(h: seq<Sample>, k: nat, n: nat, e: Event, e': Event)
    requires k < n < |h| && Declared(h, k, n, e)
    requires e' == e.(endedAt := e'.endedAt, peak := e'.peak, synced := e'.synced)
    requires e'.endedAt == if e.endedAt.None? && Fall(h, n) then Some(h[n].time) else e.endedAt
    requires e'.peak == if Counts(h, k, n + 1, n) then Max(e.peak, h[n].value) else e.peak
    ensures Declared(h, k, n + 1, e')
  {
    EndsKept(h, k, n, e.endedAt);
    PeakKept(h, k, n, e.peak);
  }

  ghost predicate Uniform(h: seq<Sample>) {
    forall i :: 0 <= i < |h| ==> h[i].enabled && h[i].source == h[0].source
  }

  predicate Closed(events: seq<Event>) { forall i :: 0 <= i < |events| ==> !Open(events[i]) }

  // The view after n samples of a stretch that began with closed events before it.
  ghost predicate Agrees(before: seq<Event>, h: seq<Sample>, n: nat, v: View) {
    && n <= |h|
    && |before| <= |v.events| && v.events[..|before|] == before
    && LogDeclared(h, n, v.events[|before|..])
    && (n == 0 ==> v.row.None?)
    && (n > 0 && Alarmed(h, n) ==> Rises(h, n) != [] && Rises(h, n)[|Rises(h, n)| - 1] < n)
    && (n > 0 ==> v.row == Some(ExpectedRow(h, n)))
  }

  lemma OpenAt(before: seq<Event>, h: seq<Sample>, n: nat, v: View, i: nat)
    requires Closed(before) && Agrees(before, h, n, v) && i < |v.events|
    ensures Open(v.events[i]) <==> i == |v.events| - 1 && i >= |before| && Alarmed(h, n)
  {
    hide Alarmed, IsPeak, Counts, ExpectedRow;
    LastRise(h, n);
    if i < |before| {
      assert v.events[i] == v.events[..|before|][i];
    } else {
      assert v.events[i] == v.events[|before|..][i - |before|];
      OpenIffNoFall(h, Rises(h, n)[i - |before|], n, v.events[i]);
    }
  }

  lemma OpenIffNoFall(h: seq<Sample>, k: nat, n: nat, e: Event)
    requires k < n <= |h| && Declared(h, k, n, e)
    ensures Open(e) <==> NoFall(h, k, n)
  {
    hide IsPeak, Fall;
    if e.endedAt.Some? {
      var f: nat :| FirstFall(h, k, n, f) && e.endedAt.value == h[f].time;
    }
  }

  lemma RowNext(before: seq<Event>, h: seq<Sample>, n: nat, v: View)
    requires Uniform(h) && Closed(before) && n < |h| && Agrees(before, h, n, v)
    ensures Alarmed(h, n + 1) ==> Rises(h, n + 1) != [] && Rises(h, n + 1)[|Rises(h, n + 1)| - 1] < n + 1
    ensures Step(v, h[n]).row == Some(ExpectedRow(h, n + 1))
    ensures Switched(v, h[n]) == v
  {
    hide CloseAll, CloseSource, ClearSource, RaisePeak, Alarmed, LogDeclared;
    AlarmedNext(h, n);
    LastRise(h, n + 1);
    NotAlarmedYet(h);
    if n > 0 {
      assert h[n].source == h[n - 1].source;
      assert RunStart(h, n) == if h[n - 1].exceeded != h[n].exceeded then n else RunStart(h, n - 1);
    }
  }

  lemma EventsNext(before: seq<Event>, h: seq<Sample>, n: nat, v: View)
    requires Uniform(h) && Closed(before) && n < |h| && Agrees(before, h, n, v)
    ensures var out := Step(v, h[n]).events;
      |before| <= |out| && out[..|before|] == before && LogDeclared(h, n + 1, out[|before|..])
  {
    hide Step, Alarmed, Declared, Rise;
    var out := Step(v, h[n]).events;
    var b := |before|;
    StepEvents(before, h, n, v);
    RisesOrdered(h, n + 1);
    NewEvent(h, n);
    forall i | 0 <= i < b ensures out[i] == before[i] {
      OldEventNext(before, h, n, v, i);
    }
    forall i | 0 <= i < |out[b..]|
      ensures Rises(h, n + 1)[i] < n + 1 && Declared(h, Rises(h, n + 1)[i], n + 1, out[b..][i])
    {
      assert out[b..][i] == out[i + b];
      if i + b < |v.events| {
        OldEventNext(before, h, n, v, i + b);
      }
    }
  }

  lemma OldEventNext(before: seq<Event>, h: seq<Sample>, n: nat, v: View, i: nat)
    requires Uniform(h) && Closed(before) && n < |h| && Agrees(before, h, n, v) && i < |v.events|
    ensures i < |Step(v, h[n]).events|
    ensures i < |before| ==> Step(v, h[n]).events[i] == before[i]
    ensures i >= |before| ==> Rises(h, n)[i - |before|] < n
    ensures i >= |before| ==> Declared(h, Rises(h, n)[i - |before|], n + 1, Step(v, h[n]).events[i])
  {
    hide Step, Alarmed, Declared, Counts, Fall;
    StepEvents(before, h, n, v);
    OpenAt(before, h, n, v, i);
    if i < |before| {
      assert v.events[i] == v.events[..|before|][i];
    } else {
      assert v.events[i] == v.events[|before|..][i - |before|];
      CountsHere(before, h, n, v, i);
      EventKept(h, Rises(h, n)[i - |before|], n, v.events[i], Step(v, h[n]).events[i]);
    }
  }

  // Sample n counts for the event at log position i exactly when the machine raises
  // that event's peak.
  lemma CountsHere(before: seq<Event>, h: seq<Sample>, n: nat, v: View, i: nat)
    requires Uniform(h) && Closed(before) && n < |h| && Agrees(before, h, n, v)
    requires |before| <= i < |v.events|
    ensures Rises(h, n)[i - |before|] < n
    ensures Counts(h, Rises(h, n)[i - |before|], n + 1, n)
      <==> Open(v.events[i]) && n > 0 && h[n - 1].exceeded && h[n].exceeded
  {
    hide Alarmed, Fall;
    LastRise(h, n);
    OpenAt(before, h, n, v, i);
    RisesOrdered(h, n);
    assert v.events[i] == v.events[|before|..][i - |before|];
    OpenIffNoFall(h, Rises(h, n)[i - |before|], n, v.events[i]);
  }

  // The log after sample n, position by position.
  lemma StepEvents(before: seq<Event>, h: seq<Sample>, n: nat, v: View)
    requires Uniform(h) && Closed(before) && n < |h| && Agrees(before, h, n, v)
    ensures var out, x := Step(v, h[n]).events, h[n];
      && |out| == |v.events| + (if Rise(h, n) then 1 else 0)
      && (Rise(h, n) ==> out[|v.events|] == Event(x.source, x.time, None, x.value, x.value, false))
      && (forall i :: 0 <= i < |v.events| ==> Updated(h, n, v.events[i], out[i]))
  {
    hide Alarmed, LogDeclared, CloseAll, CloseSource;
    RowNext(before, h, n, v);
    EdgesConfirm(h, n);
    NotAlarmedYet(h);
    LastRise(h, n);
    var out, x := Step(v, h[n]).events, h[n];
    assert out == Advance(v, x).events;
    forall i | 0 <= i < |v.events| ensures i < |out| && Updated(h, n, v.events[i], out[i]) {
      OpenAt(before, h, n, v, i);
      if Open(v.events[i]) {
        OpenSource(before, h, n, v, i);
      }
    }
  }

  lemma OpenSource(before: seq<Event>, h: seq<Sample>, n: nat, v: View, i: nat)
    requires Uniform(h) && Closed(before) && n < |h| && Agrees(before, h, n, v)
    requires i < |v.events| && Open(v.events[i])
    ensures n > 0 && v.events[i].source == h[n].source
  {
    OpenAt(before, h, n, v, i);
    NotAlarmedYet(h);
    RisesOrdered(h, n);
    assert v.events[i] == v.events[|before|..][i - |before|];
    assert Declared(h, Rises(h, n)[i - |before|], n, v.events[i]);
  }

  ghost predicate Updated(h: seq<Sample>, n: nat, e: Event, e': Event)
    requires n < |h|
  {
    && e' == e.(endedAt := e'.endedAt, peak := e'.peak, synced := e'.synced)
    && (!Open(e) ==> e' == e)
    && e'.endedAt == (if Open(e) && Fall(h, n) then Some(h[n].time) else e.endedAt)
    && e'.peak == (if Open(e) && n > 0 && h[n - 1].exceeded && h[n].exceeded then Max(e.peak, h[n].value) else e.peak)
  }

  /** On a stretch of enabled samples from one source the machine's state row and its
      whole event log are the declarative debounce of that stretch. */
  lemma {:induction false} MachineIsDebounce(before: seq<Event>, h: seq<Sample>, n: nat)
    requires Uniform(h) && Closed(before) && n <= |h|
    ensures Agrees(before, h, n, Fold(View(None, before), h, n))
  {
    hide Step, Alarmed, LogDeclared, ExpectedRow, Rises;
    if n == 0 {
      NothingYet(before, h);
    } else {
      MachineIsDebounce(before, h, n - 1);
      var v := Fold(View(None, before), h, n - 1);
      RowNext(before, h, n - 1, v);
      EventsNext(before, h, n - 1, v);
    }
  }

  lemma NothingYet(before: seq<Event>, h: seq<Sample>)
    ensures Agrees(before, h, 0, View(None, before))
  {
    assert before[..|before|] == before && before[|before|..] == [];
  }

  // ----- rules disabled, sources changed ----------------------------------

  // Where the last uninterrupted stretch of the first n samples begins.
  function Stretch(h: seq<Sample>, n: nat): (s: nat)
    requires n <= |h|
    ensures s <= n
  {
    if n == 0 || !h[n - 1].enabled then n
    else if n > 1 && h[n - 2].enabled && h[n - 2].source == h[n - 1].source then Stretch(h, n - 1)
    else n - 1
  }

  lemma {:induction false} StretchUniform(h: seq<Sample>, n: nat)
    requires n <= |h|
    ensures Uniform(h[Stretch(h, n)..n])
    ensures Stretch(h, n) == n <==> n == 0 || !h[n - 1].enabled
  {
    if n > 0 && h[n - 1].enabled && n > 1 && h[n - 2].enabled && h[n - 2].source == h[n - 1].source {
      StretchUniform(h, n - 1);
      var u, w := h[Stretch(h, n)..n - 1], h[Stretch(h, n)..n];
      assert forall i :: 0 <= i < |u| ==> w[i] == u[i];
      assert u[|u| - 1] == h[n - 2];
    }
  }

  lemma AllClosed(v: View)
    requires Shape(v) && (v.row.Some? ==> !InAlarm(v.row.value.state))
    ensures Closed(v.events)
  {
  }

  // The events a stretch starts from: whatever was open has been closed.
  function Earlier(h: seq<Sample>, n: nat): seq<Event>
    requires n <= |h|
  {
    var s := Stretch(h, n);
    var v := Fold(View(None, []), h, s);
    if s < n then Switched(v, h[s]).events else v.events
  }

  lemma EarlierClosed(h: seq<Sample>, n: nat)
    requires n <= |h|
    ensures Closed(Earlier(h, n))
    ensures Stretch(h, n) < n ==>
      Switched(Fold(View(None, []), h, Stretch(h, n)), h[Stretch(h, n)]).row.None?
    ensures Stretch(h, n) == n ==> Fold(View(None, []), h, n).row.None?
  {
    hide Fold, Switched, Shape;
    var s := Stretch(h, n);
    var v := Fold(View(None, []), h, s);
    EveryViewShaped(h, s);
    StretchStart(h, n);
    StretchUniform(h, n);
    RowSource(h, s);
    if s < n {
      SwitchKeepsShape(v, h[s]);
      SwitchClears(v, h[s]);
      AllClosed(Switched(v, h[s]));
    } else {
      AllClosed(v);
    }
  }

  lemma SwitchClears(v: View, x: Sample)
    ensures Switched(v, x).row.None? <==> v.row.None? || v.row.value.source != x.source
  {
  }

  lemma {:induction false} StretchStart(h: seq<Sample>, n: nat)
    requires n <= |h|
    ensures var s := Stretch(h, n);
      s == 0 || !h[s - 1].enabled || (s < n && h[s - 1].source != h[s].source)
  {
    if n > 1 && h[n - 1].enabled && h[n - 2].enabled && h[n - 2].source == h[n - 1].source {
      StretchStart(h, n - 1);
    }
  }

  lemma RowSource(h: seq<Sample>, n: nat)
    requires n <= |h|
    ensures var v := Fold(View(None, []), h, n);
      if n == 0 || !h[n - 1].enabled then v.row.None? else v.row.Some? && v.row.value.source == h[n - 1].source
  {
  }

  lemma {:induction false} FoldStretch(h: seq<Sample>, s: nat, n: nat, v: View)
    requires s < n <= |h| && Uniform(h[s..n])
    requires Switched(v, h[s]) == View(None, Switched(v, h[s]).events)
    ensures FoldFrom(v, h, s, n) == Fold(View(None, Switched(v, h[s]).events), h[s..n], n - s)
    decreases n
  {
    hide Advance;
    var w := h[s..n];
    if n == s + 1 {
      assert w[0] == h[s];
      assert Fold(View(None, Switched(v, h[s]).events), w, 0) == View(None, Switched(v, h[s]).events);
    } else {
      assert h[s..n - 1] == w[..n - 1 - s] && w[n - 1 - s] == h[n - 1];
      FoldStretch(h, s, n - 1, v);
      FoldPrefix(View(None, Switched(v, h[s]).events), w, w[..n - 1 - s], n - 1 - s);
    }
  }

  lemma {:induction false} FoldPrefix(v: View, h: seq<Sample>, h': seq<Sample>, n: nat)
    requires n <= |h'| <= |h| && h' == h[..|h'|]
    ensures Fold(v, h, n) == Fold(v, h', n)
  {
    hide Step;
    if n > 0 { FoldPrefix(v, h, h', n - 1); }
  }

  function FoldFrom(v: View, h: seq<Sample>, s: nat, n: nat): View
    requires s <= n <= |h|
    decreases n
  {
    if n == s then v else Step(FoldFrom(v, h, s, n - 1), h[n - 1])
  }

  lemma {:induction false} FoldSplit(v: View, h: seq<Sample>, s: nat, n: nat)
    requires s <= n <= |h|
    ensures Fold(v, h, n) == FoldFrom(Fold(v, h, s), h, s, n)
    decreases n
  {
    hide Step;
    if s < n { FoldSplit(v, h, s, n - 1); }
  }

  /** For every history whatsoever: after a disabled rule there is no state and no
      open event; otherwise row and log are the debounce of the samples since the rule
      was last enabled or the source last changed, on top of closed earlier events. */
  lemma EveryHistoryDebounced(h: seq<Sample>, n: nat)
    requires n <= |h|
    ensures var s, v := Stretch(h, n), Fold(View(None, []), h, n);
      && Closed(Earlier(h, n))
      && (s == n ==> v == View(None, Earlier(h, n)))
      && (s < n ==> Uniform(h[s..n]) && Agrees(Earlier(h, n), h[s..n], n - s, v))
  {
    hide Step, Agrees, Switched;
    var s := Stretch(h, n);
    EarlierClosed(h, n);
    StretchUniform(h, n);
    if s < n {
      FoldSplit(View(None, []), h, s, n);
      FoldStretch(h, s, n, Fold(View(None, []), h, s));
      MachineIsDebounce(Earlier(h, n), h[s..n], n - s);
    }
  }

  // ----- spacing ----------------------------------------------------------

  ghost predicate Timely(h: seq<Sample>, d: real) {
    && (forall i :: 0 <= i < |h| ==> h[i].delay == d)
    && (forall i, j :: 0 <= i <= j < |h| ==> h[i].time <= h[j].time)
  }

  // An opposite level before a confirmed one lies at least the delay earlier.
  lemma OppositeEarlier(h: seq<Sample>, d: real, k: nat, f: nat)
    requires Timely(h, d) && k < f < |h| && Confirms(h, f) && h[k].exceeded != h[f].exceeded
    ensures h[f].time - h[k].time >= d
  {
    if RunStart(h, f) <= k { RunUniform(h, f, k); }
  }

  /** With a constant delay and time running forward, a cleared alarm lasts at least
      the delay, and the next one starts at least the delay after its end. */
  lemma AlarmsLast(h: seq<Sample>, d: real, k: nat, f: nat)
    requires Timely(h, d) && k < f < |h|
    ensures Rise(h, k) && Fall(h, f) ==> h[f].time >= h[k].time + d
    ensures Fall(h, k) && Rise(h, f) ==> h[f].time >= h[k].time + d
  {
    EdgesConfirm(h, k);
    EdgesConfirm(h, f);
    if (Rise(h, k) && Fall(h, f)) || (Fall(h, k) && Rise(h, f)) {
      OppositeEarlier(h, d, k, f);
    }
  }

  lemma {:induction false} FallBetween(h: seq<Sample>, k: nat, n: nat) returns (f: nat)
    requires k < n <= |h| && Alarmed(h, k + 1) && !Alarmed(h, n)
    ensures k < f < n && Fall(h, f)
    decreases n
  {
    if Alarmed(h, n - 1) {
      f := n - 1;
    } else {
      f := FallBetween(h, k, n - 1);
    }
  }

  /** The starts of m + 1 successive alarms of one metric span at least 2 * d * m. */
  lemma {:induction false} AlarmsSpan(h: seq<Sample>, d: real, n: nat, i: nat, m: nat)
    requires Timely(h, d) && n <= |h| && i + m < |Rises(h, n)|
    ensures Rises(h, n)[i] < |h| && Rises(h, n)[i + m] < |h|
    ensures h[Rises(h, n)[i + m]].time - h[Rises(h, n)[i]].time >= 2.0 * d * m as real
    decreases m
  {
    hide Alarmed, Timely, Rises;
    RisesOrdered(h, n);
    if m > 0 {
      AlarmsSpan(h, d, n, i, m - 1);
      OneMore(h, d, Rises(h, n)[i + m - 1], Rises(h, n)[i + m]);
      Twice(d, m);
    }
  }

  lemma Twice(d: real, m: nat)
    requires m > 0
    ensures 2.0 * d * m as real == 2.0 * d * (m - 1) as real + 2.0 * d
  {
  }

  lemma OneMore(h: seq<Sample>, d: real, k: nat, k': nat)
    requires Timely(h, d) && k < k' < |h| && Rise(h, k) && Rise(h, k')
    ensures h[k'].time - h[k].time >= 2.0 * d
  {
    var f := FallBetween(h, k, k');
    AlarmsLast(h, d, k, f);
    AlarmsLast(h, d, f, k');
  }
}
