/** Lengths, gaps and overlaps of the events the alarm machine logs. */
module EventSpacing {
  import opened Common
  import opened AlarmMachine
  import opened Debounce

  // The events the machine logs on the first n samples of a stretch.
  function Logged(before: seq<Event>, h: seq<Sample>, n: nat): seq<Event>
    requires n <= |h|
  {
    var events := Fold(View(None, before), h, n).events;
    if |before| <= |events| then events[|before|..] else []
  }

  lemma LoggedDeclared(before: seq<Event>, h: seq<Sample>, n: nat)
    requires Uniform(h) && Closed(before) && n <= |h|
    ensures LogDeclared(h, n, Logged(before, h, n))
  {
    hide Fold, LogDeclared;
    MachineIsDebounce(before, h, n);
  }

  lemma FallSeen(h: seq<Sample>, k: nat, n: nat, f: nat)
    requires k < f < n <= |h| && Fall(h, f)
    ensures !NoFall(h, k, n)
  {
  }

  // Two successive starts: the first alarm's first end lies between them.
  lemma EndedBefore(h: seq<Sample>, k: nat, k': nat, n: nat, end: Option<real>) returns (f: nat)
    requires k < k' < n <= |h| && Rise(h, k) && Rise(h, k') && EndsAt(h, k, n, end)
    ensures k < f < k' && Fall(h, f) && end == Some(h[f].time)
  {
    hide Alarmed;
    var g := FallBetween(h, k, k');
    FallSeen(h, k, n, g);
    f :| FirstFall(h, k, n, f) && end.value == h[f].time;
  }

  predicate LastsFor(e: Event, d: real) { e.endedAt.Some? ==> e.endedAt.value >= e.startedAt + d }

  predicate Follows(e: Event, later: Event, d: real) { e.endedAt.Some? && later.startedAt >= e.endedAt.value + d }

  lemma DeclaredLasts(h: seq<Sample>, d: real, n: nat, k: nat, e: Event)
    requires Timely(h, d) && k < n <= |h| && Rise(h, k) && Declared(h, k, n, e)
    ensures LastsFor(e, d)
  {
    hide Timely, Alarmed, IsPeak;
    if e.endedAt.Some? {
      var f: nat :| FirstFall(h, k, n, f) && e.endedAt.value == h[f].time;
      AlarmsLast(h, d, k, f);
    }
  }

  lemma DeclaredFollows(h: seq<Sample>, d: real, n: nat, k: nat, e: Event, k': nat, later: Event)
    requires Timely(h, d) && k < k' < n <= |h| && Rise(h, k) && Rise(h, k')
    requires Declared(h, k, n, e) && Declared(h, k', n, later)
    ensures Follows(e, later, d)
  {
    hide Timely, Rise, Fall, IsPeak, EndsAt;
    var f := EndedBefore(h, k, k', n, e.endedAt);
    AlarmsLast(h, d, f, k');
  }

  /** With a constant delay, time running forward and one source, every event the
      machine logs and closes lasts at least the delay, and every later event starts at
      least the delay after its end. */
  lemma EventsSpaced(before: seq<Event>, h: seq<Sample>, d: real, n: nat)
    requires Uniform(h) && Closed(before) && Timely(h, d) && n <= |h|
    ensures var log := Logged(before, h, n);
      && (forall i :: 0 <= i < |log| ==> LastsFor(log[i], d))
      && (forall i, j :: 0 <= i < j < |log| ==> Follows(log[i], log[j], d))
  {
    hide Logged, Timely, Rises, Rise, Declared, LastsFor, Follows;
    var log := Logged(before, h, n);
    LoggedDeclared(before, h, n);
    RisesOrdered(h, n);
    forall i | 0 <= i < |log| ensures LastsFor(log[i], d) {
      DeclaredLasts(h, d, n, Rises(h, n)[i], log[i]);
    }
    forall i, j | 0 <= i < j < |log| ensures Follows(log[i], log[j], d) {
      DeclaredFollows(h, d, n, Rises(h, n)[i], log[i], Rises(h, n)[j], log[j]);
    }
  }

  predicate Covers(e: Event, t: real) { e.startedAt <= t && (e.endedAt.Some? ==> t < e.endedAt.value) }

  /** So no moment belongs to two events of one metric. */
  lemma EventsDisjoint(before: seq<Event>, h: seq<Sample>, d: real, n: nat, i: nat, j: nat, t: real)
    requires Uniform(h) && Closed(before) && Timely(h, d) && d >= 0.0 && n <= |h|
    requires i < j < |Logged(before, h, n)|
    ensures !(Covers(Logged(before, h, n)[i], t) && Covers(Logged(before, h, n)[j], t))
  {
    hide Logged, Timely;
    EventsSpaced(before, h, d, n);
    assert Follows(Logged(before, h, n)[i], Logged(before, h, n)[j], d);
  }

  /** And m + 1 successive events span at least 2 * d * m between first and last start. */
  lemma EventsSpan(before: seq<Event>, h: seq<Sample>, d: real, n: nat, i: nat, m: nat)
    requires Uniform(h) && Closed(before) && Timely(h, d) && n <= |h| && i + m < |Logged(before, h, n)|
    ensures Logged(before, h, n)[i + m].startedAt - Logged(before, h, n)[i].startedAt >= 2.0 * d * m as real
  {
    hide Logged, Timely, Rises, EndsAt, IsPeak;
    LoggedDeclared(before, h, n);
    AlarmsSpan(h, d, n, i, m);
    var log := Logged(before, h, n);
    assert Declared(h, Rises(h, n)[i], n, log[i]) && Declared(h, Rises(h, n)[i + m], n, log[i + m]);
  }
}
