/** When an alarm event marked synced differs from the cloud's copy: evaluations that
    interleave with a pass, silent closes, and requests that commit late. */
module AlarmRaces {
  import opened Common
  import opened AlarmMachine
  import opened AlarmUpload

  // ----- one pass ---------------------------------------------------------

  // What may happen beside a pass: evaluations, and commits of earlier requests.
  predicate Beside(steps: seq<AlarmUpload.Step>) {
    forall i :: 0 <= i < |steps| ==> steps[i].Sampled? || steps[i].Late?
  }

  // A whole pass over ids, with other steps before the cloud's commit and after it.
  function UpToCommit(ids: set<Id>, xs: seq<AlarmUpload.Step>): seq<AlarmUpload.Step> {
    [Select(ids)] + xs + [Deliver(ids)]
  }

  function PassOf(ids: set<Id>, xs: seq<AlarmUpload.Step>, ys: seq<AlarmUpload.Step>): seq<AlarmUpload.Step> {
    UpToCommit(ids, xs) + ys + [Confirm(ids)]
  }

  // The peak of the last request for the event that landed in the run, or the given one.
  function LastPeak(s: System, steps: seq<AlarmUpload.Step>, id: Id, peak: real): real
    requires Runs(s, steps)
    decreases |steps|
  {
    if steps == [] then peak
    else
      var step := steps[0];
      LastPeak(Next(s, step), steps[1..], id,
               if step.Late? && id in step.ids then s.abandoned[step.k][id].peak else peak)
  }

  lemma {:induction false} RunSplit(s: System, a: seq<AlarmUpload.Step>, b: seq<AlarmUpload.Step>)
    ensures Runs(s, a + b) <==> Runs(s, a) && Runs(Run(s, a), b)
    ensures Runs(s, a + b) ==> Run(s, a + b) == Run(Run(s, a), b)
    decreases |a|
  {
    hide Next, Can;
    if a == [] {
      assert a + b == b;
    } else {
      assert (a + b)[0] == a[0] && (a + b)[1..] == a[1..] + b;
      if Can(s, a[0]) {
        RunSplit(Next(s, a[0]), a[1..], b);
      }
    }
  }

  lemma OneStep(s: System, step: AlarmUpload.Step)
    ensures Runs(s, [step]) <==> Can(s, step)
    ensures Can(s, step) ==> Run(s, [step]) == Next(s, step)
  {
    hide Next, Can;
    assert [step][1..] == [];
    if Can(s, step) {
      assert Run(Next(s, step), []) == Next(s, step);
    }
  }

  lemma BesideStep(s: System, step: AlarmUpload.Step)
    requires Inv(s) && Can(s, step) && (step.Sampled? || step.Late?)
    ensures var t := Next(s, step);
      && Inv(t) && t.flight == s.flight && t.landed == s.landed && Aged(s.view.events, t.view.events)
  {
    hide Shape;
    StepKeepsInv(s, step);
    if step.Sampled? {
      hide AlarmMachine.Step;
      SampleAges(s.view, step.x);
    }
  }

  lemma AgedSelf(a: seq<Event>)
    ensures Aged(a, a)
  {
  }

  lemma AgedTwice(a: seq<Event>, b: seq<Event>, c: seq<Event>)
    requires Aged(a, b) && Aged(b, c)
    ensures Aged(a, c)
  {
    forall i | 0 <= i < |a| ensures Behind(CopyOf(a[i]), c[i]) {
      assert Behind(CopyOf(a[i]), b[i]) && Behind(CopyOf(b[i]), c[i]);
    }
  }

  lemma {:induction false} BesideKeeps(s: System, steps: seq<AlarmUpload.Step>)
    requires Inv(s) && Runs(s, steps) && Beside(steps)
    ensures var t := Run(s, steps);
      && Inv(t) && t.flight == s.flight && t.landed == s.landed && Aged(s.view.events, t.view.events)
    decreases |steps|
  {
    hide Next, Can, Inv, Aged;
    if steps != [] {
      var m := Next(s, steps[0]);
      BesideStep(s, steps[0]);
      assert Beside(steps[1..]);
      BesideKeeps(m, steps[1..]);
      AgedTwice(s.view.events, m.view.events, Run(m, steps[1..]).view.events);
    } else {
      AgedSelf(s.view.events);
    }
  }

  // What the cloud and earlier requests know of the event is no newer than e.
  predicate EndAllowed(s: System, id: Id, e: Event) {
    && (id in s.cloud ==> Behind(s.cloud[id], e))
    && forall k :: 0 <= k < |s.abandoned| && id in s.abandoned[k] ==> Behind(s.abandoned[k][id], e)
  }

  // Moreover the cloud has the event, with the end of e.
  predicate EndFixed(s: System, id: Id, e: Event) {
    id in s.cloud && s.cloud[id].endedAt == e.endedAt && EndAllowed(s, id, e)
  }

  lemma EndStep(s: System, step: AlarmUpload.Step, id: Id, e: Event)
    requires Can(s, step) && (step.Sampled? || step.Late?) && EndFixed(s, id, e)
    ensures EndFixed(Next(s, step), id, e)
    ensures Next(s, step).cloud[id].peak
            == if step.Late? && id in step.ids then s.abandoned[step.k][id].peak else s.cloud[id].peak
  {
    hide AlarmMachine.Step;
  }

  lemma {:induction false} CloudBeside(s: System, steps: seq<AlarmUpload.Step>, id: Id, e: Event)
    requires Runs(s, steps) && Beside(steps) && EndFixed(s, id, e)
    ensures EndFixed(Run(s, steps), id, e)
    ensures Run(s, steps).cloud[id].peak == LastPeak(s, steps, id, s.cloud[id].peak)
    decreases |steps|
  {
    hide Next, Can, EndFixed;
    if steps != [] {
      EndStep(s, steps[0], id, e);
      EndKnown(s, id, e);
      EndKnown(Next(s, steps[0]), id, e);
      assert Beside(steps[1..]);
      CloudBeside(Next(s, steps[0]), steps[1..], id, e);
    }
  }

  lemma EndKnown(s: System, id: Id, e: Event)
    requires EndFixed(s, id, e)
    ensures id in s.cloud
  {
  }

  lemma AllowedStep(s: System, step: AlarmUpload.Step, id: Id, e: Event)
    requires Can(s, step) && (step.Sampled? || step.Late?) && EndAllowed(s, id, e)
    ensures EndAllowed(Next(s, step), id, e)
  {
    hide AlarmMachine.Step;
  }

  lemma {:induction false} AllowedRun(s: System, steps: seq<AlarmUpload.Step>, id: Id, e: Event)
    requires Runs(s, steps) && Beside(steps) && EndAllowed(s, id, e)
    ensures EndAllowed(Run(s, steps), id, e)
    decreases |steps|
  {
    hide Next, Can, EndAllowed;
    if steps != [] {
      AllowedStep(s, steps[0], id, e);
      assert Beside(steps[1..]);
      AllowedRun(Next(s, steps[0]), steps[1..], id, e);
    }
  }

  // The three parts of the run up to the cloud's commit.
  lemma Parts(s: System, ids: set<Id>, xs: seq<AlarmUpload.Step>)
    requires Runs(s, UpToCommit(ids, xs))
    ensures Can(s, Select(ids)) && Runs(Next(s, Select(ids)), xs)
    ensures var a := Run(Next(s, Select(ids)), xs);
      Can(a, Deliver(ids)) && Run(s, UpToCommit(ids, xs)) == Next(a, Deliver(ids))
  {
    hide Next, Can, Runs, Run;
    RunSplit(s, [Select(ids)] + xs, [Deliver(ids)]);
    RunSplit(s, [Select(ids)], xs);
    OneStep(s, Select(ids));
    OneStep(Run(s, [Select(ids)] + xs), Deliver(ids));
  }

  lemma Committed(s: System, ids: set<Id>, xs: seq<AlarmUpload.Step>, id: Id)
    requires Inv(s) && Runs(s, UpToCommit(ids, xs)) && Beside(xs) && id in ids
    ensures id < |s.view.events|
    ensures var m := Run(s, UpToCommit(ids, xs)); var e := s.view.events[id];
      && Inv(m) && Aged(s.view.events, m.view.events)
      && EndFixed(m, id, e) && m.cloud[id].peak == e.peak
  {
    hide Runs, Run, Shape;
    Parts(s, ids, xs);
    var s1 := Next(s, Select(ids));
    var e := s.view.events[id];
    StepKeepsInv(s, Select(ids));
    assert s1.flight[id] == CopyOf(e);
    forall k | 0 <= k < |s.abandoned| && id in s.abandoned[k] ensures Behind(s.abandoned[k][id], e) {
      assert AllBehind(s.abandoned[k], s.view.events);
    }
    assert EndAllowed(s1, id, e);
    BesideKeeps(s1, xs);
    AllowedRun(s1, xs, id, e);
    StepKeepsInv(Run(s1, xs), Deliver(ids));
  }

  /** Whatever is evaluated and whatever older requests land during a pass, each event
      of its batch ends marked synced, and it equals the cloud's copy exactly when its
      end and peak are still those the SELECT read and the last older request that
      landed after the pass's own commit, if any, carried that peak. */
  lemma PassIff(s: System, ids: set<Id>, xs: seq<AlarmUpload.Step>, ys: seq<AlarmUpload.Step>, id: Id)
    requires Inv(s) && Runs(s, PassOf(ids, xs, ys)) && Beside(xs) && Beside(ys) && id in ids
    ensures id < |s.view.events| && Runs(s, UpToCommit(ids, xs)) && Runs(Run(s, UpToCommit(ids, xs)), ys)
    ensures var t := Run(s, PassOf(ids, xs, ys)); var peak := s.view.events[id].peak;
      && id < |t.view.events| && t.view.events[id].synced
      && (Same(t.cloud, t.view.events[id], id) <==>
            && CopyOf(t.view.events[id]) == CopyOf(s.view.events[id])
            && LastPeak(Run(s, UpToCommit(ids, xs)), ys, id, peak) == peak)
  {
    hide Runs, Run, Shape, LastPeak, UpToCommit, EndFixed;
    var first := UpToCommit(ids, xs);
    RunSplit(s, first + ys, [Confirm(ids)]);
    RunSplit(s, first, ys);
    var m := Run(s, first);
    var n := Run(m, ys);
    assert Run(s, first + ys) == n;
    OneStep(n, Confirm(ids));
    Committed(s, ids, xs, id);
    BesideKeeps(m, ys);
    EndKnown(m, id, s.view.events[id]);
    CloudBeside(m, ys, id, s.view.events[id]);
    AgedTwice(s.view.events, m.view.events, n.view.events);
    Compared(s, n, id, LastPeak(m, ys, id, s.view.events[id].peak));
    StepKeepsInv(n, Confirm(ids));
  }

  lemma Compared(s: System, n: System, id: Id, peak: real)
    requires Inv(n) && id < |s.view.events| && id < |n.view.events|
    requires EndFixed(n, id, s.view.events[id]) && n.cloud[id].peak == peak
    requires Behind(CopyOf(s.view.events[id]), n.view.events[id])
    ensures Same(n.cloud, n.view.events[id], id) <==>
      CopyOf(n.view.events[id]) == CopyOf(s.view.events[id]) && peak == s.view.events[id].peak
  {
    hide Shape;
    assert Behind(n.cloud[id], n.view.events[id]);
  }

  // ----- what stays wrong -------------------------------------------------

  // Closed and marked synced here, still open in the cloud, in no running pass, and no
  // earlier request still carries an end.
  predicate LostClose(s: System, id: Id) {
    && id < |s.view.events| && s.view.events[id].synced && !Open(s.view.events[id])
    && id in s.cloud && s.cloud[id].endedAt.None? && id !in s.flight && s.landed <= s.flight.Keys
    && (forall k :: 0 <= k < |s.abandoned| && id in s.abandoned[k] ==> s.abandoned[k][id].endedAt.None?)
  }

  /** Such an event stays open in the cloud for ever: no later evaluation touches a
      closed event, no later pass selects a synced one, and no late commit brings the
      end. */
  lemma {:induction false} LostForEver(s: System, steps: seq<AlarmUpload.Step>, id: Id)
    requires LostClose(s, id) && Runs(s, steps)
    ensures LostClose(Run(s, steps), id)
    decreases |steps|
  {
    hide LostClose, Next, Can;
    if steps != [] {
      LostStep(s, steps[0], id);
      LostForEver(Next(s, steps[0]), steps[1..], id);
    }
  }

  lemma LostStep(s: System, step: AlarmUpload.Step, id: Id)
    requires LostClose(s, id) && Can(s, step)
    ensures LostClose(Next(s, step), id)
  {
    if step.Sampled? {
      hide AlarmMachine.Step;
      SampleAges(s.view, step.x);
    }
  }

  // Closed and marked synced, and no request, running or earlier, carries it any more.
  predicate Frozen(s: System, id: Id) {
    && id < |s.view.events| && s.view.events[id].synced && !Open(s.view.events[id])
    && id !in s.flight && s.landed <= s.flight.Keys
    && (forall k :: 0 <= k < |s.abandoned| ==> id !in s.abandoned[k])
  }

  lemma FrozenStep(s: System, step: AlarmUpload.Step, id: Id)
    requires Frozen(s, id) && Can(s, step)
    ensures Frozen(Next(s, step), id) && Next(s, step).view.events[id] == s.view.events[id]
    ensures id in s.cloud ==> id in Next(s, step).cloud && Next(s, step).cloud[id] == s.cloud[id]
  {
    if step.Sampled? {
      hide AlarmMachine.Step;
      SampleAges(s.view, step.x);
    }
  }

  /** Both copies of such an event are final, equal or not. */
  lemma {:induction false} FrozenForEver(s: System, steps: seq<AlarmUpload.Step>, id: Id)
    requires Frozen(s, id) && id in s.cloud && Runs(s, steps)
    ensures var t := Run(s, steps);
      Frozen(t, id) && t.view.events[id] == s.view.events[id] && id in t.cloud && t.cloud[id] == s.cloud[id]
    decreases |steps|
  {
    hide Frozen, Next, Can;
    if steps != [] {
      FrozenStep(s, steps[0], id);
      FrozenForEver(Next(s, steps[0]), steps[1..], id);
    }
  }

  // ----- and it happens ---------------------------------------------------

  function Start(): System { System(View(None, []), map[], map[], {}, []) }

  predicate Leads(s: System, step: AlarmUpload.Step, t: System) {
    Can(s, step) && Harmless(s, step) && Next(s, step) == t
  }

  ghost predicate Good(s: System, steps: seq<AlarmUpload.Step>, t: System) {
    Runs(s, steps) && AllHarmless(s, steps) && Run(s, steps) == t
  }

  lemma NoSteps(s: System)
    ensures Good(s, [], s)
  {
  }

  lemma LeadsFrom(s: System, steps: seq<AlarmUpload.Step>, i: nat, t: System, u: System)
    requires i < |steps| && Leads(s, steps[i], t) && Good(t, steps[i + 1..], u)
    ensures Good(s, steps[i..], u)
  {
    hide Next, Can, Harmless;
    assert steps[i..][0] == steps[i] && steps[i..][1..] == steps[i + 1..];
  }

  // An exceedance confirmed after ten seconds.
  const FIRST: Sample := Sample(0.0, 1, 5.0, true, true, 10.0)
  const SECOND: Sample := Sample(10.0, 1, 5.0, true, true, 10.0)

  function Raised(state: State, since: Option<real>, event: Event): System {
    Start().(view := View(Some(StateRow(1, state, since, Some(10.0))), [event]))
  }

  function Pending(): System { Start().(view := View(Some(StateRow(1, PendingAlarm, Some(0.0), None)), [])) }

  const RAISED: Event := Event(1, 10.0, None, 5.0, 5.0, false)

  lemma TwoSamples()
    ensures Leads(Start(), Sampled(FIRST), Pending())
    ensures Leads(Pending(), Sampled(SECOND), Raised(AlarmActive, None, RAISED))
  {
  }

  // A silent close.

  function SilentClose(): seq<AlarmUpload.Step> {
    [Sampled(FIRST), Sampled(SECOND), Select({0}), Deliver({0}), Confirm({0}), Leave]
  }

  function Uploaded(): System {
    Raised(AlarmActive, None, RAISED.(synced := true)).(cloud := map[0 := CopyOf(RAISED)], abandoned := [map[]])
  }

  lemma RaisedAndUploaded()
    ensures Good(Start(), SilentClose(), Uploaded())
  {
    hide Good, Leads;
    var steps := SilentClose();
    var s2 := Raised(AlarmActive, None, RAISED);
    var s3 := s2.(flight := map[0 := CopyOf(RAISED)]);
    var s4 := s3.(cloud := map[0 := CopyOf(RAISED)], landed := {0});
    var s5 := s4.(view := s4.view.(events := [RAISED.(synced := true)]));
    TwoSamples();
    FourLeads(s2, s3, s4, s5);
    NoSteps(Uploaded());
    assert steps[6..] == [] && steps[0..] == steps;
    LeadsFrom(s5, steps, 5, Uploaded(), Uploaded());
    LeadsFrom(s4, steps, 4, s5, Uploaded());
    LeadsFrom(s3, steps, 3, s4, Uploaded());
    LeadsFrom(s2, steps, 2, s3, Uploaded());
    LeadsFrom(Pending(), steps, 1, s2, Uploaded());
    LeadsFrom(Start(), steps, 0, Pending(), Uploaded());
  }

  lemma FourLeads(s2: System, s3: System, s4: System, s5: System)
    requires s2 == Raised(AlarmActive, None, RAISED) && s3 == s2.(flight := map[0 := CopyOf(RAISED)])
    requires s4 == s3.(cloud := map[0 := CopyOf(RAISED)], landed := {0})
    requires s5 == s4.(view := s4.view.(events := [RAISED.(synced := true)]))
    ensures Leads(s2, Select({0}), s3) && Leads(s3, Deliver({0}), s4)
    ensures Leads(s4, Confirm({0}), s5) && Leads(s5, Leave, Uploaded())
  {
    assert Next(s3, Deliver({0})).cloud == s4.cloud;
    assert MarkAll([RAISED], {0}) == [RAISED.(synced := true)];
    assert s5.flight - s5.landed == map[];
  }

  /** A silent close: an alarm raised, uploaded and marked, then a sample from another
      source; the event is closed here, still marked synced, and open in the cloud for
      ever. */
  lemma SourceChangeAfterUpload()
    ensures exists steps: seq<AlarmUpload.Step>, x: Sample ::
      Runs(Start(), steps) && Coherent(Run(Start(), steps)) && StaleClose(Run(Start(), steps).view, x)
      && !Coherent(Next(Run(Start(), steps), Sampled(x))) && LostClose(Next(Run(Start(), steps), Sampled(x)), 0)
  {
    hide Runs, Run, AllHarmless;
    var x := Sample(20.0, 2, 5.0, true, true, 10.0);
    RaisedAndUploaded();
    assert Inv(Uploaded()) && Coherent(Uploaded()) && StaleClose(Uploaded().view, x);
    SampleKeepsCoherentIff(Uploaded(), x);
    assert LostClose(Next(Uploaded(), Sampled(x)), 0);
    assert Run(Start(), SilentClose()) == Uploaded();
  }

  // A clear during the first upload.

  const RETURN: Sample := Sample(20.0, 1, 2.0, true, false, 10.0)
  const CLEAR: Sample := Sample(30.0, 1, 2.0, true, false, 10.0)

  function Selecting(): seq<AlarmUpload.Step> {
    [Sampled(FIRST), Sampled(SECOND), Sampled(RETURN), Select({0})]
  }

  function Selected(): System {
    Raised(PendingClear, Some(20.0), RAISED).(flight := map[0 := CopyOf(RAISED)])
  }

  lemma ReturnedAndSelected()
    ensures Good(Start(), Selecting(), Selected())
  {
    hide Good, Leads;
    var steps := Selecting();
    var s2, s3 := Raised(AlarmActive, None, RAISED), Raised(PendingClear, Some(20.0), RAISED);
    TwoSamples();
    assert Leads(s2, Sampled(RETURN), s3) && Leads(s3, Select({0}), Selected()) by { TwoMore(); }
    NoSteps(Selected());
    assert steps[4..] == [] && steps[0..] == steps;
    LeadsFrom(s3, steps, 3, Selected(), Selected());
    LeadsFrom(s2, steps, 2, s3, Selected());
    LeadsFrom(Pending(), steps, 1, s2, Selected());
    LeadsFrom(Start(), steps, 0, Pending(), Selected());
  }

  lemma TwoMore()
    ensures Leads(Raised(AlarmActive, None, RAISED), Sampled(RETURN), Raised(PendingClear, Some(20.0), RAISED))
    ensures Leads(Raised(PendingClear, Some(20.0), RAISED), Select({0}), Selected())
  {
  }

  lemma ClearedInFlight()
    ensures var rest := [Sampled(CLEAR), Deliver({0}), Confirm({0}), Leave];
      Runs(Selected(), rest) && LostClose(Run(Selected(), rest), 0)
  {
    var s1 := Next(Selected(), Sampled(CLEAR));
    assert s1.view.events == [RAISED.(endedAt := Some(30.0))];
    var s2 := Next(s1, Deliver({0}));
    var s3 := Next(s2, Confirm({0}));
    var s4 := Next(s3, Leave);
    assert LostClose(s4, 0);
    FourSteps(Selected(), Sampled(CLEAR), Deliver({0}), Confirm({0}), Leave);
  }

  lemma FourSteps(s: System, a: AlarmUpload.Step, b: AlarmUpload.Step, c: AlarmUpload.Step, d: AlarmUpload.Step)
    requires Can(s, a) && Can(Next(s, a), b) && Can(Next(Next(s, a), b), c) && Can(Next(Next(Next(s, a), b), c), d)
    ensures Runs(s, [a, b, c, d]) && Run(s, [a, b, c, d]) == Next(Next(Next(Next(s, a), b), c), d)
  {
    hide Next, Can;
    var s1 := Next(s, a);
    var s2 := Next(s1, b);
    var s3 := Next(s2, c);
    assert [a, b, c, d][1..] == [b, c, d] && [b, c, d][1..] == [c, d] && [c, d][1..] == [d];
    OneStep(s3, d);
    assert Runs(s2, [c, d]) && Run(s2, [c, d]) == Next(s3, d);
    assert Runs(s1, [b, c, d]) && Run(s1, [b, c, d]) == Next(s3, d);
  }

  /** An alarm cleared while its first upload is in flight: a run from the empty log to
      a close that is lost. */
  lemma ClearDuringUpload()
    ensures exists steps: seq<AlarmUpload.Step> :: Runs(Start(), steps) && LostClose(Run(Start(), steps), 0)
  {
    hide Runs, Run, AllHarmless, LostClose;
    var rest := [Sampled(CLEAR), Deliver({0}), Confirm({0}), Leave];
    ReturnedAndSelected();
    ClearedInFlight();
    RunSplit(Start(), Selecting(), rest);
    assert LostClose(Run(Start(), Selecting() + rest), 0);
  }

  // A request that commits late.

  const HIGHER: Sample := Sample(20.0, 1, 9.0, true, true, 10.0)
  const BACK: Sample := Sample(30.0, 1, 2.0, true, false, 10.0)
  const OVER: Sample := Sample(40.0, 1, 2.0, true, false, 10.0)

  // The first pass hangs and is given up; the peak rises, the alarm ends, and a second
  // pass uploads and marks the event.
  function TwoPasses(): seq<AlarmUpload.Step> {
    [Sampled(FIRST), Sampled(SECOND), Select({0}), Leave, Sampled(HIGHER), Sampled(BACK), Sampled(OVER),
     Select({0}), Deliver({0}), Confirm({0}), Leave]
  }

  const ENDED: Event := Event(1, 10.0, Some(40.0), 5.0, 9.0, false)

  function GivenUp(state: State, since: Option<real>, event: Event): System {
    Raised(state, since, event).(abandoned := [map[0 := CopyOf(RAISED)]])
  }

  function Ended(event: Event): System {
    Start().(view := View(Some(StateRow(1, Normal, None, None)), [event]), abandoned := [map[0 := CopyOf(RAISED)]])
  }

  function Twice(): System {
    Ended(ENDED.(synced := true)).(cloud := map[0 := CopyOf(ENDED)], abandoned := [map[0 := CopyOf(RAISED)], map[]])
  }

  lemma FirstGivenUp()
    ensures var s2 := Raised(AlarmActive, None, RAISED);
      && Leads(s2, Select({0}), s2.(flight := map[0 := CopyOf(RAISED)]))
      && Leads(s2.(flight := map[0 := CopyOf(RAISED)]), Leave, GivenUp(AlarmActive, None, RAISED))
  {
    var s2 := Raised(AlarmActive, None, RAISED);
    assert Next(s2, Select({0})).flight == map[0 := CopyOf(RAISED)];
    assert map[0 := CopyOf(RAISED)] - {} == map[0 := CopyOf(RAISED)];
  }

  lemma RisenAndEnded()
    ensures var high := RAISED.(peak := 9.0);
      && Leads(GivenUp(AlarmActive, None, RAISED), Sampled(HIGHER), GivenUp(AlarmActive, None, high))
      && Leads(GivenUp(AlarmActive, None, high), Sampled(BACK), GivenUp(PendingClear, Some(30.0), high))
      && Leads(GivenUp(PendingClear, Some(30.0), high), Sampled(OVER), Ended(ENDED))
  {
    assert RaisePeak([RAISED], 1, 9.0) == [RAISED.(peak := 9.0)];
    assert ClearSource([RAISED.(peak := 9.0)], 1, 40.0) == [ENDED];
  }

  lemma SecondUploaded()
    ensures var s8 := Ended(ENDED).(flight := map[0 := CopyOf(ENDED)]);
      var s9 := s8.(cloud := map[0 := CopyOf(ENDED)], landed := {0});
      var s10 := s9.(view := s9.view.(events := [ENDED.(synced := true)]));
      && Leads(Ended(ENDED), Select({0}), s8) && Leads(s8, Deliver({0}), s9)
      && Leads(s9, Confirm({0}), s10) && Leads(s10, Leave, Twice())
  {
    var s8 := Ended(ENDED).(flight := map[0 := CopyOf(ENDED)]);
    assert Next(Ended(ENDED), Select({0})).flight == s8.flight;
    assert Next(s8, Deliver({0})).cloud == map[0 := CopyOf(ENDED)];
    assert MarkAll([ENDED], {0}) == [ENDED.(synced := true)];
    assert map[0 := CopyOf(ENDED)] - {0} == map[];
  }

  lemma GivenUpThenUploaded()
    ensures Good(Start(), TwoPasses(), Twice())
  {
    hide Good, Leads;
    var steps, t := TwoPasses(), Twice();
    var high := RAISED.(peak := 9.0);
    var s2 := Raised(AlarmActive, None, RAISED);
    var s8 := Ended(ENDED).(flight := map[0 := CopyOf(ENDED)]);
    var s9 := s8.(cloud := map[0 := CopyOf(ENDED)], landed := {0});
    var s10 := s9.(view := s9.view.(events := [ENDED.(synced := true)]));
    TwoSamples();
    FirstGivenUp();
    RisenAndEnded();
    SecondUploaded();
    NoSteps(t);
    hide Raised, GivenUp, Ended, Twice, Start, Pending;
    assert steps[11..] == [] && steps[0..] == steps;
    LeadsFrom(s10, steps, 10, t, t);
    LeadsFrom(s9, steps, 9, s10, t);
    LeadsFrom(s8, steps, 8, s9, t);
    LeadsFrom(Ended(ENDED), steps, 7, s8, t);
    LeadsFrom(GivenUp(PendingClear, Some(30.0), high), steps, 6, Ended(ENDED), t);
    LeadsFrom(GivenUp(AlarmActive, None, high), steps, 5, GivenUp(PendingClear, Some(30.0), high), t);
    LeadsFrom(GivenUp(AlarmActive, None, RAISED), steps, 4, GivenUp(AlarmActive, None, high), t);
    LeadsFrom(s2.(flight := map[0 := CopyOf(RAISED)]), steps, 3, GivenUp(AlarmActive, None, RAISED), t);
    LeadsFrom(s2, steps, 2, s2.(flight := map[0 := CopyOf(RAISED)]), t);
    LeadsFrom(Pending(), steps, 1, s2, t);
    LeadsFrom(Start(), steps, 0, Pending(), t);
  }

  /** A request given up on commits after the next pass: every step before it is
      harmless and leaves synced equal to the cloud, it alone breaks that, and both
      copies are final, so the cloud keeps the lower peak for ever. */
  lemma LateCommitOverwrites()
    ensures exists steps: seq<AlarmUpload.Step>, k: nat ::
      Runs(Start(), steps) && AllHarmless(Start(), steps) && Coherent(Run(Start(), steps))
      && Can(Run(Start(), steps), Late(k, {0})) && Frozen(Next(Run(Start(), steps), Late(k, {0})), 0)
      && !Coherent(Next(Run(Start(), steps), Late(k, {0})))
  {
    hide Runs, Run, AllHarmless;
    GivenUpThenUploaded();
    var t := Twice();
    assert Coherent(t) && Can(t, Late(0, {0})) && !SamePeaks(t, 0, {0});
    assert Inv(t);
    LateKeepsCoherentIff(t, 0, {0});
    assert Frozen(Next(t, Late(0, {0})), 0);
    assert Run(Start(), TwoPasses()) == t;
  }
}
