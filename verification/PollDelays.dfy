/** How long a device waits between two polls, counted from how its polls ended. */
module PollDelays {
  import opened Common
  import opened PollScheduler

  /** The first failure waits the poll interval brought into one to two seconds, each
      further one twice as long, up to eight doublings and never more than the maximum. */
  lemma DelayDoubles(o: Options, k: nat)
    requires o.cap > 0.0 && k >= 1
    ensures var first := if o.poll < 1.0 then 1.0 else if o.poll < 2.0 then o.poll else 2.0;
      FailureDelay(o, 1) == if first < o.cap then first else o.cap
    ensures k < 9 ==>
      var doubled := 2.0 * FailureDelay(o, k);
      FailureDelay(o, k + 1) == if doubled < o.cap then doubled else o.cap
    ensures k >= 9 ==> FailureDelay(o, k + 1) == FailureDelay(o, k)
  {
    var base := MinReal(2.0, MaxReal(1.0, o.poll));
    assert Doubled(base, 0) == base;
    if k < 9 {
      assert Doubled(base, k) == 2.0 * Doubled(base, k - 1);
    }
  }

  // The failed ends of d since its last successful one, its first or this start.
  function Streak(steps: seq<Step>, d: Device): nat
    decreases |steps|
  {
    if steps == [] then 0
    else
      var last, before := steps[|steps| - 1], steps[..|steps| - 1];
      if last.End? && last.d == d then if last.ok then 0 else Streak(before, d) + 1
      else Streak(before, d)
  }

  lemma {:induction false} RunJoin(s: State, o: Options, a: seq<Step>, b: seq<Step>)
    ensures Runs(s, o, a + b) <==> Runs(s, o, a) && Runs(Run(s, o, a), o, b)
    ensures Runs(s, o, a + b) ==> Run(s, o, a + b) == Run(Run(s, o, a), o, b)
    decreases |a|
  {
    hide Can, After;
    if a == [] {
      assert a + b == b;
    } else {
      assert (a + b)[0] == a[0] && (a + b)[1..] == a[1..] + b;
      if Can(s, o, a[0]) { RunJoin(After(s, o, a[0]), o, a[1..], b); }
    }
  }

  lemma OneStep(s: State, o: Options, step: Step)
    ensures Runs(s, o, [step]) <==> Can(s, o, step)
    ensures Can(s, o, step) ==> Run(s, o, [step]) == After(s, o, step)
  {
    hide Can, After;
    assert [step][1..] == [];
    if Can(s, o, step) {
      assert Run(After(s, o, step), o, []) == After(s, o, step);
    }
  }

  lemma StepCounts(s: State, o: Options, step: Step, d: Device)
    requires Can(s, o, step)
    ensures Count(After(s, o, step), d)
            == if step.End? && step.d == d then if step.ok then 0 else Count(s, d) + 1 else Count(s, d)
  {
  }

  lemma {:induction false} CountIsStreak(s: State, o: Options, steps: seq<Step>, d: Device)
    requires Runs(s, o, steps) && d !in s.failures
    ensures Count(Run(s, o, steps), d) == Streak(steps, d)
    decreases |steps|
  {
    hide Can, After;
    if steps != [] {
      var last, before := steps[|steps| - 1], steps[..|steps| - 1];
      assert steps == before + [last];
      RunJoin(s, o, before, [last]);
      OneStep(Run(s, o, before), o, last);
      CountIsStreak(s, o, before, d);
      StepCounts(Run(s, o, before), o, last, d);
    }
  }

  // What a device waits after these steps, the last of which ended a poll of it.
  function Wait(o: Options, steps: seq<Step>, d: Device, ok: bool): real {
    if !ok then FailureDelay(o, Streak(steps, d) + 1) else if o.poll < 0.1 then 0.1 else o.poll
  }

  /** Over every run: when a poll of a device ends well the next one is a poll interval
      away, a tenth of a second at least; when it fails, the delay of as many failures as
      there were since its last success. */
  lemma NextPollSet(s: State, o: Options, steps: seq<Step>, d: Device, ok: bool)
    requires Runs(s, o, steps + [End(d, ok)]) && d !in s.failures
    ensures var t := Run(s, o, steps + [End(d, ok)]);
      d in t.nextAt && t.nextAt[d] == t.now + Wait(o, steps, d, ok)
  {
    RunJoin(s, o, steps, [End(d, ok)]);
    OneStep(Run(s, o, steps), o, End(d, ok));
    CountIsStreak(s, o, steps, d);
  }

  predicate NoEnd(steps: seq<Step>, d: Device) {
    forall i :: 0 <= i < |steps| ==> !(steps[i].End? && steps[i].d == d)
  }

  lemma {:induction false} StreakStays(steps: seq<Step>, more: seq<Step>, d: Device)
    requires NoEnd(more, d)
    ensures Streak(steps + more, d) == Streak(steps, d)
    decreases |more|
  {
    if more == [] {
      assert steps + more == steps;
    } else {
      var before := more[..|more| - 1];
      assert (steps + more)[..|steps + more| - 1] == steps + before;
      StreakStays(steps, before, d);
    }
  }

  /** So the first failure after any success waits the base delay, however many there had
      been before. */
  lemma SuccessResets(s: State, o: Options, steps: seq<Step>, more: seq<Step>, d: Device)
    requires o.cap > 0.0 && d !in s.failures && NoEnd(more, d)
    requires Runs(s, o, steps + [End(d, true)] + more + [End(d, false)])
    ensures var t := Run(s, o, steps + [End(d, true)] + more + [End(d, false)]);
      d in t.nextAt && t.nextAt[d] == t.now + FailureDelay(o, 1)
  {
    StreakStays(steps + [End(d, true)], more, d);
    assert (steps + [End(d, true)])[..|steps|] == steps;
    NextPollSet(s, o, steps + [End(d, true)] + more, d, false);
  }

  lemma {:induction false} NextKept(s: State, o: Options, steps: seq<Step>, d: Device)
    requires Runs(s, o, steps) && NoEnd(steps, d) && d in s.nextAt
    ensures d in Run(s, o, steps).nextAt && Run(s, o, steps).nextAt[d] == s.nextAt[d]
    decreases |steps|
  {
    if steps != [] {
      assert NoEnd(steps[1..], d) && !(steps[0].End? && steps[0].d == d);
      NextKept(After(s, o, steps[0]), o, steps[1..], d);
    }
  }

  /** And no poll of a device starts before that wait is over. */
  lemma NeverTooEarly(s: State, o: Options, steps: seq<Step>, d: Device, ok: bool, more: seq<Step>, due: seq<nat>)
    requires d !in s.failures && NoEnd(more, d)
    requires Runs(s, o, steps + [End(d, ok)]) && Runs(Run(s, o, steps + [End(d, ok)]), o, more)
    requires var u := Run(Run(s, o, steps + [End(d, ok)]), o, more);
      Can(u, o, Start(due)) && Starts(u, Start(due), d)
    ensures var t := Run(s, o, steps + [End(d, ok)]);
      t.now + Wait(o, steps, d, ok) <= Run(t, o, more).now
  {
    hide Runs, Run;
    var t := Run(s, o, steps + [End(d, ok)]);
    NextPollSet(s, o, steps, d, ok);
    NextKept(t, o, more, d);
    var u := Run(t, o, more);
    var a :| 0 <= a < |due| && due[a] < |u.order| && u.order[due[a]] == d;
    assert Ready(Reap(u), due[a]);
  }
}
