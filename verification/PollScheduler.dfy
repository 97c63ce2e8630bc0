/** The polling loop: a bounded pool of workers, devices started in the order they fell
    due, and longer waits for devices that keep failing. */
module PollScheduler {
  import opened Common

  type Device = nat

  datatype Options = Options(workers: int, poll: real, cap: real)

  // order: the configured, enabled devices in display order; inFlight: one entry per
  // running future; done: those of them whose poll has ended.
  datatype State = State(order: seq<Device>, nextAt: map<Device, real>, failures: map<Device, nat>,
                         inFlight: seq<Device>, done: set<Device>, now: real)

  function Workers(o: Options): (w: nat)
    ensures 1 <= w <= 32 && (1 <= o.workers <= 32 ==> w == o.workers)
  {
    if o.workers < 1 then 1 else if o.workers > 32 then 32 else o.workers
  }

  // ----- delays -----------------------------------------------------------

  function MaxReal(a: real, b: real): real { if a < b then b else a }

  function MinReal(a: real, b: real): real { if a < b then a else b }

  function Doubled(x: real, times: nat): real { if times == 0 then x else 2.0 * Doubled(x, times - 1) }

  // failures counts the failed poll itself.
  function FailureDelay(o: Options, failures: nat): real
    requires failures >= 1
  {
    MinReal(Doubled(MinReal(2.0, MaxReal(1.0, o.poll)), if failures - 1 < 8 then failures - 1 else 8), o.cap)
  }

  function SuccessDelay(o: Options): real { MaxReal(0.1, o.poll) }

  lemma {:induction false} DoubledGrows(x: real, a: nat, b: nat)
    requires x > 0.0 && a <= b
    ensures 0.0 < Doubled(x, a) <= Doubled(x, b)
    decreases b
  {
    if a < b {
      DoubledGrows(x, a, b - 1);
    } else if b > 0 {
      DoubledGrows(x, a - 1, b - 1);
    }
  }

  /** The delay after a failure never falls with the number of consecutive failures,
      never exceeds the configured maximum, and is always positive. */
  lemma DelayGrowsToCap(o: Options, f: nat, g: nat)
    requires o.cap > 0.0 && 1 <= f <= g
    ensures 0.0 < FailureDelay(o, f) <= FailureDelay(o, g) <= o.cap
    ensures f >= 9 ==> FailureDelay(o, f) == FailureDelay(o, g)
  {
    var base := MinReal(2.0, MaxReal(1.0, o.poll));
    DoubledGrows(base, if f - 1 < 8 then f - 1 else 8, if g - 1 < 8 then g - 1 else 8);
  }

  // ----- one round of the loop --------------------------------------------

  function Next(s: State, d: Device): real { if d in s.nextAt then s.nextAt[d] else 0.0 }

  function StillFlying(inFlight: seq<Device>, done: set<Device>): seq<Device> {
    if inFlight == [] then []
    else (if inFlight[0] in done then [] else [inFlight[0]]) + StillFlying(inFlight[1..], done)
  }

  function Reap(s: State): State { s.(inFlight := StillFlying(s.inFlight, s.done), done := {}) }

  // sorted by (next poll, display position).
  predicate Before(s: State, i: nat, j: nat)
    requires i < |s.order| && j < |s.order|
  {
    Next(s, s.order[i]) < Next(s, s.order[j]) || (Next(s, s.order[i]) == Next(s, s.order[j]) && i < j)
  }

  predicate Ready(s: State, j: nat) {
    j < |s.order| && s.order[j] !in s.inFlight && Next(s, s.order[j]) <= s.now
  }

  predicate Left(s: State, due: seq<nat>, j: nat) { Ready(s, j) && j !in due }

  // The first `room` ready devices of the reaped state, as positions.
  ghost predicate Chosen(s: State, due: seq<nat>, room: nat) {
    && |due| <= room
    && (forall a :: 0 <= a < |due| ==> Ready(s, due[a]))
    && (forall a, b :: 0 <= a < b < |due| ==> Before(s, due[a], due[b]))
    && (forall a, j: nat :: 0 <= a < |due| && Left(s, due, j) ==> Before(s, due[a], j))
    && (|due| < room ==> forall j: nat :: !Left(s, due, j))
  }

  function Devices(order: seq<Device>, due: seq<nat>): (ds: seq<Device>)
    requires forall a :: 0 <= a < |due| ==> due[a] < |order|
    ensures |ds| == |due|
  {
    seq(|due|, a requires 0 <= a < |due| => order[due[a]])
  }

  class Loop {
    const options: Options
    var order: seq<Device>
    var nextAt: map<Device, real>
    var failures: map<Device, nat>
    var inFlight: seq<Device>
    var done: set<Device>
    var now: real

    function Now(): State
      reads this
    {
      State(order, nextAt, failures, inFlight, done, now)
    }

    method ReapDone()
      modifies this
      ensures Now() == Reap(old(Now()))
    {
      var left: seq<Device> := [];
      ghost var all := StillFlying(inFlight, done);
      for k := 0 to |inFlight|
        invariant Now() == old(Now())
        invariant all == left + StillFlying(inFlight[k..], done)
      {
        assert inFlight[k..][0] == inFlight[k] && inFlight[k..][1..] == inFlight[k + 1..];
        if inFlight[k] !in done {
          left := left + [inFlight[k]];
        }
      }
      assert all == left;
      inFlight, done := left, {};
    }

    method First(due: seq<nat>) returns (found: bool, j: nat)
      ensures found <==> exists k: nat :: Left(Now(), due, k)
      ensures found ==> Left(Now(), due, j)
      ensures found ==> forall k: nat :: Left(Now(), due, k) && k != j ==> Before(Now(), j, k)
    {
      found, j := false, 0;
      for i := 0 to |order|
        invariant found <==> exists k: nat :: k < i && Left(Now(), due, k)
        invariant found ==> j < i && Left(Now(), due, j)
        invariant found ==> forall k: nat :: k < i && Left(Now(), due, k) && k != j ==> Before(Now(), j, k)
      {
        if Left(Now(), due, i) && (!found || Before(Now(), i, j)) {
          found, j := true, i;
        }
      }
    }

    method ChooseDue(room: nat) returns (due: seq<nat>)
      ensures Chosen(Now(), due, room)
    {
      due := [];
      while |due| < room
        invariant |due| <= room
        invariant forall a :: 0 <= a < |due| ==> Ready(Now(), due[a])
        invariant forall a, b :: 0 <= a < b < |due| ==> Before(Now(), due[a], due[b])
        invariant forall a, j: nat :: 0 <= a < |due| && Left(Now(), due, j) ==> Before(Now(), due[a], j)
        decreases room - |due|
      {
        var found, j := First(due);
        if !found {
          return;
        }
        ghost var before := due;
        due := due + [j];
        assert forall k: nat :: Left(Now(), due, k) ==> Left(Now(), before, k) && k != j;
      }
    }

    method Round() returns (due: seq<nat>)
      requires |inFlight| <= Workers(options)
      modifies this
      ensures var r := Reap(old(Now()));
        |r.inFlight| <= Workers(options) && Chosen(r, due, Workers(options) - |r.inFlight|)
        && Now() == r.(inFlight := r.inFlight + Devices(r.order, due))
    {
      ReapShorter(inFlight, done);
      ReapDone();
      due := ChooseDue(Workers(options) - |inFlight|);
      inFlight := inFlight + Devices(order, due);
    }

    method PollEnded(d: Device, ok: bool)
      requires d in inFlight && d !in done
      modifies this
      ensures Now() == Ended(old(Now()), options, d, ok)
    {
      if ok {
        failures := failures - {d};
        nextAt := nextAt[d := now + SuccessDelay(options)];
      } else {
        var count := (if d in failures then failures[d] else 0) + 1;
        failures := failures[d := count];
        nextAt := nextAt[d := now + FailureDelay(options, count)];
      }
      done := done + {d};
    }
  }

  function Count(s: State, d: Device): nat { if d in s.failures then s.failures[d] else 0 }

  // A worker finishing its poll: the next time is set before the future is done.
  function Ended(s: State, o: Options, d: Device, ok: bool): State {
    var delay := if ok then SuccessDelay(o) else FailureDelay(o, Count(s, d) + 1);
    s.(failures := if ok then s.failures - {d} else s.failures[d := Count(s, d) + 1],
       nextAt := s.nextAt[d := s.now + delay], done := s.done + {d})
  }

  lemma {:induction false} ReapShorter(inFlight: seq<Device>, done: set<Device>)
    ensures |StillFlying(inFlight, done)| <= |inFlight|
    ensures forall d :: d in StillFlying(inFlight, done) <==> d in inFlight && d !in done
    ensures NoDup(inFlight) ==> NoDup(StillFlying(inFlight, done))
    decreases |inFlight|
  {
    if inFlight != [] {
      ReapShorter(inFlight[1..], done);
      assert inFlight == [inFlight[0]] + inFlight[1..];
    }
  }

  predicate NoDup(ds: seq<Device>) { forall i, j :: 0 <= i < j < |ds| ==> ds[i] != ds[j] }

  // ----- runs for a fixed configuration -----------------------------------

  datatype Step = Start(due: seq<nat>) | End(d: Device, ok: bool) | Wait(until: real)

  ghost predicate Can(s: State, o: Options, step: Step) {
    match step
    case Start(due) =>
      var r := Reap(s);
      |r.inFlight| <= Workers(o) && Chosen(r, due, Workers(o) - |r.inFlight|)
    case End(d, _) => d in s.inFlight && d !in s.done
    case Wait(until) => until >= s.now
  }

  ghost function After(s: State, o: Options, step: Step): State
    requires Can(s, o, step)
  {
    match step
    case Start(due) => var r := Reap(s); r.(inFlight := r.inFlight + Devices(r.order, due))
    case End(d, ok) => Ended(s, o, d, ok)
    case Wait(until) => s.(now := until)
  }

  ghost predicate Runs(s: State, o: Options, steps: seq<Step>)
    decreases |steps|
  {
    steps == [] || (Can(s, o, steps[0]) && Runs(After(s, o, steps[0]), o, steps[1..]))
  }

  ghost function Run(s: State, o: Options, steps: seq<Step>): State
    requires Runs(s, o, steps)
    decreases |steps|
  {
    if steps == [] then s else Run(After(s, o, steps[0]), o, steps[1..])
  }

  /** At most `workers` polls are in flight, and no device twice. */
  predicate Inv(s: State, o: Options) {
    && NoDup(s.order) && NoDup(s.inFlight) && |s.inFlight| <= Workers(o)
    && (forall d :: d in s.inFlight ==> d in s.order) && (forall d :: d in s.done ==> d in s.inFlight)
  }

  lemma StartKeeps(s: State, o: Options, due: seq<nat>)
    requires Inv(s, o) && Can(s, o, Start(due))
    ensures Inv(After(s, o, Start(due)), o)
  {
    var r := Reap(s);
    ReapShorter(s.inFlight, s.done);
    var ds := Devices(r.order, due);
    forall a, b | 0 <= a < b < |ds| ensures ds[a] != ds[b] {
      assert Before(r, due[a], due[b]);
      assert due[a] != due[b];
    }
    forall a | 0 <= a < |ds| ensures ds[a] !in r.inFlight && ds[a] in r.order {
      assert Ready(r, due[a]);
    }
    JoinNoDup(r.inFlight, ds);
    forall d | d in r.inFlight + ds ensures d in s.order {
    }
  }

  lemma JoinNoDup(a: seq<Device>, b: seq<Device>)
    requires NoDup(a) && NoDup(b) && forall i :: 0 <= i < |b| ==> b[i] !in a
    ensures NoDup(a + b)
  {
  }

  lemma StepKeepsInv(s: State, o: Options, step: Step)
    requires Inv(s, o) && Can(s, o, step)
    ensures Inv(After(s, o, step), o)
  {
    if step.Start? {
      StartKeeps(s, o, step.due);
    }
  }

  lemma {:induction false} RunKeepsInv(s: State, o: Options, steps: seq<Step>)
    requires Inv(s, o) && Runs(s, o, steps)
    ensures Inv(Run(s, o, steps), o)
    decreases |steps|
  {
    hide Can, After, Inv;
    if steps != [] {
      StepKeepsInv(s, o, steps[0]);
      RunKeepsInv(After(s, o, steps[0]), o, steps[1..]);
    }
  }

  // ----- overtaking -------------------------------------------------------

  predicate Starts(s: State, step: Step, d: Device) {
    step.Start? && exists a :: 0 <= a < |step.due| && step.due[a] < |s.order| && s.order[step.due[a]] == d
  }

  // How often a run starts d.
  ghost function StartCount(s: State, o: Options, steps: seq<Step>, d: Device): nat
    requires Runs(s, o, steps)
    decreases |steps|
  {
    if steps == [] then 0
    else (if Starts(s, steps[0], d) then 1 else 0) + StartCount(After(s, o, steps[0]), o, steps[1..], d)
  }

  predicate WaitsAt(s: State, d: Device) { d in s.order && d !in s.inFlight && Next(s, d) <= s.now }

  // j cannot be chosen ahead of d any more.
  predicate BehindOf(s: State, j: Device, d: Device) {
    (j in s.inFlight && j !in s.done) || Next(s, j) > Next(s, d)
  }

  lemma PassedOver(s: State, o: Options, due: seq<nat>, j: Device, d: Device)
    requires Inv(s, o) && WaitsAt(s, d) && j != d && Can(s, o, Start(due)) && !Starts(s, Start(due), d)
    requires BehindOf(s, j, d)
    ensures !Starts(s, Start(due), j)
  {
    var r := Reap(s);
    ReapShorter(s.inFlight, s.done);
    var i :| 0 <= i < |s.order| && s.order[i] == d;
    forall a | 0 <= a < |due| ensures due[a] != i && Ready(r, due[a]) {
      assert Ready(r, due[a]);
    }
    assert Left(r, due, i);
    forall a | 0 <= a < |due| ensures s.order[due[a]] != j {
      assert Ready(r, due[a]) && Before(r, due[a], i);
    }
  }

  lemma StillBehind(s: State, o: Options, step: Step, j: Device, d: Device)
    requires Inv(s, o) && o.cap > 0.0 && WaitsAt(s, d) && j != d && Can(s, o, step) && !Starts(s, step, d)
    requires BehindOf(s, j, d) || Starts(s, step, j)
    ensures WaitsAt(After(s, o, step), d) && BehindOf(After(s, o, step), j, d)
    ensures Next(After(s, o, step), d) == Next(s, d)
  {
    match step {
      case Start(due) =>
        var r := Reap(s);
        ReapShorter(s.inFlight, s.done);
        forall a | 0 <= a < |due| ensures Devices(r.order, due)[a] != d {
          assert Ready(r, due[a]);
        }
        if Starts(s, step, j) {
          var a :| 0 <= a < |due| && due[a] < |s.order| && s.order[due[a]] == j;
          assert Devices(r.order, due)[a] == j;
        } else if j in s.inFlight && j !in s.done {
          assert j in r.inFlight;
        }
      case End(e, ok) =>
        DelayGrowsToCap(o, Count(s, e) + 1, Count(s, e) + 1);
      case Wait(until) =>
    }
  }

  lemma NotStarted(s: State, o: Options, steps: seq<Step>, d: Device)
    requires Runs(s, o, steps) && steps != [] && StartCount(s, o, steps, d) == 0
    ensures !Starts(s, steps[0], d) && StartCount(After(s, o, steps[0]), o, steps[1..], d) == 0
  {
  }

  lemma StillWaiting(s: State, o: Options, step: Step, d: Device)
    requires Inv(s, o) && o.cap > 0.0 && WaitsAt(s, d) && Can(s, o, step) && !Starts(s, step, d)
    ensures WaitsAt(After(s, o, step), d)
  {
    if step.Start? {
      var r := Reap(s);
      ReapShorter(s.inFlight, s.done);
      forall a | 0 <= a < |step.due| ensures Devices(r.order, step.due)[a] != d {
        assert Ready(r, step.due[a]);
      }
    }
  }

  lemma {:induction false} NeverAgain(s: State, o: Options, steps: seq<Step>, j: Device, d: Device)
    requires Inv(s, o) && o.cap > 0.0 && Runs(s, o, steps) && WaitsAt(s, d) && j != d && BehindOf(s, j, d)
    requires StartCount(s, o, steps, d) == 0
    ensures StartCount(s, o, steps, j) == 0
    decreases |steps|
  {
    hide Can, After, Inv, WaitsAt, BehindOf, Starts;
    if steps != [] {
      NotStarted(s, o, steps, d);
      StillBehind(s, o, steps[0], j, d);
      StepKeepsInv(s, o, steps[0]);
      if steps[0].Start? {
        PassedOver(s, o, steps[0].due, j, d);
      }
      OnlyRoundsStart(s, steps[0], j);
      NeverAgain(After(s, o, steps[0]), o, steps[1..], j, d);
    }
  }

  lemma OnlyRoundsStart(s: State, step: Step, d: Device)
    ensures !step.Start? ==> !Starts(s, step, d)
  {
  }

  /** Bounded overtaking: while a due device waits, every other device is started at
      most once, however long the wait. */
  lemma {:induction false} OvertakenOnce(s: State, o: Options, steps: seq<Step>, j: Device, d: Device)
    requires Inv(s, o) && o.cap > 0.0 && Runs(s, o, steps) && WaitsAt(s, d) && j != d
    requires StartCount(s, o, steps, d) == 0
    ensures StartCount(s, o, steps, j) <= 1
    decreases |steps|
  {
    hide Can, After, Inv, WaitsAt, BehindOf, Starts;
    if steps != [] {
      NotStarted(s, o, steps, d);
      StepKeepsInv(s, o, steps[0]);
      if Starts(s, steps[0], j) {
        StillBehind(s, o, steps[0], j, d);
        NeverAgain(After(s, o, steps[0]), o, steps[1..], j, d);
      } else {
        StillWaiting(s, o, steps[0], d);
        OvertakenOnce(After(s, o, steps[0]), o, steps[1..], j, d);
      }
    }
  }

  /** And it waits only for want of a worker: a round that leaves a due device waiting
      leaves no worker free. */
  lemma WaitsOnlyWhenFull(s: State, o: Options, due: seq<nat>, d: Device)
    requires Inv(s, o) && Can(s, o, Start(due)) && WaitsAt(After(s, o, Start(due)), d)
    ensures |After(s, o, Start(due)).inFlight| == Workers(o)
  {
    var r := Reap(s);
    ReapShorter(s.inFlight, s.done);
    var i :| 0 <= i < |s.order| && s.order[i] == d;
    var t := After(s, o, Start(due));
    forall a | 0 <= a < |due| ensures due[a] != i {
      assert t.inFlight[|r.inFlight| + a] == r.order[due[a]];
    }
    assert Left(r, due, i);
  }
}
