// When a child can be reaped, and so replaced, and when it never will be; and that every transaction of the
// supervisor comes to an end.
module Replacement {
  import opened Basics
  import opened Supervisor

  // ---- what can follow a state ----

  /** The steps can be taken one after the other. */
  predicate CanRun(s: State, path: seq<Step>)
    decreases |path|
  {
    path == [] || (Enabled(s, path[0]) && CanRun(Do(s, path[0]), path[1..]))
  }

  function Then(s: State, path: seq<Step>): State
    requires CanRun(s, path)
    decreases |path|
  {
    if path == [] then s else Then(Do(s, path[0]), path[1..])
  }

  lemma First(s: State, step: Step, path: seq<Step>)
    requires Enabled(s, step) && CanRun(Do(s, step), path)
    ensures CanRun(s, [step] + path) && Then(s, [step] + path) == Then(Do(s, step), path)
  {
    var all := [step] + path;
    assert all[0] == step && all[1..] == path;
  }

  // ---- who watches a child ----

  /** g's monitor thread is at work, or the start that spawned g has yet to begin it. */
  predicate Watched(s: State, g: Gen) {
    (g in s.monitors && !s.monitors[g].Died?) || (StartPhase(s.life) && s.life.g == g)
  }

  // ---- an unwatched child stays ----

  /** What no lifecycle step but the start of the monitor does to the monitors and the start under way. */
  lemma LifecycleFrame(s: State, step: Step)
    requires Enabled(s, step) && LifecycleStep(step) && !step.Watch?
    ensures Do(s, step).monitors == s.monitors && Do(s, step).reaped == s.reaped
    ensures Do(s, step).next >= s.next && Do(s, step).alive <= s.alive + {s.next}
    ensures StartPhase(Do(s, step).life) ==>
              (step.SpawnDone? && Do(s, step).life.g == s.next) || (StartPhase(s.life) && Do(s, step).life.g == s.life.g)
    ensures Do(s, step).child == s.child || (s.life.Installing? && Do(s, step).child == Some(s.life.g))
  {
    hide Rest, LatchFits, ExplicitStartStep, AutoStartStep, StopStep, SpawnStep, InstallStep, SaveStep, GuardStep, SealStep,
      PublishStep, LookStep, SignalStep, ReturnStep, RaiseStep;
  }

  predicate ActsOn(step: Step, g: Gen) {
    match step
    case Exit(h) => h == g
    case Wake(h) => h == g
    case CrashReceipt(h, _) => h == g
    case LatchOutbox(h) => h == g
    case Forget(h) => h == g
    case ClearRecord(h) => h == g
    case Announce(h) => h == g
    case Decide(h) => h == g
    case Relaunch(h) => h == g
    case _ => false
  }

  /** A step of g's monitor, or g's exit, leaves the other monitors and the lifecycle alone. */
  lemma MonitorFrame(s: State, step: Step, g: Gen)
    requires Enabled(s, step) && !LifecycleStep(step)
    ensures Do(s, step).life == s.life && Do(s, step).next == s.next
    ensures !ActsOn(step, g) ==> (g in Do(s, step).monitors <==> g in s.monitors)
    ensures !ActsOn(step, g) && g in s.monitors ==> Do(s, step).monitors[g] == s.monitors[g]
    ensures ActsOn(step, g) && !step.Exit? ==> g in s.monitors && !s.monitors[g].Died?
    ensures step.Exit? ==> Do(s, step).monitors == s.monitors
    ensures Do(s, step).alive <= s.alive
  {
    hide Rest, LatchFits, ExitStep, WakeStep, CrashStep, LatchStep, ForgetStep, ClearStep, AnnounceStep, DecideStep, RelaunchStep;
  }

  /** Only its own monitor makes a child stop being the current one. */
  lemma ChildFrame(s: State, step: Step, g: Gen)
    requires Enabled(s, step) && !LifecycleStep(step)
    ensures s.child == Some(g) && step != Forget(g) ==> Do(s, step).child == Some(g)
  {
    hide Rest, LatchFits, ExitStep, WakeStep, CrashStep, LatchStep, ForgetStep, ClearStep, AnnounceStep, DecideStep, RelaunchStep;
  }

  lemma UnwatchedStays(s: State, step: Step, g: Gen)
    requires Inv(s) && Enabled(s, step) && g < s.next && !Watched(s, g)
    ensures g < Do(s, step).next && !Watched(Do(s, step), g)
    ensures s.child == Some(g) ==> Do(s, step).child == Some(g)
    ensures g !in s.alive ==> g !in Do(s, step).alive
  {
    hide Rest, LatchFits, Inv, Do, Enabled;
    if step.Watch? {
      WatchFrame(s, step);
    } else if LifecycleStep(step) {
      LifecycleFrame(s, step);
      InstallingAlone(s);
    } else {
      MonitorFrame(s, step, g);
      ForgetsOwn(s, step, g);
      ChildFrame(s, step, g);
    }
  }

  lemma WatchFrame(s: State, step: Step)
    requires Enabled(s, step) && step.Watch?
    ensures StartPhase(s.life) && Do(s, step).life.Idle? && Do(s, step).next == s.next && Do(s, step).child == s.child
    ensures forall g :: g != s.life.g ==> (g in Do(s, step).monitors <==> g in s.monitors)
    ensures forall g <- s.monitors :: g != s.life.g ==> Do(s, step).monitors[g] == s.monitors[g]
    ensures Do(s, step).reaped == s.reaped && Do(s, step).alive == s.alive
  {
  }

  lemma ForgetsOwn(s: State, step: Step, g: Gen)
    requires Enabled(s, step)
    ensures step == Forget(g) ==> Watched(s, g)
  {
  }

  lemma InstallingAlone(s: State)
    requires Inv(s)
    ensures s.life.Installing? || s.life.Spawning? || s.life.Returning? ==> s.child.None?
  {
    hide Rest, LatchFits, People, Ordered, Latched;
  }

  lemma ReapedIsWatched(s: State, g: Gen)
    requires Inv(s) && g in s.reaped
    ensures Watched(s, g)
  {
    Fits(s, g);
  }

  /** An engine nobody watches is never reaped, whatever happens; and if it is the current child it stays so:
      no stop ever returns, having found it gone, and no start ever spawns another. */
  lemma {:induction false} NeverReaped(s: State, path: seq<Step>, g: Gen)
    requires Inv(s) && CanRun(s, path) && g < s.next && !Watched(s, g)
    ensures Inv(Then(s, path)) && !Watched(Then(s, path), g) && g !in Then(s, path).reaped
    ensures g !in s.alive ==> g !in Then(s, path).alive
    ensures s.child == Some(g) ==>
              Then(s, path).child == Some(g) && !Then(s, path).life.Returning? && !Then(s, path).life.Spawning?
    decreases |path|
  {
    hide Rest, LatchFits, Inv, Do, Enabled, Watched;
    if path == [] {
      if g in s.reaped { ReapedIsWatched(s, g); }
      InstallingAlone(s);
    } else {
      KeepStep(s, path[0]);
      UnwatchedStays(s, path[0], g);
      NeverReaped(Do(s, path[0]), path[1..], g);
    }
  }

  // ---- a watched child can be reaped ----

  /** A monitor past its announcement has made it. */
  ghost predicate Signed(s: State) {
    forall g <- s.monitors :: Announced(s.monitors[g]) ==> g in s.reaped
  }

  lemma SignedOne(s: State, step: Step, g: Gen)
    requires Enabled(s, step) && !LifecycleStep(step) && ActsOn(step, g) && !step.Exit? && Signed(s)
    ensures s.reaped <= Do(s, step).reaped
    ensures g in Do(s, step).monitors && (Announced(Do(s, step).monitors[g]) ==> g in Do(s, step).reaped)
  {
    hide Rest, LatchFits, ExitStep, WakeStep, CrashStep, LatchStep, ForgetStep, ClearStep, AnnounceStep, DecideStep, RelaunchStep;
  }

  lemma SignedStays(s: State, step: Step)
    requires Enabled(s, step) && Signed(s) && (step.Watch? ==> Inv(s))
    ensures Signed(Do(s, step))
  {
    hide Rest, LatchFits, Inv, Do, Enabled;
    var t := Do(s, step);
    if step.Watch? {
      WatchFrame(s, step);
      NewMonitorWaits(s, step);
    } else if LifecycleStep(step) {
      LifecycleFrame(s, step);
    } else {
      forall g <- t.monitors ensures Announced(t.monitors[g]) ==> g in t.reaped {
        MonitorFrame(s, step, g);
        if ActsOn(step, g) && !step.Exit? { SignedOne(s, step, g); }
        ReapedGrows(s, step);
      }
    }
  }

  lemma ReapedGrows(s: State, step: Step)
    requires Enabled(s, step) && !LifecycleStep(step)
    ensures s.reaped <= Do(s, step).reaped
  {
    hide Rest, LatchFits, ExitStep, WakeStep, CrashStep, LatchStep, ForgetStep, ClearStep, AnnounceStep, DecideStep, RelaunchStep;
  }

  lemma NewMonitorWaits(s: State, step: Step)
    requires Enabled(s, step) && step.Watch? && Inv(s)
    ensures s.life.Watching? && (s.life.g in Do(s, step).monitors ==> !Announced(Do(s, step).monitors[s.life.g]))
  {
    hide Rest, LatchFits, People, Ordered, Latched;
  }

  /** How far g is from being reaped. */
  function Distance(s: State, g: Gen): nat {
    if StartPhase(s.life) && s.life.g == g then
      (if s.life.Installing? then 11 else if s.life.Saving? then 10 else 9)
    else if g !in s.monitors then 0
    else match s.monitors[g]
      case Waiting => if g in s.alive then 8 else 7
      case Observed(_, _) => if s.guardHeld then 6 else 5
      case ReceiptFailed(_) => 4
      case Accounted(_) => 3
      case Dropped(_, _) => 2
      case Announcing(_, _) => 1
      case _ => 0
  }

  /** A step towards it, every outcome taken for the best; a stop that holds the guard lets it go. */
  function Towards(s: State, g: Gen): Step
    requires Watched(s, g)
  {
    if StartPhase(s.life) && s.life.g == g then
      (if s.life.Installing? then Install else if s.life.Saving? then Save(true) else Watch(true))
    else match s.monitors[g]
      case Waiting => if g in s.alive then Exit(g) else Wake(g)
      case Observed(_, _) =>
        if !s.guardHeld then CrashReceipt(g, Stored)
        else if s.life.Sealing? then Seal(Unavailable, false, false) else Publish
      case ReceiptFailed(_) => LatchOutbox(g)
      case Accounted(_) => Forget(g)
      case Dropped(_, _) => ClearRecord(g)
      case _ => Announce(g)
  }

  /** What the invariant says of a watched engine. */
  lemma WatchedFacts(s: State, g: Gen)
    requires Inv(s) && Watched(s, g)
    ensures StartPhase(s.life) && s.life.g == g ==> g !in s.monitors
    ensures s.guardHeld <==> s.life.Sealing? || s.life.Publishing?
    ensures g in s.monitors ==> MonitorFits(s, g, s.monitors[g])
  {
    hide Rest, LatchFits, Ordered, Latched, MonitorFits;
    if g in s.monitors { Fits(s, g); }
  }

  lemma StartsNearer(s: State, g: Gen)
    requires Inv(s) && StartPhase(s.life) && s.life.g == g
    ensures Enabled(s, Towards(s, g)) && Watched(Do(s, Towards(s, g)), g)
    ensures Distance(Do(s, Towards(s, g)), g) < Distance(s, g)
  {
    hide Rest, LatchFits, Inv;
    WatchedFacts(s, g);
  }

  lemma GuardNearer(s: State, g: Gen)
    requires Inv(s) && g in s.monitors && s.monitors[g].Observed? && s.guardHeld && !(StartPhase(s.life) && s.life.g == g)
    ensures Enabled(s, Towards(s, g)) && Watched(Do(s, Towards(s, g)), g)
    ensures Distance(Do(s, Towards(s, g)), g) < Distance(s, g)
  {
    hide Rest, LatchFits, Inv, HasStopReceipt, MonitorFits;
    WatchedFacts(s, g);
  }

  lemma MonitorNearer(s: State, g: Gen)
    requires Inv(s) && g in s.monitors && !s.monitors[g].Died? && !Announced(s.monitors[g])
    requires !(StartPhase(s.life) && s.life.g == g) && !(s.monitors[g].Observed? && s.guardHeld)
    ensures Enabled(s, Towards(s, g)) && Watched(Do(s, Towards(s, g)), g)
    ensures Distance(Do(s, Towards(s, g)), g) < Distance(s, g)
  {
    hide Rest, LatchFits, Inv, MonitorFits, ExitStep, WakeStep, CrashStep, LatchStep, ForgetStep, ClearStep, AnnounceStep, DecideStep, RelaunchStep;
    WatchedFacts(s, g);
  }

  lemma Nearer(s: State, g: Gen)
    requires Inv(s) && Signed(s) && Watched(s, g) && g !in s.reaped
    ensures Enabled(s, Towards(s, g)) && Watched(Do(s, Towards(s, g)), g)
    ensures Distance(Do(s, Towards(s, g)), g) < Distance(s, g)
  {
    hide Rest, LatchFits, Inv, Do, Enabled, Towards, Distance;
    if StartPhase(s.life) && s.life.g == g {
      StartsNearer(s, g);
    } else if s.monitors[g].Observed? && s.guardHeld {
      GuardNearer(s, g);
    } else {
      MonitorNearer(s, g);
    }
  }

  lemma {:induction false} CanBeReaped(s: State, g: Gen) returns (path: seq<Step>)
    requires Inv(s) && Signed(s) && Watched(s, g)
    ensures CanRun(s, path) && g in Then(s, path).reaped
    decreases Distance(s, g)
  {
    hide Rest, LatchFits, Inv, Signed, Do, Enabled, Watched, Towards, Distance;
    if g in s.reaped {
      path := [];
    } else {
      Nearer(s, g);
      var step := Towards(s, g);
      KeepStep(s, step);
      SignedStays(s, step);
      var rest := CanBeReaped(Do(s, step), g);
      First(s, step, rest);
      path := [step] + rest;
    }
  }

  lemma {:induction false} RunSigned(states: seq<State>, steps: seq<Step>, i: nat)
    requires Run(states, steps) && i < |states|
    ensures Signed(states[i])
  {
    hide Rest, LatchFits, Inv, Do, Enabled;
    if i > 0 {
      RunSigned(states, steps, i - 1);
      RunInv(states, steps, i - 1);
      SignedStays(states[i - 1], steps[i - 1]);
    }
  }

  /** In any reachable state an engine that was ever begun can come to be reaped exactly when it is watched:
      its monitor thread has been begun and has not died of an uncaught error, or the start that spawned it is
      still about to begin it. */
  lemma ReapableExactlyWhenWatched(states: seq<State>, steps: seq<Step>, i: nat, g: Gen)
    requires Run(states, steps) && i < |states| && g < states[i].next
    ensures (exists path :: CanRun(states[i], path) && g in Then(states[i], path).reaped) <==> Watched(states[i], g)
  {
    hide Rest, LatchFits, Inv, Run, Signed, Watched, CanRun, Then;
    RunInv(states, steps, i);
    RunSigned(states, steps, i);
    if Watched(states[i], g) {
      var path := CanBeReaped(states[i], g);
    } else {
      forall path | CanRun(states[i], path) ensures g !in Then(states[i], path).reaped {
        NeverReaped(states[i], path, g);
      }
    }
  }

  /** The steps between two states of a run are a path from the one to the other. */
  lemma {:induction false} RunPath(states: seq<State>, steps: seq<Step>, i: nat, j: nat)
    requires Run(states, steps) && i <= j < |states|
    ensures CanRun(states[i], steps[i..j]) && Then(states[i], steps[i..j]) == states[j]
    decreases j - i
  {
    hide Rest, LatchFits, Do, Enabled, Init;
    if i < j {
      RunPath(states, steps, i + 1, j);
      assert steps[i..j] == [steps[i]] + steps[i + 1..j];
      First(states[i], steps[i], steps[i + 1..j]);
    }
  }

  /** A current child that is not watched, after an uncaught error ended its monitor or the start that installed
      it failed, is current for good: no later stop returns having found it gone, no later start spawns another. */
  lemma NeverReplaced(states: seq<State>, steps: seq<Step>, i: nat, j: nat, g: Gen)
    requires Run(states, steps) && i <= j < |states| && states[i].child == Some(g) && !Watched(states[i], g)
    ensures states[j].child == Some(g) && !Watched(states[j], g) && g !in states[j].reaped
    ensures g !in states[i].alive ==> g !in states[j].alive
    ensures !states[j].life.Returning? && !states[j].life.Spawning?
  {
    hide Rest, LatchFits, Inv, Init, Do, Enabled, Watched, CanRun, Then;
    RunInv(states, steps, i);
    CurrentBegun(states[i]);
    RunPath(states, steps, i, j);
    NeverReaped(states[i], steps[i..j], g);
  }

  /** Of the two causes: an uncaught error has ended the monitor of a dead child, */
  lemma NeverReplacedAfterUncaught(states: seq<State>, steps: seq<Step>, i: nat, j: nat, g: Gen)
    requires Run(states, steps) && i <= j < |states|
    requires g in states[i].monitors && states[i].monitors[g].Died?
    ensures states[i].child == Some(g) && states[j].child == Some(g)
    ensures g !in states[j].alive && g !in states[j].reaped && !states[j].life.Returning? && !states[j].life.Spawning?
  {
    hide Rest, LatchFits, Inv, Run, CanRun, Then;
    RunInv(states, steps, i);
    DiedIsCurrent(states[i], g);
    NeverReplaced(states, steps, i, j, g);
  }

  /** or the start raised at writing the record or beginning the monitor, after installing the child. */
  lemma NeverReplacedAfterFailedStart(states: seq<State>, steps: seq<Step>, i: nat, j: nat)
    requires Run(states, steps) && i < j < |states| && (steps[i] == Save(false) || steps[i] == Watch(false))
    ensures states[i].life.Saving? || states[i].life.Watching?
    ensures states[j].child == Some(states[i].life.g) && states[i].life.g !in states[j].reaped
    ensures !states[j].life.Returning? && !states[j].life.Spawning?
  {
    hide Rest, LatchFits, Inv, CanRun, Then;
    RunInv(states, steps, i);
    StartFails(states[i], steps[i]);
    NeverReplaced(states, steps, i + 1, j, states[i].life.g);
  }

  lemma StartFails(s: State, step: Step)
    requires Inv(s) && Enabled(s, step) && (step == Save(false) || step == Watch(false))
    ensures s.life.Saving? || s.life.Watching?
    ensures Do(s, step).child == Some(s.life.g) && !Watched(Do(s, step), s.life.g)
  {
    hide Rest, LatchFits, People, Ordered, Latched;
  }

  lemma DiedIsCurrent(s: State, g: Gen)
    requires Inv(s) && g in s.monitors && s.monitors[g].Died?
    ensures s.child == Some(g) && g !in s.alive && !Watched(s, g)
  {
    hide Rest, LatchFits, Ordered, Latched;
    Fits(s, g);
  }

  lemma CurrentBegun(s: State)
    requires Inv(s) && s.child.Some?
    ensures s.child.value < s.next
  {
    ChildBelow(s);
  }

  // ---- two runs that end so ----

  function Boot(): State {
    State(None, None, false, false, false, false, None, {}, 0, false, {}, {}, Idle, map[], [], true, [])
  }

  /** A client start up to the point where the child is installed; the child of the first start is 0. */
  function Installed(spec: Spec): State {
    State(Some(0), Some(spec), false, false, false, false, None, {0}, 1, false, {}, {}, Saving(0), map[], [], true,
          [ExplicitStart, Spawned(0)])
  }

  lemma Installs(spec: Spec, path: seq<Step>)
    requires CanRun(Installed(spec), path)
    ensures Init(Boot()) && CanRun(Boot(), [ClientStart(spec), SpawnDone(true), Install] + path)
    ensures Then(Boot(), [ClientStart(spec), SpawnDone(true), Install] + path) == Then(Installed(spec), path)
  {
    var s1 := Do(Boot(), ClientStart(spec));
    var s2 := Do(s1, SpawnDone(true));
    assert Do(s2, Install) == Installed(spec);
    First(s2, Install, path);
    First(s1, SpawnDone(true), [Install] + path);
    First(Boot(), ClientStart(spec), [SpawnDone(true)] + ([Install] + path));
    assert [ClientStart(spec)] + ([SpawnDone(true)] + ([Install] + path)) == [ClientStart(spec), SpawnDone(true), Install] + path;
  }

  /** The state record cannot be written: the start raises after installing the child, and begins no monitor. */
  lemma UnsavedIsUnwatched(spec: Spec)
    ensures var path := [ClientStart(spec), SpawnDone(true), Install] + [Save(false), Exit(0)];
      && Init(Boot()) && CanRun(Boot(), path)
      && var s := Then(Boot(), path);
         s.child == Some(0) && 0 !in s.alive && 0 !in s.monitors && s.life.Idle? && !Watched(s, 0)
  {
    var s := Installed(spec);
    var t := Do(s, Save(false));
    First(t, Exit(0), []);
    First(s, Save(false), [Exit(0)]);
    assert [Save(false)] + [Exit(0)] == [Save(false), Exit(0)];
    Installs(spec, [Save(false), Exit(0)]);
  }

  /** The outbox directory cannot be created for the crash receipt: the monitor thread ends. */
  lemma UncaughtIsUnwatched(spec: Spec)
    ensures var path := [ClientStart(spec), SpawnDone(true), Install] +
                        [Save(true), Watch(true), Exit(0), Wake(0), CrashReceipt(0, Uncaught)];
      && Init(Boot()) && CanRun(Boot(), path)
      && var s := Then(Boot(), path);
         s.child == Some(0) && 0 !in s.alive && 0 in s.monitors && s.monitors[0].Died? && s.life.Idle? && !Watched(s, 0)
  {
    var s := Installed(spec);
    var t := Do(Do(s, Save(true)), Watch(true));
    CrashesUncaught(t);
    var tail := [Exit(0), Wake(0), CrashReceipt(0, Uncaught)];
    First(Do(s, Save(true)), Watch(true), tail);
    First(s, Save(true), [Watch(true)] + tail);
    assert [Save(true)] + ([Watch(true)] + tail) == [Save(true), Watch(true), Exit(0), Wake(0), CrashReceipt(0, Uncaught)];
    Installs(spec, [Save(true)] + ([Watch(true)] + tail));
  }

  lemma CrashesUncaught(s: State)
    requires s.child == Some(0) && s.alive == {0} && s.monitors == map[0 := Waiting] && s.durable == {} && !s.guardHeld
    ensures CanRun(s, [Exit(0), Wake(0), CrashReceipt(0, Uncaught)])
    ensures var t := Then(s, [Exit(0), Wake(0), CrashReceipt(0, Uncaught)]);
            t.child == Some(0) && 0 !in t.alive && t.monitors == map[0 := Died] && t.life == s.life
  {
    var a := Do(s, Exit(0));
    var b := Do(a, Wake(0));
    First(b, CrashReceipt(0, Uncaught), []);
    First(a, Wake(0), [CrashReceipt(0, Uncaught)]);
    First(s, Exit(0), [Wake(0)] + [CrashReceipt(0, Uncaught)]);
    assert [Exit(0)] + ([Wake(0)] + [CrashReceipt(0, Uncaught)]) == [Exit(0), Wake(0), CrashReceipt(0, Uncaught)];
  }

  // ---- transactions end ----

  /** How many more steps the thread holding _lifecycle can take before it lets go. */
  function Left(life: Life): nat {
    match life
    case Idle => 0
    case Failing(_) => 1
    case Watching(_) => 1
    case Saving(_) => 2
    case Installing(_, _) => 3
    case Spawning(_) => 4
    case Returning(_, _) => 5
    case Killing(_, _) => 6
    case Signalling(_, _, kill) => if kill then 7 else 9
    case Grace(_, _) => 8
    case Checking(_, _) => 10
    case Publishing(_, _) => 11
    case Sealing(_, _, _) => 12
    case Preparing(_, _, _) => 13
    case ShuttingDown(_) => 14
  }

  /** Every step of a transaction, whatever its outcome, brings it nearer to its end; no other thread delays it. */
  lemma TransactionShrinks(s: State, step: Step)
    requires Enabled(s, step) && !s.life.Idle?
    ensures LifecycleStep(step) ==> Left(Do(s, step).life) < Left(s.life)
    ensures !LifecycleStep(step) ==> Do(s, step).life == s.life
  {
    if LifecycleStep(step) { ShrinksOwn(s, step); } else { hide Do; MonitorFrame(s, step, 0); }
  }

  lemma ShrinksOwn(s: State, step: Step)
    requires Enabled(s, step) && LifecycleStep(step) && !s.life.Idle?
    ensures Left(Do(s, step).life) < Left(s.life)
  {
    hide Rest, LatchFits, Do, Enabled, Left;
    if step.SpawnDone? || step.Install? || step.Save? || step.Watch? {
      StartShrinks(s, step);
    } else if step.Look? || step.Signal? || step.Return? || step.Raise? {
      WaitShrinks(s, step);
    } else {
      SealShrinks(s, step);
    }
  }

  lemma StartShrinks(s: State, step: Step)
    requires Enabled(s, step) && (step.SpawnDone? || step.Install? || step.Save? || step.Watch?)
    ensures Left(Do(s, step).life) < Left(s.life)
  {
    hide Rest, LatchFits, SpawnStep, InstallStep, SaveStep;
  }

  lemma WaitShrinks(s: State, step: Step)
    requires Enabled(s, step) && (step.Look? || step.Signal? || step.Return? || step.Raise?)
    ensures Left(Do(s, step).life) < Left(s.life)
  {
    hide Rest, LatchFits, LookStep, SignalStep, ReturnStep, RaiseStep;
  }

  lemma SealShrinks(s: State, step: Step)
    requires Enabled(s, step) && LifecycleStep(step) && !s.life.Idle?
    requires step.ClientStart? || step.RestartThread? || step.ClientStop? || step.StopAfterLatch?
          || step.TakeGuard? || step.Seal? || step.Publish?
    ensures Left(Do(s, step).life) < Left(s.life)
  {
    hide Rest, LatchFits, ExplicitStartStep, AutoStartStep, StopStep, GuardStep, SealStep, PublishStep;
  }

  predicate Busy(s: State, path: seq<Step>)
    requires CanRun(s, path)
    decreases |path|
  {
    path == [] || (!s.life.Idle? && Busy(Do(s, path[0]), path[1..]))
  }

  function OwnSteps(path: seq<Step>): nat {
    if path == [] then 0 else (if LifecycleStep(path[0]) then 1 else 0) + OwnSteps(path[1..])
  }

  /** A start, stop, switch or shutdown takes at most as many steps as are left, fourteen at the most, before
      the lock is free again. */
  lemma {:induction false} TransactionsAreBounded(s: State, path: seq<Step>)
    requires CanRun(s, path) && Busy(s, path)
    ensures OwnSteps(path) + Left(Then(s, path).life) <= Left(s.life) <= 14
    decreases |path|
  {
    hide Rest, LatchFits, Do, Enabled, Left;
    LeftAtMost(s.life);
    if path != [] {
      TransactionShrinks(s, path[0]);
      TransactionsAreBounded(Do(s, path[0]), path[1..]);
    }
  }

  lemma LeftAtMost(life: Life)
    ensures Left(life) <= 14
  {
  }

  /** And it can always be finished, by its own thread alone. */
  lemma {:induction false} CanFinish(s: State) returns (path: seq<Step>)
    requires Inv(s)
    ensures CanRun(s, path) && Then(s, path).life.Idle? && OwnSteps(path) == |path|
    decreases Left(s.life)
  {
    hide Rest, LatchFits, Inv, Do, Enabled, Left;
    if s.life.Idle? {
      path := [];
    } else {
      NextEnabled(s);
      var step := NextOf(s.life).value;
      KeepStep(s, step);
      TransactionShrinks(s, step);
      var rest := CanFinish(Do(s, step));
      First(s, step, rest);
      path := [step] + rest;
    }
  }

  lemma NextEnabled(s: State)
    requires Inv(s) && !s.life.Idle?
    ensures NextOf(s.life).Some? && Enabled(s, NextOf(s.life).value) && LifecycleStep(NextOf(s.life).value)
  {
    hide Rest, LatchFits, People, Ordered, Latched;
  }
}
