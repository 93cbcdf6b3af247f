// How the supervisor treats an engine over whole runs: when it signals it and how hard, what its latches stand
// for, when a crash is answered by a restart, and what the state file says.
module Conduct {
  import opened Basics
  import opened Supervisor
  import opened Replacement
  import opened Launch

  // ---- signals ----

  /** The last step of the transaction under way. */
  lemma {:induction false} PreviousOwn(states: seq<State>, steps: seq<Step>, i: nat) returns (j: nat)
    requires Run(states, steps) && i < |states| && !states[i].life.Idle?
    ensures j < i && LifecycleStep(steps[j]) && states[j + 1].life == states[i].life
    ensures forall k :: j < k < i ==> !LifecycleStep(steps[k])
  {
    hide Do, Enabled, LifecycleStep;
    RunStarts(states, steps);
    assert Enabled(states[i - 1], steps[i - 1]) && states[i] == Do(states[i - 1], steps[i - 1]);
    if LifecycleStep(steps[i - 1]) {
      j := i - 1;
    } else {
      Elsewhere(states[i - 1], steps[i - 1]);
      j := PreviousOwn(states, steps, i - 1);
    }
  }

  lemma WhoSignals(s: State, step: Step)
    requires Enabled(s, step) && LifecycleStep(step) && !step.Watch?
    ensures Do(s, step).life.Signalling? ==> step == Look
    ensures Do(s, step).life.Grace? ==> step.Signal?
  {
    hide SpawnStep, InstallStep, SaveStep, WatchStep, GuardStep, SealStep, PublishStep, LookStep, SignalStep, ReturnStep,
      RaiseStep, StopStep, ExplicitStartStep, AutoStartStep, Untouched, LatchFits, Rest;
  }

  lemma LookSignals(s: State)
    requires s.life.Checking? || s.life.Grace? || s.life.Killing?
    ensures LookStep(s).life.Signalling? ==>
              (s.life.Checking? || s.life.Grace?) && s.life.g !in s.reaped && LookStep(s).life == Signalling(s.life.g, s.life.after, s.life.Grace?)
  {
    hide Untouched, LatchFits, Rest;
  }

  lemma SignalWaits(s: State, sent: bool)
    requires s.life.Signalling?
    ensures SignalStep(s, sent).life.Grace? ==> sent && s.life == Signalling(SignalStep(s, sent).life.g, SignalStep(s, sent).life.after, false)
  {
    hide Untouched, LatchFits, Rest;
  }

  lemma WatchIdles(s: State, ok: bool)
    requires s.life.Watching?
    ensures WatchStep(s, ok).life.Idle?
  {
    hide Rest;
  }

  lemma IntoSignalling(s: State, step: Step)
    requires Enabled(s, step) && LifecycleStep(step) && Do(s, step).life.Signalling?
    ensures step == Look && (s.life.Checking? || s.life.Grace?) && s.life.g !in s.reaped
    ensures Do(s, step).life == Signalling(s.life.g, s.life.after, s.life.Grace?)
  {
    hide SpawnStep, InstallStep, SaveStep, WatchStep, GuardStep, SealStep, PublishStep, LookStep, SignalStep, ReturnStep,
      RaiseStep, StopStep, ExplicitStartStep, AutoStartStep, Untouched, LatchFits, Rest;
    if step.Watch? { WatchIdles(s, step.ok); } else { WhoSignals(s, step); LookSignals(s); }
  }

  lemma IntoGrace(s: State, step: Step)
    requires Enabled(s, step) && LifecycleStep(step) && Do(s, step).life.Grace?
    ensures step == Signal(true) && s.life == Signalling(Do(s, step).life.g, Do(s, step).life.after, false)
  {
    hide SpawnStep, InstallStep, SaveStep, WatchStep, GuardStep, SealStep, PublishStep, LookStep, SignalStep, ReturnStep,
      RaiseStep, StopStep, ExplicitStartStep, AutoStartStep, Untouched, LatchFits, Rest;
    if step.Watch? { WatchIdles(s, step.ok); } else { WhoSignals(s, step); SignalWaits(s, step.sent); }
  }

  /** A signal is sent only when the step before found the engine not reaped. */
  lemma SignalsAfterLook(states: seq<State>, steps: seq<Step>, i: nat) returns (j: nat)
    requires Run(states, steps) && i < |steps| && steps[i].Signal?
    ensures j < i && steps[j] == Look && forall k :: j < k < i ==> !LifecycleStep(steps[k])
    ensures states[i].life.Signalling? && (states[j].life.Checking? || states[j].life.Grace?)
    ensures states[j].life.g == states[i].life.g && states[i].life.g !in states[j].reaped
    ensures states[i].life.kill <==> states[j].life.Grace?
    ensures states[j].life.after == states[i].life.after
  {
    hide Do, LifecycleStep;
    assert Enabled(states[i], steps[i]);
    j := PreviousOwn(states, steps, i);
    assert Enabled(states[j], steps[j]) && states[j + 1] == Do(states[j], steps[j]);
    IntoSignalling(states[j], steps[j]);
  }

  /** An engine is killed only after it was asked to terminate and, when the grace time was over, was still there. */
  lemma KillsAfterTerm(states: seq<State>, steps: seq<Step>, i: nat) returns (asked: nat, looked: nat)
    requires Run(states, steps) && i < |steps| && steps[i].Signal? && states[i].life.Signalling? && states[i].life.kill
    ensures asked < looked < i && steps[asked] == Signal(true) && steps[looked] == Look
    ensures states[asked].life == Signalling(states[i].life.g, states[i].life.after, false)
    ensures states[looked].life == Grace(states[i].life.g, states[i].life.after) && states[i].life.g !in states[looked].reaped
  {
    hide Do, LifecycleStep, Enabled;
    looked := SignalsAfterLook(states, steps, i);
    asked := PreviousOwn(states, steps, looked);
    assert Enabled(states[asked], steps[asked]) && states[asked + 1] == Do(states[asked], steps[asked]);
    IntoGrace(states[asked], steps[asked]);
  }

  // ---- the latches ----

  lemma LatchKept(s: State, step: Step)
    requires Enabled(s, step) && LatchFits(s)
    ensures LatchFits(Do(s, step))
  {
    hide SpawnStep, InstallStep, SaveStep, WatchStep, GuardStep, SealStep, PublishStep, LookStep, SignalStep, ReturnStep,
      RaiseStep, StopStep, ExplicitStartStep, AutoStartStep, ExitStep, WakeStep, CrashStep, LatchStep, ForgetStep, ClearStep,
      AnnounceStep, DecideStep, RelaunchStep, Untouched, Rest, Latched;
  }

  /** The stop latch is set exactly when the last of the events that set or clear it set it. */
  lemma {:induction false} LatchIsWhatTheLogSays(states: seq<State>, steps: seq<Step>, i: nat)
    requires Run(states, steps) && i < |states|
    ensures states[i].stopRequested <==> Latched(states[i].log)
  {
    hide Do, Enabled, Latched;
    if i == 0 {
      NotLatchedAtFirst(states[0]);
    } else {
      LatchIsWhatTheLogSays(states, steps, i - 1);
      assert Enabled(states[i - 1], steps[i - 1]) && states[i] == Do(states[i - 1], steps[i - 1]);
      LatchKept(states[i - 1], steps[i - 1]);
    }
  }

  lemma NotLatchedAtFirst(s: State)
    requires Init(s)
    ensures !s.stopRequested && !Latched(s.log)
  {
    assert !Latched([SealedBefore(0)]) && [SealedBefore(0), Adopted(0)][..1] == [SealedBefore(0)];
  }

  /** Admission is closed only by a shutdown, under way or done. */
  predicate Admits(s: State) {
    s.shutdownRequested ==> ShutdownDone in s.log || Wanted(s) == ToShutDown
  }

  lemma AdmissionFrame(s: State, step: Step)
    requires Enabled(s, step)
    ensures s.log <= Do(s, step).log
    ensures !(step.ClientStop? && step.after.Shutdown?) && !step.Raise? ==> Do(s, step).shutdownRequested == s.shutdownRequested
    ensures step.ClientStop? && step.after.Shutdown? ==> Do(s, step).life.ShuttingDown?
  {
    hide Do, Enabled;
    if LifecycleStep(step) { OwnAdmissionFrame(s, step); } else { OtherAdmissionFrame(s, step); }
  }

  lemma OwnAdmissionFrame(s: State, step: Step)
    requires Enabled(s, step) && LifecycleStep(step)
    ensures s.log <= Do(s, step).log
    ensures !(step.ClientStop? && step.after.Shutdown?) && !step.Raise? ==> Do(s, step).shutdownRequested == s.shutdownRequested
    ensures step.ClientStop? && step.after.Shutdown? ==> Do(s, step).life.ShuttingDown?
  {
    hide SpawnStep, InstallStep, SaveStep, WatchStep, GuardStep, SealStep, PublishStep, LookStep, SignalStep, ReturnStep,
      RaiseStep, StopStep, ExplicitStartStep, AutoStartStep, Untouched, LatchFits;
  }

  lemma OtherAdmissionFrame(s: State, step: Step)
    requires Enabled(s, step) && !LifecycleStep(step)
    ensures s.log <= Do(s, step).log && Do(s, step).shutdownRequested == s.shutdownRequested
  {
    hide ExitStep, WakeStep, CrashStep, LatchStep, ForgetStep, ClearStep,
      AnnounceStep, DecideStep, RelaunchStep, Untouched, LatchFits;
  }

  lemma ReturnShutsDown(s: State)
    requires s.life.Returning?
    ensures Wanted(s) == ToShutDown ==> ShutdownDone in ReturnStep(s).log
  {
    hide Rest, Untouched, LatchFits, ExplicitStartStep;
  }

  lemma RaiseAdmits(s: State)
    requires s.life.Failing?
    ensures RaiseStep(s).life.Idle? && s.log <= RaiseStep(s).log
    ensures RaiseStep(s).shutdownRequested ==> s.shutdownRequested && Wanted(s) != ToShutDown
  {
    hide Untouched, LatchFits;
  }

  lemma EndsOtherwise(s: State, step: Step)
    requires Enabled(s, step) && LifecycleStep(step) && Wanted(s) == ToShutDown
    ensures Do(s, step).life.Idle? ==> step == Return || step == Raise
  {
    hide SpawnStep, InstallStep, SaveStep, WatchStep, GuardStep, SealStep, PublishStep, LookStep, SignalStep, ReturnStep,
      RaiseStep, StopStep, ExplicitStartStep, AutoStartStep, Untouched, LatchFits, Rest;
  }

  lemma AdmitsKept(s: State, step: Step)
    requires Enabled(s, step) && Admits(s)
    ensures Admits(Do(s, step))
  {
    hide Do, Enabled, Wanted, LifecycleStep;
    var t := Do(s, step);
    AdmissionFrame(s, step);
    if step == Raise {
      RaiseDoes(s);
      RaiseAdmits(s);
    } else if step.ClientStop? && step.after.Shutdown? {
      ShutsDown(t);
    } else if !LifecycleStep(step) {
      Elsewhere(s, step);
      WantedIsLocal(s, t);
    } else if s.shutdownRequested && ShutdownDone !in s.log {
      WantsNothing(s);
      Continues(s, step);
      EndsOtherwise(s, step);
      if step == Return {
        ReturnDoes(s);
        ReturnShutsDown(s);
      }
    }
  }

  lemma WantsNothing(s: State)
    ensures s.life.Idle? ==> Wanted(s) == Nothing
  {
  }

  lemma RaiseDoes(s: State)
    requires Enabled(s, Raise)
    ensures s.life.Failing? && Do(s, Raise) == RaiseStep(s)
  {
  }

  lemma ReturnDoes(s: State)
    requires Enabled(s, Return)
    ensures s.life.Returning? && Do(s, Return) == ReturnStep(s)
  {
  }

  lemma {:induction false} AdmitsAlways(states: seq<State>, steps: seq<Step>, i: nat)
    requires Run(states, steps) && i < |states|
    ensures Admits(states[i])
  {
    hide Do, Enabled, Admits;
    if i == 0 {
      AdmitsAtFirst(states[0]);
    } else {
      AdmitsAlways(states, steps, i - 1);
      assert Enabled(states[i - 1], steps[i - 1]) && states[i] == Do(states[i - 1], steps[i - 1]);
      AdmitsKept(states[i - 1], steps[i - 1]);
    }
  }

  lemma AdmitsAtFirst(s: State)
    requires Init(s)
    ensures Admits(s)
  {
  }

  /** Between two transactions new engines are refused exactly when a shutdown has succeeded: one that failed
      reopens admission. */
  lemma RefusesExactlyAfterShutdown(states: seq<State>, steps: seq<Step>, i: nat)
    requires Run(states, steps) && i < |states| && states[i].life.Idle?
    ensures states[i].shutdownRequested <==> ShutdownDone in states[i].log
  {
    hide Run, Wanted;
    RunInv(states, steps, i);
    AdmitsAlways(states, steps, i);
    WantsNothing(states[i]);
  }

  // ---- when a crash is answered by a restart ----

  /** Whether a stop was asked for, as the monitor noted it when it found the engine dead. */
  function Noted(m: Monitor): Option<bool> {
    match m
    case Observed(was, _) => Some(was)
    case ReceiptFailed(was) => Some(was)
    case Accounted(was) => Some(was)
    case Dropped(was, _) => Some(was)
    case Announcing(was, _) => Some(was)
    case Deciding(was, _) => Some(was)
    case _ => None
  }

  lemma SameNote(m: Monitor, n: Monitor)
    requires (m.Accounted? && n.Dropped?) || (m.Dropped? && n.Announcing?)
    requires n.wasStopping == m.wasStopping
    ensures Noted(n) == Noted(m)
  {
  }

  lemma CrashNotes(s: State, g: Gen, outbox: Outbox)
    requires g in s.monitors && s.monitors[g].Observed?
    ensures Noted(CrashStep(s, g, outbox).monitors[g]).Some? ==> Noted(CrashStep(s, g, outbox).monitors[g]) == Noted(s.monitors[g])
  {
    hide Rest, Untouched, LatchFits, Recorded;
  }

  lemma LatchNotes(s: State, g: Gen)
    requires g in s.monitors && s.monitors[g].ReceiptFailed?
    ensures Noted(LatchStep(s, g).monitors[g]) == Noted(s.monitors[g])
  {
    hide Rest, Untouched, LatchFits;
  }

  lemma ForgetNotes(s: State, g: Gen)
    requires g in s.monitors && s.monitors[g].Accounted?
    ensures Noted(ForgetStep(s, g).monitors[g]) == Noted(s.monitors[g])
  {
    hide Rest, Untouched, LatchFits;
    hide Noted;
    var m := Dropped(s.monitors[g].wasStopping, s.child == Some(g));
    assert ForgetStep(s, g).monitors[g] == m;
    SameNote(s.monitors[g], m);
  }

  lemma ClearNotes(s: State, g: Gen)
    requires g in s.monitors && s.monitors[g].Dropped?
    ensures Noted(ClearStep(s, g).monitors[g]) == Noted(s.monitors[g])
  {
    hide Rest, Untouched, LatchFits;
    hide Noted;
    var m := Announcing(s.monitors[g].wasStopping, s.monitors[g].current);
    assert ClearStep(s, g).monitors[g] == m;
    SameNote(s.monitors[g], m);
  }

  lemma AnnounceNotes(s: State, g: Gen)
    requires g in s.monitors && s.monitors[g].Announcing?
    ensures Noted(AnnounceStep(s, g).monitors[g]) == Noted(s.monitors[g])
  {
    hide Rest, Untouched, LatchFits;
  }

  lemma WakeNotes(s: State, g: Gen)
    ensures Noted(WakeStep(s, g).monitors[g]) == Some(s.stopping || s.stopRequested)
  {
    hide Rest, Untouched, LatchFits;
  }

  predicate DecidesToRestart(s: State, g: Gen)
    requires g in s.monitors
  {
    Noted(s.monitors[g]) == Some(false) && s.autoRestart && !s.stopRequested
  }

  lemma DecideRestarts(s: State, g: Gen)
    requires g in s.monitors && s.monitors[g].Deciding?
    ensures DecideStep(s, g).monitors[g].Restarting? ==> DecidesToRestart(s, g)
  {
    hide Rest, Untouched, LatchFits;
  }

  /** A monitor moves by its own steps only. */
  lemma OnlyItsOwn(s: State, step: Step, g: Gen)
    requires Enabled(s, step) && g in Do(s, step).monitors
    requires !ActsOn(step, g) || step.Exit?
    ensures Do(s, step).monitors[g] == Waiting || (g in s.monitors && Do(s, step).monitors[g] == s.monitors[g])
  {
    hide Do, Enabled, LifecycleStep;
    if step.Watch? {
      WatchedNow(s, step.ok, g);
    } else if LifecycleStep(step) {
      LifecycleFrame(s, step);
    } else {
      MonitorFrame(s, step, g);
    }
  }

  lemma WatchedNow(s: State, ok: bool, g: Gen)
    requires Enabled(s, Watch(ok)) && g in Do(s, Watch(ok)).monitors
    ensures Do(s, Watch(ok)).monitors[g] == Waiting || (g in s.monitors && Do(s, Watch(ok)).monitors[g] == s.monitors[g])
  {
    hide Rest, LatchFits;
  }

  /** What the g's monitor's own step does to what it noted. */
  lemma OwnNotes(s: State, step: Step, g: Gen)
    requires Enabled(s, step) && ActsOn(step, g) && !step.Exit?
    ensures g in Do(s, step).monitors
    ensures var m := Do(s, step).monitors[g];
      && (Noted(m).Some? ==> step == Wake(g) || (g in s.monitors && Noted(m) == Noted(s.monitors[g])))
      && (step == Wake(g) ==> Noted(m) == Some(s.stopping || s.stopRequested))
      && (m.Restarting? ==> step == Decide(g) && g in s.monitors && DecidesToRestart(s, g))
  {
    hide ExitStep, WakeStep, CrashStep, LatchStep, ForgetStep, ClearStep,
      AnnounceStep, DecideStep, RelaunchStep, Rest, Untouched, LatchFits;
    match step
    case Wake(_) => WakeNotes(s, g);
    case CrashReceipt(_, outbox) => CrashNotes(s, g, outbox);
    case LatchOutbox(_) => LatchNotes(s, g);
    case Forget(_) => ForgetNotes(s, g);
    case ClearRecord(_) => ClearNotes(s, g);
    case Announce(_) => AnnounceNotes(s, g);
    case Decide(_) => DecideRestarts(s, g);
    case _ =>
  }

  lemma WaitingAtFirst(s: State, g: Gen)
    requires Init(s) && g in s.monitors
    ensures s.monitors[g] == Waiting
  {
  }

  lemma {:induction false} NotedAt(states: seq<State>, steps: seq<Step>, i: nat, g: Gen) returns (woke: nat)
    requires Run(states, steps) && i < |states| && g in states[i].monitors && Noted(states[i].monitors[g]).Some?
    ensures woke < i && steps[woke] == Wake(g)
    ensures Noted(states[i].monitors[g]) == Some(states[woke].stopping || states[woke].stopRequested)
  {
    hide Do, Enabled, Noted, ActsOn, Init;
    NotedWaiting();
    if i == 0 {
      WaitingAtFirst(states[0], g);
    } else {
      var s, step := states[i - 1], steps[i - 1];
      assert Enabled(s, step) && states[i] == Do(s, step);
      if ActsOn(step, g) && !step.Exit? {
        OwnNotes(s, step, g);
        if step == Wake(g) { woke := i - 1; } else { woke := NotedAt(states, steps, i - 1, g); }
      } else {
        OnlyItsOwn(s, step, g);
        woke := NotedAt(states, steps, i - 1, g);
      }
    }
  }

  lemma NotedWaiting()
    ensures Noted(Waiting) == None
  {
  }

  lemma {:induction false} DecidedAt(states: seq<State>, steps: seq<Step>, i: nat, g: Gen) returns (decided: nat)
    requires Run(states, steps) && i < |states| && g in states[i].monitors && states[i].monitors[g].Restarting?
    ensures decided < i && steps[decided] == Decide(g) && g in states[decided].monitors
    ensures Noted(states[decided].monitors[g]) == Some(false) && states[decided].autoRestart && !states[decided].stopRequested
  {
    hide Do, Enabled, Noted, ActsOn, Init;
    if i == 0 {
      WaitingAtFirst(states[0], g);
    } else {
      var s, step := states[i - 1], steps[i - 1];
      assert Enabled(s, step) && states[i] == Do(s, step);
      if ActsOn(step, g) && !step.Exit? {
        OwnNotes(s, step, g);
        decided := i - 1;
      } else {
        OnlyItsOwn(s, step, g);
        decided := DecidedAt(states, steps, i - 1, g);
      }
    }
  }

  lemma RelaunchDoes(s: State, g: Gen)
    requires Enabled(s, Relaunch(g))
    ensures g in s.monitors && s.monitors[g].Restarting?
  {
  }

  /** A restart follows only a death that was noticed, and decided on, with no stop asked for, and only when restarts
      are switched on. */
  lemma RestartsOnlyCrashes(states: seq<State>, steps: seq<Step>, i: nat, g: Gen) returns (woke: nat, decided: nat)
    requires Run(states, steps) && i < |steps| && steps[i] == Relaunch(g)
    ensures woke < decided < i && steps[woke] == Wake(g) && steps[decided] == Decide(g)
    ensures !states[woke].stopping && !states[woke].stopRequested
    ensures states[decided].autoRestart && !states[decided].stopRequested
  {
    hide Do, Enabled, Noted;
    assert Enabled(states[i], steps[i]);
    RelaunchDoes(states[i], g);
    decided := DecidedAt(states, steps, i, g);
    woke := NotedAt(states, steps, decided, g);
  }

  // ---- the state file ----

  lemma SaveDoes(s: State, ok: bool)
    requires Enabled(s, Save(ok))
    ensures s.life.Saving? && Do(s, Save(ok)).record == if ok then Some(s.life.g) else s.record
  {
    hide SaveStep, Untouched, LatchFits;
  }

  lemma ClearDoes(s: State, g: Gen)
    requires Enabled(s, ClearRecord(g))
    ensures g in s.monitors && s.monitors[g].Dropped?
    ensures Do(s, ClearRecord(g)).record == if s.monitors[g].current then None else s.record
  {
    hide ClearStep, Untouched, LatchFits;
  }

  predicate Clears(s: State, step: Step) {
    step.ClearRecord? && step.g in s.monitors && s.monitors[step.g].Dropped? && s.monitors[step.g].current
  }

  /** The state file names the engine it was last written for exactly until a monitor clears it, be it the monitor
      of another engine. */
  lemma {:induction false} NamedExactlyUntilCleared(states: seq<State>, steps: seq<Step>, i: nat, j: nat)
    requires Run(states, steps) && i < j < |states| && steps[i] == Save(true)
    requires forall k :: i < k < j ==> steps[k] != Save(true)
    ensures states[i].life.Saving?
    ensures states[j].record == Some(states[i].life.g) <==> forall k :: i < k < j ==> !Clears(states[k], steps[k])
    ensures states[j].record == Some(states[i].life.g) || states[j].record == None
  {
    hide Do, Enabled, Clears;
    assert Enabled(states[j - 1], steps[j - 1]) && states[j] == Do(states[j - 1], steps[j - 1]);
    if j == i + 1 {
      SaveDoes(states[i], true);
    } else {
      NamedExactlyUntilCleared(states, steps, i, j - 1);
      RecordMoves(states[j - 1], steps[j - 1]);
    }
  }

  lemma RecordMoves(s: State, step: Step)
    requires Enabled(s, step) && step != Save(true)
    ensures Do(s, step).record == if Clears(s, step) then None else s.record
  {
    hide Do, Enabled;
    RestFrame(s, step);
    if step.Save? { SaveDoes(s, step.ok); }
    if step.ClearRecord? { ClearDoes(s, step.g); }
  }
}
