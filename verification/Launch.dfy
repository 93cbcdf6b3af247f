// Which model is started: over whole runs, a spawn is of the model its transaction was asked for, and a restart
// of the one that served last; and what a start, a crash, a stop and a switch come to when nothing fails.
module Launch {
  import opened Basics
  import opened Supervisor

  // ---- what a transaction was asked for ----

  datatype Purpose = ToStart(spec: Spec) | ToStop | ToShutDown | Nothing

  function PurposeOf(after: After): Purpose {
    match after
    case JustStop => ToStop
    case SwitchTo(spec) => ToStart(spec)
    case Shutdown => ToShutDown
  }

  /** What the transaction under way is for. */
  function Wanted(s: State): Purpose {
    match s.life
    case Idle => Nothing
    case Spawning(spec) => ToStart(spec)
    case Installing(_, spec) => ToStart(spec)
    case Saving(_) => if s.spec.Some? then ToStart(s.spec.value) else Nothing
    case Watching(_) => if s.spec.Some? then ToStart(s.spec.value) else Nothing
    case ShuttingDown(_) => ToShutDown
    case Preparing(_, after, _) => PurposeOf(after)
    case Sealing(_, after, _) => PurposeOf(after)
    case Publishing(_, after) => PurposeOf(after)
    case Checking(_, after) => PurposeOf(after)
    case Signalling(_, after, _) => PurposeOf(after)
    case Grace(_, after) => PurposeOf(after)
    case Killing(_, after) => PurposeOf(after)
    case Returning(_, after) => PurposeOf(after)
    case Failing(after) => PurposeOf(after)
  }

  /** What the step that begins a transaction asks for. */
  predicate AsksFor(s: State, step: Step, purpose: Purpose) {
    match step
    case ClientStart(spec) => purpose == ToStart(spec)
    case RestartThread(i) => i < |s.restarts| && purpose == ToStart(s.restarts[i])
    case ClientStop(JustStop, _) => purpose == ToStop
    case ClientStop(SwitchTo(spec), _) => purpose == ToStart(spec)
    case ClientStop(Shutdown, _) => purpose == ToShutDown
    case _ => false
  }

  lemma StopAsks(s: State, after: After, force: bool)
    ensures Wanted(StopStep(s, after, force)) == PurposeOf(after)
  {
    hide Rest, Untouched, LatchFits, PurposeOf;
  }

  lemma StartAsks(s: State, spec: Spec)
    ensures ExplicitStartStep(s, spec).life.Idle? || Wanted(ExplicitStartStep(s, spec)) == ToStart(spec)
  {
    hide Rest, Untouched, LatchFits;
  }

  lemma RestartAsks(s: State, i: nat)
    requires s.life.Idle? && i < |s.restarts|
    ensures AutoStartStep(s, i).life.Idle? || Wanted(AutoStartStep(s, i)) == ToStart(s.restarts[i])
  {
    hide Rest, Untouched, LatchFits;
  }

  lemma SpawnWanted(s: State, ok: bool)
    requires s.life.Spawning?
    ensures SpawnStep(s, ok).life.Idle? || Wanted(SpawnStep(s, ok)) == Wanted(s)
  {
    hide Untouched, LatchFits, Rest;
  }

  lemma InstallWanted(s: State)
    requires s.life.Installing?
    ensures Wanted(InstallStep(s)) == Wanted(s)
  {
    hide Untouched, LatchFits;
  }

  lemma SaveWanted(s: State, ok: bool)
    requires s.life.Saving?
    ensures SaveStep(s, ok).life.Idle? || Wanted(SaveStep(s, ok)) == Wanted(s)
  {
    hide Untouched, LatchFits;
  }

  lemma WatchWanted(s: State, ok: bool)
    requires s.life.Watching?
    ensures WatchStep(s, ok).life.Idle? || Wanted(WatchStep(s, ok)) == Wanted(s)
  {
    hide Untouched, LatchFits, Rest;
  }

  lemma GuardWanted(s: State)
    requires s.life.Preparing?
    ensures Wanted(GuardStep(s)) == Wanted(s)
  {
    hide Untouched, LatchFits, Rest;
  }

  lemma SealWanted(s: State, prepared: Prepared, stats: bool, outbox: bool)
    requires s.life.Sealing?
    ensures Wanted(SealStep(s, prepared, stats, outbox)) == Wanted(s)
  {
    hide Untouched, LatchFits, Rest;
  }

  lemma PublishWanted(s: State)
    requires s.life.Publishing?
    ensures Wanted(PublishStep(s)) == Wanted(s)
  {
    hide Untouched, LatchFits, Rest;
  }

  lemma LookWanted(s: State)
    requires s.life.Checking? || s.life.Grace? || s.life.Killing?
    ensures Wanted(LookStep(s)) == Wanted(s)
  {
    hide Untouched, LatchFits, Rest;
  }

  lemma SignalWanted(s: State, sent: bool)
    requires s.life.Signalling?
    ensures Wanted(SignalStep(s, sent)) == Wanted(s)
  {
    hide Untouched, LatchFits, Rest;
  }

  lemma ReturnWanted(s: State)
    requires s.life.Returning?
    ensures ReturnStep(s).life.Idle? || Wanted(ReturnStep(s)) == Wanted(s)
  {
    hide Rest, Untouched, LatchFits, ExplicitStartStep, Wanted;
    WantedReturning(s);
    if s.life.after.SwitchTo? { StartAsks(Emit(s, StopReturned(s.life.found)), s.life.after.spec); }
  }

  lemma WantedReturning(s: State)
    requires s.life.Returning?
    ensures Wanted(s) == PurposeOf(s.life.after)
  {
  }

  lemma RaiseWanted(s: State)
    requires s.life.Failing?
    ensures RaiseStep(s).life.Idle? || Wanted(RaiseStep(s)) == Wanted(s)
  {
    hide Untouched, LatchFits, Rest;
  }

  lemma Begins(s: State, step: Step)
    requires Enabled(s, step) && LifecycleStep(step) && s.life.Idle?
    ensures Do(s, step).life.Idle? || AsksFor(s, step, Wanted(Do(s, step)))
  {
    hide SpawnStep, InstallStep, SaveStep, WatchStep, GuardStep, SealStep, PublishStep, LookStep, SignalStep, ReturnStep,
      RaiseStep, StopStep, ExplicitStartStep, AutoStartStep, Rest, Untouched, LatchFits;
    match step
    case ClientStart(spec) => StartAsks(s, spec);
    case RestartThread(i) => RestartAsks(s, i);
    case ClientStop(after, force) => if !after.Shutdown? { StopAsks(s, after, force); }
    case _ =>
  }

  lemma Continues(s: State, step: Step)
    requires Enabled(s, step) && LifecycleStep(step) && !s.life.Idle?
    ensures Do(s, step).life.Idle? || Wanted(Do(s, step)) == Wanted(s)
  {
    hide SpawnStep, InstallStep, SaveStep, WatchStep, GuardStep, SealStep, PublishStep, LookStep, SignalStep, ReturnStep,
      RaiseStep, StopStep, ExplicitStartStep, AutoStartStep, Rest, Untouched, LatchFits, Wanted;
    match step
    case StopAfterLatch =>
      StopAsks(s, Shutdown, s.life.force);
      ShutsDown(s);
    case SpawnDone(ok) => SpawnWanted(s, ok);
    case Install => InstallWanted(s);
    case Save(ok) => SaveWanted(s, ok);
    case Watch(ok) => WatchWanted(s, ok);
    case TakeGuard => GuardWanted(s);
    case Seal(prepared, stats, outbox) => SealWanted(s, prepared, stats, outbox);
    case Publish => PublishWanted(s);
    case Look => LookWanted(s);
    case Signal(sent) => SignalWanted(s, sent);
    case Return => ReturnWanted(s);
    case Raise => RaiseWanted(s);
    case _ =>
  }

  lemma ShutsDown(s: State)
    requires s.life.ShuttingDown?
    ensures Wanted(s) == ToShutDown
  {
  }

  lemma Elsewhere(s: State, step: Step)
    requires Enabled(s, step) && !LifecycleStep(step)
    ensures Do(s, step).life == s.life && Do(s, step).spec == s.spec
  {
    hide ExitStep, WakeStep, CrashStep, LatchStep, ForgetStep, ClearStep, AnnounceStep, DecideStep, RelaunchStep, Untouched, LatchFits;
  }

  /** The transaction under way in state i was begun by step j. */
  ghost predicate BegunBy(states: seq<State>, steps: seq<Step>, i: nat, j: nat)
    requires Run(states, steps) && i < |states|
  {
    && j < i && states[j].life.Idle? && LifecycleStep(steps[j])
    && forall k :: j < k <= i ==> !states[k].life.Idle?
  }

  lemma {:induction false} BeginningOf(states: seq<State>, steps: seq<Step>, i: nat) returns (j: nat)
    requires Run(states, steps) && i < |states| && !states[i].life.Idle?
    ensures BegunBy(states, steps, i, j) && AsksFor(states[j], steps[j], Wanted(states[i]))
  {
    hide Do, Enabled, Wanted, AsksFor, LifecycleStep;
    RunStarts(states, steps);
    assert Enabled(states[i - 1], steps[i - 1]) && states[i] == Do(states[i - 1], steps[i - 1]);
    if !LifecycleStep(steps[i - 1]) {
      Elsewhere(states[i - 1], steps[i - 1]);
      WantedIsLocal(states[i - 1], states[i]);
      j := BeginningOf(states, steps, i - 1);
    } else if states[i - 1].life.Idle? {
      Begins(states[i - 1], steps[i - 1]);
      j := i - 1;
    } else {
      Continues(states[i - 1], steps[i - 1]);
      j := BeginningOf(states, steps, i - 1);
    }
  }

  lemma WantedIsLocal(s: State, t: State)
    requires t.life == s.life && t.spec == s.spec
    ensures Wanted(t) == Wanted(s)
  {
  }

  lemma RunStarts(states: seq<State>, steps: seq<Step>)
    requires Run(states, steps)
    ensures states[0].life.Idle?
  {
  }

  // ---- what is started ----

  /** Every spawn is of the model that the client, or the restart thread, that began its transaction asked for: a
      switch starts the model it was given. */
  lemma SpawnedAsAsked(states: seq<State>, steps: seq<Step>, i: nat) returns (j: nat)
    requires Run(states, steps) && i < |steps| && steps[i].SpawnDone?
    ensures BegunBy(states, steps, i, j) && states[i].life.Spawning?
    ensures var spec := states[i].life.spec;
      || steps[j] == ClientStart(spec)
      || (steps[j].ClientStop? && steps[j].after == SwitchTo(spec))
      || (steps[j].RestartThread? && steps[j].i < |states[j].restarts| && states[j].restarts[steps[j].i] == spec)
  {
    hide Do, LifecycleStep;
    assert Enabled(states[i], steps[i]);
    j := BeginningOf(states, steps, i);
  }

  /** And once installed it is the model served. */
  lemma InstalledAsAsked(states: seq<State>, steps: seq<Step>, i: nat) returns (j: nat)
    requires Run(states, steps) && i < |steps| && steps[i] == Install
    ensures BegunBy(states, steps, i, j) && states[i].life.Installing? && states[i + 1].child == Some(states[i].life.g)
    ensures states[i + 1].spec.Some?
    ensures var spec := states[i + 1].spec.value;
      || steps[j] == ClientStart(spec)
      || (steps[j].ClientStop? && steps[j].after == SwitchTo(spec))
      || (steps[j].RestartThread? && steps[j].i < |states[j].restarts| && states[j].restarts[steps[j].i] == spec)
  {
    hide LifecycleStep, Untouched, LatchFits;
    assert Enabled(states[i], steps[i]) && states[i + 1] == Do(states[i], steps[i]);
    j := BeginningOf(states, steps, i);
  }

  /** Which steps change the model served, the state file, and the restarts under way. */
  lemma RestFrame(s: State, step: Step)
    requires Enabled(s, step)
    ensures !step.Install? ==> Do(s, step).spec == s.spec
    ensures Do(s, step).autoRestart == s.autoRestart
    ensures !step.Save? && !step.ClearRecord? ==> Do(s, step).record == s.record
    ensures !step.RestartThread? && !step.Relaunch? ==> Do(s, step).restarts == s.restarts
  {
    hide SpawnStep, InstallStep, SaveStep, WatchStep, GuardStep, SealStep, PublishStep, LookStep, SignalStep, ReturnStep,
      RaiseStep, StopStep, ExplicitStartStep, AutoStartStep, ExitStep, WakeStep, CrashStep, LatchStep, ForgetStep, ClearStep,
      AnnounceStep, DecideStep, RelaunchStep, Untouched, LatchFits;
  }

  /** The model served is that of the last engine installed, or the adopted one's. */
  lemma {:induction false} LastInstalled(states: seq<State>, steps: seq<Step>, i: nat, j: nat)
    requires Run(states, steps) && i <= j < |states| && forall k :: i <= k < j ==> steps[k] != Install
    ensures states[j].spec == states[i].spec
  {
    hide Do, Enabled;
    if i < j {
      LastInstalled(states, steps, i, j - 1);
      assert Enabled(states[j - 1], steps[j - 1]) && states[j] == Do(states[j - 1], steps[j - 1]);
      RestFrame(states[j - 1], steps[j - 1]);
    }
  }

  // ---- restarts ----

  lemma Relaunched(s: State, g: Gen)
    requires Enabled(s, Relaunch(g))
    ensures Do(s, Relaunch(g)).restarts == if s.spec.Some? then s.restarts + [s.spec.value] else s.restarts
  {
  }

  lemma Restarted(s: State, i: nat)
    requires Enabled(s, RestartThread(i))
    ensures Do(s, RestartThread(i)).restarts == s.restarts[..i] + s.restarts[i + 1..]
  {
  }

  /** A restart under way is of the model that was served when some monitor decided on it. */
  lemma {:induction false} RestartOf(states: seq<State>, steps: seq<Step>, i: nat, r: nat) returns (j: nat)
    requires Run(states, steps) && i < |states| && r < |states[i].restarts|
    ensures j < i && steps[j].Relaunch? && states[j].spec == Some(states[i].restarts[r])
  {
    hide Do, Enabled;
    NoRestartsAtFirst(states, steps);
    var s, step := states[i - 1], steps[i - 1];
    assert Enabled(s, step) && states[i] == Do(s, step);
    RestFrame(s, step);
    if step.Relaunch? {
      Relaunched(s, step.g);
      if r < |s.restarts| { j := RestartOf(states, steps, i - 1, r); } else { j := i - 1; }
    } else if step.RestartThread? {
      Restarted(s, step.i);
      ThreadWaits(s, step.i);
      j := RestartOf(states, steps, i - 1, if r < step.i then r else r + 1);
    } else {
      j := RestartOf(states, steps, i - 1, r);
    }
  }

  lemma ThreadWaits(s: State, i: nat)
    requires Enabled(s, RestartThread(i))
    ensures i < |s.restarts|
  {
  }

  lemma NoRestartsAtFirst(states: seq<State>, steps: seq<Step>)
    requires Run(states, steps)
    ensures states[0].restarts == []
  {
  }
}
