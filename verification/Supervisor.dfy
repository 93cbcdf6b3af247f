// ServeManager as a transition system. One lifecycle transaction runs at a time (the
// _lifecycle lock); the monitor thread of every child, the auto-restart threads and the
// children themselves move in between. A step is one critical section or one blocking action.
module Supervisor {
  import opened Basics

  /** A spawned (or adopted) engine process; accounting identities are per generation. */
  type Gen = nat

  /** Model, port and arguments of a serve. */
  type Spec = nat

  // ---- receipts ----

  /** What prepare-stop came to: no such endpoint, any failure, or a sealed snapshot. */
  datatype Prepared = Unavailable | Rejected | Sealed

  /** _prepare_and_persist_accounting_locked up to the outbox: whether there is a receipt to persist, or the stop
      must fail closed. `stats`: the statistics fallback answered with valid totals. */
  predicate HasStopReceipt(prepared: Prepared, stats: bool, force: bool) {
    match prepared
    case Sealed => true
    case Unavailable => stats || force
    case Rejected => force
  }

  // ---- what happens, in order ----

  datatype Kind = AtStop | AtCrash

  /** What came of writing a receipt: stored, an AccountingOutboxError, or the bare OSError of creating
      the outbox directory, which _reap does not catch and which ends the monitor thread. */
  datatype Outbox = Stored | Failed | Uncaught

  /** SealedBefore: an earlier life of the daemon stored a stop receipt for an engine that went on running. */
  datatype Event =
    | SealedBefore(g: Gen)
    | Adopted(g: Gen)
    | ExplicitStart
    | StopLatched
    | OutboxLatched(g: Gen)
    | Spawned(g: Gen)
    | Persisted(g: Gen, kind: Kind)
    | Signalled(g: Gen)
    | Exited(g: Gen)
    | Forgotten(g: Gen)
    | RecordCleared(g: Gen)
    | StopReturned(found: Option<Gen>)
    | ShutdownDone

  type Log = seq<Event>

  /** The stop latch as the log tells it: set by a stop or by a failed crash receipt, cleared by an
      explicit start. */
  predicate Latched(log: Log) {
    log != [] && LatchedAfter(Latched(log[..|log| - 1]), log[|log| - 1])
  }

  predicate LatchedAfter(latched: bool, e: Event) {
    match e
    case StopLatched => true
    case OutboxLatched(_) => true
    case ExplicitStart => false
    case _ => latched
  }

  predicate HasReceipt(log: Log, g: Gen) {
    Persisted(g, AtStop) in log || Persisted(g, AtCrash) in log
  }

  predicate Begun(log: Log, g: Gen) {
    Spawned(g) in log || Adopted(g) in log
  }

  /** What must already have happened when event e happens. */
  ghost predicate Justified(before: Log, e: Event) {
    match e
    case SealedBefore(_) => before == []
    case Signalled(g) => Persisted(g, AtStop) in before
    case Persisted(g, AtCrash) => Exited(g) in before && Persisted(g, AtStop) !in before
    case Spawned(g) =>
      && !Latched(before) && ShutdownDone !in before
      && forall h: Gen :: Begun(before, h) ==> h != g && Exited(h) in before
    case Forgotten(g) => Exited(g) in before && (HasReceipt(before, g) || OutboxLatched(g) in before)
    case RecordCleared(g) => Forgotten(g) in before
    case StopReturned(found) =>
      && Latched(before)
      && (found.Some? ==> var g := found.value; Exited(g) in before && Forgotten(g) in before && RecordCleared(g) in before)
    case _ => true
  }

  ghost predicate Ordered(log: Log) {
    forall k :: 0 <= k < |log| ==> Justified(log[..k], log[k])
  }

  lemma OrderedSnoc(log: Log, e: Event)
    requires Ordered(log) && Justified(log, e)
    ensures Ordered(log + [e])
  {
    var more := log + [e];
    forall k | 0 <= k < |more| ensures Justified(more[..k], more[k]) {
      if k < |log| {
        assert more[..k] == log[..k];
      } else {
        assert more[..k] == log;
      }
    }
  }

  // ---- the state ----

  /** What the lifecycle transaction does once its stop has succeeded. */
  datatype After = JustStop | SwitchTo(spec: Spec) | Shutdown

  /** Where the thread holding _lifecycle is. */
  datatype Life =
    | Idle
    | Spawning(spec: Spec)
    | Installing(g: Gen, spec: Spec)
    | Saving(g: Gen)
    | Watching(g: Gen)
    | ShuttingDown(force: bool)
    | Preparing(g: Gen, after: After, force: bool)
    | Sealing(g: Gen, after: After, force: bool)
    | Publishing(g: Gen, after: After)
    | Checking(g: Gen, after: After)
    | Signalling(g: Gen, after: After, kill: bool)
    | Grace(g: Gen, after: After)
    | Killing(g: Gen, after: After)
    | Returning(found: Option<Gen>, after: After)
    | Failing(after: After)

  /** Where the monitor thread of a child is. */
  datatype Monitor =
    | Waiting
    | Observed(wasStopping: bool, current: bool)
    | ReceiptFailed(wasStopping: bool)
    | Accounted(wasStopping: bool)
    | Dropped(wasStopping: bool, current: bool)
    | Announcing(wasStopping: bool, current: bool)
    | Deciding(wasStopping: bool, current: bool)
    | Restarting
    | Finished
    | Died

  datatype State = State(
    child: Option<Gen>, spec: Option<Spec>,
    stopping: bool, starting: bool, stopRequested: bool, shutdownRequested: bool,
    record: Option<Gen>, alive: set<Gen>, next: Gen,
    guardHeld: bool, durable: set<Gen>, reaped: set<Gen>,
    life: Life, monitors: map<Gen, Monitor>, restarts: seq<Spec>,
    autoRestart: bool, log: Log)

  ghost predicate Init(s: State) {
    && !s.stopping && !s.starting && !s.stopRequested && !s.shutdownRequested && !s.guardHeld
    && s.durable == {} && s.reaped == {} && s.life == Idle && s.restarts == []
    && ((s.child == None && s.record == None && s.alive == {} && s.next == 0 && s.monitors == map[] && s.log == [])
        || (s.child == Some(0) && s.record == Some(0) && s.alive == {0} && s.next == 1
            && s.monitors == map[0 := Waiting] && (s.log == [Adopted(0)] || s.log == [SealedBefore(0), Adopted(0)])))
  }

  /** Nothing of the engines and their monitors has changed. */
  predicate Untouched(s: State, t: State) {
    t.monitors == s.monitors && t.reaped == s.reaped && t.alive == s.alive
  }

  /** The stop latch is set exactly when the log says so. */
  predicate LatchFits(s: State) {
    s.stopRequested <==> Latched(s.log)
  }

  /** Nor have the model served, the state file, the restarts under way, and the latches. */
  predicate Rest(s: State, t: State) {
    && t.spec == s.spec && t.autoRestart == s.autoRestart && t.record == s.record && t.restarts == s.restarts
    && t.shutdownRequested == s.shutdownRequested && t.stopRequested == s.stopRequested && s.log <= t.log
  }

  /** A spawned child is being made the current one, saved and watched. */
  predicate StartPhase(life: Life) {
    life.Installing? || life.Saving? || life.Watching?
  }

  function Emit(s: State, e: Event): (t: State)
    ensures Untouched(s, t) && t.child == s.child && t.next == s.next && t.life == s.life
    ensures Rest(s, t)
    ensures Latched(t.log) <==> LatchedAfter(Latched(s.log), e)
  {
    assert (s.log + [e])[..|s.log|] == s.log;
    s.(log := s.log + [e])
  }

  // ---- start ----

  /** The loop of _start once the latches allow it: an existing child that is not being stopped ends
      the call (idempotent or Conflict), otherwise the spawn is claimed. */
  function ClaimSpawn(s: State, spec: Spec): (t: State)
    ensures Untouched(s, t) && t.child == s.child && t.next == s.next && !StartPhase(t.life)
    ensures t.life.Idle? || t.life.Spawning?
    ensures Rest(s, t)
    ensures LatchFits(s) ==> LatchFits(t)
  {
    if s.child.Some? && !s.stopping then s.(life := Idle)
    else s.(starting := true, life := Spawning(spec))
  }

  function ExplicitStartStep(s: State, spec: Spec): (t: State)
    ensures Untouched(s, t) && t.child == s.child && t.next == s.next && !StartPhase(t.life)
    ensures t.life.Idle? || t.life.Spawning?
    ensures Rest(s.(stopRequested := t.stopRequested), t)
    ensures LatchFits(s) ==> LatchFits(t)
  {
    if s.shutdownRequested then s.(life := Idle)
    else ClaimSpawn(Emit(s.(stopRequested := false), ExplicitStart), spec)
  }

  /** The i-th of the waiting restart threads gets the lock. */
  function AutoStartStep(s: State, i: nat): (t: State)
    requires i < |s.restarts|
    ensures Untouched(s, t) && t.child == s.child && t.next == s.next && (!StartPhase(t.life) || t.life == s.life)
    ensures t.life == s.life || t.life.Idle? || t.life.Spawning?
    ensures Rest(s.(restarts := s.restarts[..i] + s.restarts[i + 1..]), t)
    ensures LatchFits(s) ==> LatchFits(t)
  {
    var t := s.(restarts := s.restarts[..i] + s.restarts[i + 1..]);
    if s.shutdownRequested || s.stopRequested then t
    else ClaimSpawn(t, s.restarts[i])
  }

  // ---- stop ----

  /** _stop's first critical section. */
  function StopStep(s: State, after: After, force: bool): (t: State)
    ensures Untouched(s, t) && t.child == s.child && t.next == s.next && !StartPhase(t.life)
    ensures t.life.Returning? || t.life.Preparing?
    ensures Rest(s.(stopRequested := true), t)
    ensures LatchFits(s) ==> LatchFits(t)
  {
    var t := Emit(s.(stopRequested := true), StopLatched);
    if s.child.None? then t.(life := Returning(None, after))
    else t.(stopping := true, life := Preparing(s.child.value, after, force))
  }

  /** The handlers of a failed stop: the child, if it is still there, becomes visible again. */
  function FailStop(s: State, g: Gen, after: After): (t: State)
    ensures Untouched(s, t) && t.child == s.child && t.next == s.next && !StartPhase(t.life)
    ensures t.life.Failing?
    ensures Rest(s, t)
    ensures LatchFits(s) ==> LatchFits(t)
  {
    s.(stopping := if s.child == Some(g) then false else s.stopping, life := Failing(after))
  }

  function MonitorTo(s: State, g: Gen, m: Monitor): State {
    s.(monitors := s.monitors[g := m])
  }

  // ---- start, continued ----

  function SpawnStep(s: State, ok: bool): (t: State)
    requires s.life.Spawning?
    ensures t.monitors == s.monitors && t.reaped == s.reaped && t.alive <= s.alive + {s.next}
    ensures t.life.Idle? || t.life.Installing?
    ensures t.child == s.child && t.next >= s.next && (StartPhase(t.life) ==> t.life.g == s.next)
    ensures Rest(s, t)
    ensures LatchFits(s) ==> LatchFits(t)
  {
    if !ok then s.(starting := false, life := Idle)
    else Emit(s.(alive := s.alive + {s.next}, next := s.next + 1, life := Installing(s.next, s.life.spec)), Spawned(s.next))
  }

  function InstallStep(s: State): (t: State)
    requires s.life.Installing?
    ensures Untouched(s, t)
    ensures t.child == Some(s.life.g) && t.next == s.next && t.life == Saving(s.life.g)
    ensures Rest(s.(spec := Some(s.life.spec)), t)
    ensures LatchFits(s) ==> LatchFits(t)
  {
    s.(child := Some(s.life.g), spec := Some(s.life.spec), stopping := false, starting := false, life := Saving(s.life.g))
  }

  function SaveStep(s: State, ok: bool): (t: State)
    requires s.life.Saving?
    ensures Untouched(s, t)
    ensures t.child == s.child && t.next == s.next && (t.life.Idle? || t.life == Watching(s.life.g))
    ensures Rest(s.(record := if ok then Some(s.life.g) else s.record), t)
    ensures LatchFits(s) ==> LatchFits(t)
  {
    if ok then s.(record := Some(s.life.g), life := Watching(s.life.g)) else s.(life := Idle)
  }

  function WatchStep(s: State, ok: bool): (t: State)
    requires s.life.Watching?
    ensures Rest(s, t)
    ensures LatchFits(s) ==> LatchFits(t)
  {
    var t := s.(life := Idle);
    if ok then MonitorTo(t, s.life.g, Waiting) else t
  }

  // ---- stop, continued ----

  function GuardStep(s: State): (t: State)
    requires s.life.Preparing?
    ensures Untouched(s, t) && t.child == s.child && t.next == s.next && !StartPhase(t.life)
    ensures t.life.Sealing?
    ensures Rest(s, t)
    ensures LatchFits(s) ==> LatchFits(t)
  {
    s.(guardHeld := true, life := Sealing(s.life.g, s.life.after, s.life.force))
  }

  function SealStep(s: State, prepared: Prepared, stats: bool, outbox: bool): (t: State)
    requires s.life.Sealing?
    ensures Untouched(s, t) && t.child == s.child && t.next == s.next && !StartPhase(t.life)
    ensures t.life.Publishing? || t.life.Failing?
    ensures Rest(s, t)
    ensures LatchFits(s) ==> LatchFits(t)
  {
    hide Latched, HasStopReceipt;
    if HasStopReceipt(prepared, stats, s.life.force) && outbox then
      Emit(s, Persisted(s.life.g, AtStop)).(life := Publishing(s.life.g, s.life.after))
    else
      FailStop(s.(guardHeld := false), s.life.g, s.life.after)
  }

  function PublishStep(s: State): (t: State)
    requires s.life.Publishing?
    ensures Untouched(s, t) && t.child == s.child && t.next == s.next && !StartPhase(t.life)
    ensures t.life.Checking?
    ensures Rest(s, t)
    ensures LatchFits(s) ==> LatchFits(t)
  {
    s.(durable := s.durable + {s.life.g}, guardHeld := false, life := Checking(s.life.g, s.life.after))
  }

  /** The reaped event is looked at, or waited for until the timeout. */
  function LookStep(s: State): (t: State)
    requires s.life.Checking? || s.life.Grace? || s.life.Killing?
    ensures Untouched(s, t) && t.child == s.child && t.next == s.next && !StartPhase(t.life)
    ensures t.life.Returning? || (if s.life.Killing? then t.life.Failing? else t.life.Signalling? && t.life.kill == s.life.Grace?)
    ensures Rest(s, t)
    ensures LatchFits(s) ==> LatchFits(t)
  {
    if s.life.g in s.reaped then s.(life := Returning(Some(s.life.g), s.life.after))
    else if s.life.Killing? then FailStop(s, s.life.g, s.life.after)
    else s.(life := Signalling(s.life.g, s.life.after, s.life.Grace?))
  }

  function SignalStep(s: State, sent: bool): (t: State)
    requires s.life.Signalling?
    ensures Untouched(s, t) && t.child == s.child && t.next == s.next && !StartPhase(t.life)
    ensures t.life.Failing? || (if s.life.kill then t.life.Killing? else t.life.Grace?)
    ensures Rest(s, t)
    ensures LatchFits(s) ==> LatchFits(t)
  {
    var t := Emit(s, Signalled(s.life.g));
    if !sent then FailStop(t, s.life.g, s.life.after)
    else t.(life := if s.life.kill then Killing(s.life.g, s.life.after) else Grace(s.life.g, s.life.after))
  }

  function ReturnStep(s: State): (t: State)
    requires s.life.Returning?
    ensures Untouched(s, t) && t.child == s.child && t.next == s.next && !StartPhase(t.life)
    ensures t.life.Idle? || t.life.Spawning?
    ensures Rest(s.(stopRequested := t.stopRequested), t)
    ensures LatchFits(s) ==> LatchFits(t)
  {
    hide Latched;
    var t := Emit(s, StopReturned(s.life.found));
    match s.life.after
    case JustStop => t.(life := Idle)
    case SwitchTo(spec) => ExplicitStartStep(t, spec)
    case Shutdown => Emit(t, ShutdownDone).(life := Idle)
  }

  function RaiseStep(s: State): (t: State)
    requires s.life.Failing?
    ensures Untouched(s, t) && t.child == s.child && t.next == s.next && !StartPhase(t.life)
    ensures t.life.Idle?
    ensures Rest(s.(shutdownRequested := t.shutdownRequested), t)
    ensures LatchFits(s) ==> LatchFits(t)
  {
    s.(shutdownRequested := if s.life.after.Shutdown? then false else s.shutdownRequested, life := Idle)
  }

  // ---- the child and its monitor ----

  function ExitStep(s: State, g: Gen): (t: State)
    ensures t.monitors == s.monitors && t.reaped == s.reaped && t.child == s.child && t.next == s.next && t.life == s.life && t.alive == s.alive - {g}
    ensures Rest(s, t)
    ensures LatchFits(s) ==> LatchFits(t)
  {
    Emit(s.(alive := s.alive - {g}), Exited(g))
  }

  function WakeStep(s: State, g: Gen): (t: State)
    ensures g in t.monitors && t.monitors == s.monitors[g := t.monitors[g]] && t.life == s.life && t.next == s.next
    ensures t.alive == s.alive
    ensures t.monitors[g].Observed? && t.child == s.child && t.reaped == s.reaped
    ensures Rest(s, t)
    ensures LatchFits(s) ==> LatchFits(t)
  {
    MonitorTo(s, g, Observed(s.stopping || s.stopRequested, s.child == Some(g)))
  }

  /** What _persist_crash_accounting writes, under the accounting guard. */
  function Recorded(s: State, g: Gen, outbox: Outbox): (t: State)
    requires g in s.monitors && s.monitors[g].Observed?
    ensures Untouched(s, t) && t.child == s.child && t.next == s.next && t.life == s.life
    ensures Rest(s, t)
    ensures LatchFits(s) ==> LatchFits(t)
  {
    if s.monitors[g].current && g !in s.durable && outbox.Stored? then
      Emit(s, Persisted(g, AtCrash)).(durable := s.durable + {g})
    else s
  }

  /** Where its outcome takes the monitor. */
  function AfterReceipt(s: State, g: Gen, outbox: Outbox): (m: Monitor)
    requires g in s.monitors && s.monitors[g].Observed?
    ensures m.Accounted? || m.ReceiptFailed? || m.Died?
    ensures outbox.Stored? ==> m.Accounted?
  {
    var was := s.monitors[g].wasStopping;
    if !s.monitors[g].current || g in s.durable || outbox.Stored? then Accounted(was)
    else if outbox.Failed? then ReceiptFailed(was)
    else Died
  }

  function CrashStep(s: State, g: Gen, outbox: Outbox): (t: State)
    requires g in s.monitors && s.monitors[g].Observed?
    ensures g in t.monitors && t.monitors == s.monitors[g := t.monitors[g]] && t.life == s.life && t.next == s.next
    ensures t.alive == s.alive
    ensures t.child == s.child && t.reaped == s.reaped
    ensures t.monitors[g].Accounted? || t.monitors[g].ReceiptFailed? || t.monitors[g].Died?
    ensures outbox.Stored? ==> t.monitors[g].Accounted?
    ensures Rest(s, t)
    ensures LatchFits(s) ==> LatchFits(t)
  {
    MonitorTo(Recorded(s, g, outbox), g, AfterReceipt(s, g, outbox))
  }

  function LatchStep(s: State, g: Gen): (t: State)
    requires g in s.monitors && s.monitors[g].ReceiptFailed?
    ensures g in t.monitors && t.monitors == s.monitors[g := t.monitors[g]] && t.life == s.life && t.next == s.next
    ensures t.alive == s.alive
    ensures t.monitors[g].Accounted? && t.child == s.child && t.reaped == s.reaped
    ensures Rest(s.(stopRequested := true), t)
    ensures LatchFits(s) ==> LatchFits(t)
  {
    MonitorTo(Emit(s, OutboxLatched(g)), g, Accounted(s.monitors[g].wasStopping)).(stopRequested := true)
  }

  function ForgetStep(s: State, g: Gen): (t: State)
    requires g in s.monitors && s.monitors[g].Accounted?
    ensures g in t.monitors && t.monitors == s.monitors[g := t.monitors[g]] && t.life == s.life && t.next == s.next
    ensures t.alive == s.alive
    ensures t.monitors[g].Dropped? && t.reaped == s.reaped && (s.child != Some(g) ==> t.child == s.child)
    ensures Rest(s, t)
    ensures LatchFits(s) ==> LatchFits(t)
  {
    var m := Dropped(s.monitors[g].wasStopping, s.child == Some(g));
    if s.child != Some(g) then MonitorTo(s, g, m)
    else MonitorTo(Emit(s, Forgotten(g)), g, m).(child := None, stopping := false)
  }

  function ClearStep(s: State, g: Gen): (t: State)
    requires g in s.monitors && s.monitors[g].Dropped?
    ensures g in t.monitors && t.monitors == s.monitors[g := t.monitors[g]] && t.life == s.life && t.next == s.next
    ensures t.alive == s.alive
    ensures t.monitors[g].Announcing? && t.child == s.child && t.reaped == s.reaped
    ensures Rest(s.(record := if s.monitors[g].current then None else s.record), t)
    ensures LatchFits(s) ==> LatchFits(t)
  {
    var m := Announcing(s.monitors[g].wasStopping, s.monitors[g].current);
    if s.monitors[g].current then MonitorTo(Emit(s, RecordCleared(g)), g, m).(record := None)
    else MonitorTo(s, g, m)
  }

  function AnnounceStep(s: State, g: Gen): (t: State)
    requires g in s.monitors && s.monitors[g].Announcing?
    ensures g in t.monitors && t.monitors == s.monitors[g := t.monitors[g]] && t.life == s.life && t.next == s.next
    ensures t.alive == s.alive
    ensures t.monitors[g].Deciding? && t.child == s.child && t.reaped == s.reaped + {g}
    ensures Rest(s, t)
    ensures LatchFits(s) ==> LatchFits(t)
  {
    MonitorTo(s, g, Deciding(s.monitors[g].wasStopping, s.monitors[g].current)).(reaped := s.reaped + {g})
  }

  function DecideStep(s: State, g: Gen): (t: State)
    requires g in s.monitors && s.monitors[g].Deciding?
    ensures g in t.monitors && t.monitors == s.monitors[g := t.monitors[g]] && t.life == s.life && t.next == s.next
    ensures t.alive == s.alive
    ensures (t.monitors[g].Restarting? || t.monitors[g].Finished?) && t.child == s.child && t.reaped == s.reaped
    ensures Rest(s, t)
    ensures LatchFits(s) ==> LatchFits(t)
  {
    var m := s.monitors[g];
    MonitorTo(s, g, if m.current && !m.wasStopping && s.autoRestart && !s.stopRequested then Restarting else Finished)
  }

  function RelaunchStep(s: State, g: Gen): (t: State)
    ensures g in t.monitors && t.monitors == s.monitors[g := t.monitors[g]] && t.life == s.life && t.next == s.next
    ensures t.alive == s.alive
    ensures t.monitors[g].Finished? && t.child == s.child && t.reaped == s.reaped
    ensures Rest(s.(restarts := t.restarts), t)
    ensures LatchFits(s) ==> LatchFits(t)
  {
    MonitorTo(s, g, Finished).(restarts := if s.spec.Some? then s.restarts + [s.spec.value] else s.restarts)
  }

  // ---- steps ----

  datatype Step =
    | ClientStart(spec: Spec)
    | RestartThread(i: nat)
    | ClientStop(after: After, force: bool)
    | StopAfterLatch
    | SpawnDone(ok: bool)
    | Install
    | Save(ok: bool)
    | Watch(ok: bool)
    | TakeGuard
    | Seal(prepared: Prepared, stats: bool, outbox: bool)
    | Publish
    | Look
    | Signal(sent: bool)
    | Return
    | Raise
    | Exit(g: Gen)
    | Wake(g: Gen)
    | CrashReceipt(g: Gen, stored: Outbox)
    | LatchOutbox(g: Gen)
    | Forget(g: Gen)
    | ClearRecord(g: Gen)
    | Announce(g: Gen)
    | Decide(g: Gen)
    | Relaunch(g: Gen)

  /** A step of the thread that holds _lifecycle, or takes it. */
  predicate LifecycleStep(step: Step) {
    || step.ClientStart? || step.RestartThread? || step.ClientStop? || step.StopAfterLatch? || step.SpawnDone?
    || step.Install? || step.Save? || step.Watch? || step.TakeGuard? || step.Seal? || step.Publish?
    || step.Look? || step.Signal? || step.Return? || step.Raise?
  }

  /** The thread that would take the step is at that point and is not blocked. */
  predicate Enabled(s: State, step: Step) {
    match step
    case ClientStart(_) => s.life.Idle? && !s.starting
    case RestartThread(i) => s.life.Idle? && !s.starting && i < |s.restarts|
    case ClientStop(_, _) => s.life.Idle? && !s.starting
    case StopAfterLatch => s.life.ShuttingDown? && !s.starting
    case SpawnDone(_) => s.life.Spawning?
    case Install => s.life.Installing?
    case Save(_) => s.life.Saving?
    case Watch(_) => s.life.Watching?
    case TakeGuard => s.life.Preparing? && !s.guardHeld
    case Seal(_, _, _) => s.life.Sealing?
    case Publish => s.life.Publishing?
    case Look => s.life.Checking? || s.life.Grace? || s.life.Killing?
    case Signal(_) => s.life.Signalling?
    case Return => s.life.Returning?
    case Raise => s.life.Failing?
    case Exit(g) => g in s.alive
    case Wake(g) => g in s.monitors && s.monitors[g].Waiting? && g !in s.alive
    case CrashReceipt(g, _) =>
      g in s.monitors && s.monitors[g].Observed? && (s.monitors[g].current ==> !s.guardHeld)
    case LatchOutbox(g) => g in s.monitors && s.monitors[g].ReceiptFailed?
    case Forget(g) => g in s.monitors && s.monitors[g].Accounted?
    case ClearRecord(g) => g in s.monitors && s.monitors[g].Dropped?
    case Announce(g) => g in s.monitors && s.monitors[g].Announcing?
    case Decide(g) => g in s.monitors && s.monitors[g].Deciding?
    case Relaunch(g) => g in s.monitors && s.monitors[g].Restarting?
  }

  function Do(s: State, step: Step): State
    requires Enabled(s, step)
  {
    match step
    case ClientStart(spec) => ExplicitStartStep(s, spec)
    case RestartThread(i) => AutoStartStep(s, i)
    case ClientStop(after, force) =>
      if after.Shutdown? then s.(shutdownRequested := true, life := ShuttingDown(force)) else StopStep(s, after, force)
    case StopAfterLatch => StopStep(s, Shutdown, s.life.force)
    case SpawnDone(ok) => SpawnStep(s, ok)
    case Install => InstallStep(s)
    case Save(ok) => SaveStep(s, ok)
    case Watch(ok) => WatchStep(s, ok)
    case TakeGuard => GuardStep(s)
    case Seal(prepared, stats, outbox) => SealStep(s, prepared, stats, outbox)
    case Publish => PublishStep(s)
    case Look => LookStep(s)
    case Signal(sent) => SignalStep(s, sent)
    case Return => ReturnStep(s)
    case Raise => RaiseStep(s)
    case Exit(g) => ExitStep(s, g)
    case Wake(g) => WakeStep(s, g)
    case CrashReceipt(g, outbox) => CrashStep(s, g, outbox)
    case LatchOutbox(g) => LatchStep(s, g)
    case Forget(g) => ForgetStep(s, g)
    case ClearRecord(g) => ClearStep(s, g)
    case Announce(g) => AnnounceStep(s, g)
    case Decide(g) => DecideStep(s, g)
    case Relaunch(g) => RelaunchStep(s, g)
  }

  // ---- the invariant ----

  predicate InStop(life: Life) {
    || life.Preparing? || life.Sealing? || life.Publishing? || life.Checking?
    || life.Signalling? || life.Grace? || life.Killing?
  }

  /** The locks do their work: no spawn is claimed outside a start, and no stop is under way
      outside a stop transaction. */
  predicate Control(s: State) {
    && (s.starting <==> s.life.Spawning? || s.life.Installing?)
    && (s.starting ==> s.child.None?)
    && (s.guardHeld <==> s.life.Sealing? || s.life.Publishing?)
    && (s.stopping ==> InStop(s.life) && s.child == Some(s.life.g))
    && (s.life.Saving? || s.life.Watching? ==> s.child == Some(s.life.g) && s.life.g !in s.monitors)
    && (s.life.Installing? ==> s.life.g < s.next && s.life.g !in s.monitors)
    && (s.life.Returning? ==> s.child.None?)
    && (InStop(s.life) ==> s.life.g < s.next && (s.child.None? || s.child == Some(s.life.g)))
  }

  predicate Past(m: Monitor) {
    m.Announcing? || m.Deciding? || m.Restarting? || m.Finished?
  }

  predicate Announced(m: Monitor) {
    m.Deciding? || m.Restarting? || m.Finished?
  }

  /** What has been done about g by the time its monitor is at m. */
  predicate MonitorFits(s: State, g: Gen, m: Monitor) {
    match m
    case Waiting => s.child == Some(g)
    case Observed(_, current) => current && s.child == Some(g) && g !in s.alive
    case ReceiptFailed(_) => s.child == Some(g) && g !in s.alive
    case Died => s.child == Some(g) && g !in s.alive
    case Accounted(_) => s.child == Some(g) && g !in s.alive && (HasReceipt(s.log, g) || OutboxLatched(g) in s.log)
    case Dropped(_, current) => current && s.child != Some(g) && Forgotten(g) in s.log
    case _ => s.child != Some(g) && Forgotten(g) in s.log && RecordCleared(g) in s.log
  }

  ghost predicate People(s: State) {
    && (forall g <- s.alive :: g < s.next && (s.child == Some(g) || (s.life.Installing? && s.life.g == g)))
    && (s.child.Some? ==> s.child.value < s.next)
    && (forall g <- s.monitors :: g < s.next && MonitorFits(s, g, s.monitors[g]))
    && (forall g <- s.reaped :: g in s.monitors && Announced(s.monitors[g]))
    && (forall g: Gen :: g < s.next ==> g in s.alive || Exited(g) in s.log)
    && (forall g: Gen :: Begun(s.log, g) ==> g < s.next)
  }

  ghost predicate Books(s: State) {
    && (forall g <- s.durable :: HasReceipt(s.log, g))
    && (forall g: Gen :: HasReceipt(s.log, g) ==> g in s.durable || (s.life.Publishing? && s.life.g == g))
    && (InStop(s.life) && !s.life.Preparing? && !s.life.Sealing? ==> Persisted(s.life.g, AtStop) in s.log)
  }

  predicate Latching(s: State) {
    && (!s.stopRequested || s.starting ==> !Latched(s.log))
    && (InStop(s.life) || s.life.Returning? ==> Latched(s.log))
  }

  predicate Closing(s: State) {
    && (ShutdownDone in s.log ==>
          s.shutdownRequested && s.child.None? && (s.life.Idle? || s.life.ShuttingDown? || s.life.Returning?))
    && (s.life.ShuttingDown? ==> s.shutdownRequested)
    && (InStop(s.life) || s.life.Returning? ==> (s.life.after.Shutdown? ==> s.shutdownRequested))
  }

  /** The state file does not name a child that a stop is about to report as gone. */
  predicate Cleared(s: State) {
    && (InStop(s.life) && s.life.g in s.monitors && Past(s.monitors[s.life.g]) ==> s.record.None?)
    && (s.life.Returning? && s.life.found.Some? ==>
          var g := s.life.found.value;
          s.record.None? && Exited(g) in s.log && Forgotten(g) in s.log && RecordCleared(g) in s.log)
  }

  ghost predicate Inv(s: State) {
    Control(s) && People(s) && Books(s) && Latching(s) && Closing(s) && Cleared(s) && Ordered(s.log)
  }

  lemma InitInv(s: State)
    requires Init(s)
    ensures Inv(s)
  {
    assert !Latched([SealedBefore(0)]) && [SealedBefore(0), Adopted(0)][..1] == [SealedBefore(0)];
  }

  // ---- what small changes keep ----

  /** What one more event changes. */
  lemma Snoc(log: Log, e: Event)
    requires Ordered(log) && Justified(log, e)
    ensures Ordered(log + [e])
    ensures forall x :: x in log + [e] <==> x in log || x == e
    ensures forall g: Gen :: Begun(log + [e], g) <==> Begun(log, g) || e == Spawned(g) || e == Adopted(g)
    ensures forall g: Gen :: HasReceipt(log + [e], g) <==>
              HasReceipt(log, g) || e == Persisted(g, AtStop) || e == Persisted(g, AtCrash)
    ensures Latched(log + [e]) == LatchedAfter(Latched(log), e)
  {
    OrderedSnoc(log, e);
    assert (log + [e])[..|log|] == log;
  }

  /** People looks at the lifecycle thread only while it is installing a child, and at no flag. */
  lemma PeopleMove(s: State, t: State)
    requires People(s)
    requires t.alive == s.alive && t.child == s.child && t.monitors == s.monitors && t.reaped == s.reaped
    requires t.next == s.next && t.log == s.log && (t.life == s.life || (!s.life.Installing? && !t.life.Installing?))
    ensures People(t)
  {
    hide Rest, HasReceipt, Begun;
    forall g | g in s.monitors ensures MonitorFits(t, g, t.monitors[g]) {
      assert MonitorFits(s, g, s.monitors[g]);
    }
  }

  /** An event that begins no engine keeps everyone's story straight. */
  lemma PeopleEmit(s: State, e: Event)
    requires People(s) && Ordered(s.log) && Justified(s.log, e) && !e.Spawned? && !e.Adopted?
    ensures People(Emit(s, e))
  {
    hide Rest, Ordered, Latched, HasReceipt, Begun, Justified;
    Snoc(s.log, e);
    var t := Emit(s, e);
    forall g | g in s.monitors ensures MonitorFits(t, g, t.monitors[g]) {
      assert MonitorFits(s, g, s.monitors[g]);
    }
  }

  /** One monitor moves to a place that fits. */
  lemma PeopleMonitor(s: State, g: Gen, m: Monitor)
    requires People(s) && g < s.next && MonitorFits(s, g, m)
    requires g in s.reaped ==> Announced(m)
    ensures People(MonitorTo(s, g, m))
  {
    hide Rest, HasReceipt, Begun;
    var t := MonitorTo(s, g, m);
    forall h | h in t.monitors ensures h < t.next && MonitorFits(t, h, t.monitors[h]) {
      assert h != g ==> MonitorFits(s, h, s.monitors[h]);
    }
  }

  /** What People says of one generation. */
  lemma Fits(s: State, g: Gen)
    requires People(s)
    ensures g in s.monitors ==> g < s.next && MonitorFits(s, g, s.monitors[g])
    ensures g < s.next && g !in s.alive ==> Exited(g) in s.log
    ensures g in s.reaped ==> g in s.monitors && Announced(s.monitors[g])
  {
  }

  /** An event that latches, starts, records and ends nothing. */
  predicate Quiet(e: Event) {
    e.Signalled? || e.Exited? || e.Forgotten? || e.RecordCleared? || e.StopReturned?
  }

  lemma InvEmit(s: State, e: Event)
    requires Inv(s) && Quiet(e) && Justified(s.log, e)
    ensures Inv(Emit(s, e))
  {
    hide Rest, Ordered, Latched, HasReceipt, Begun, Justified, People;
    Snoc(s.log, e);
    PeopleEmit(s, e);
  }

  lemma InvMonitor(s: State, g: Gen, m: Monitor)
    requires Inv(s) && g in s.monitors && MonitorFits(s, g, m)
    requires g in s.reaped ==> Announced(m)
    requires Past(m) ==> Past(s.monitors[g]) || s.record.None?
    ensures Inv(MonitorTo(s, g, m))
  {
    hide Rest, Ordered, Latched, HasReceipt, People, MonitorFits;
    Fits(s, g);
    PeopleMonitor(s, g, m);
  }

  // ---- every step keeps the invariant ----

  lemma KeepClaim(s: State, spec: Spec)
    requires Inv(s) && s.life.Idle? && !s.shutdownRequested && !Latched(s.log)
    ensures Inv(ClaimSpawn(s, spec))
  {
    hide Rest, Ordered, Latched, People, HasReceipt;
    PeopleMove(s, ClaimSpawn(s, spec));
  }

  lemma KeepExplicitStart(s: State, spec: Spec)
    requires Inv(s) && s.life.Idle?
    ensures Inv(ExplicitStartStep(s, spec))
  {
    hide Rest, Ordered, Latched, People, HasReceipt, ClaimSpawn;
    if !s.shutdownRequested {
      Snoc(s.log, ExplicitStart);
      PeopleEmit(s, ExplicitStart);
      var t := Emit(s.(stopRequested := false), ExplicitStart);
      PeopleMove(Emit(s, ExplicitStart), t);
      KeepClaim(t, spec);
    }
  }

  lemma KeepAutoStart(s: State, i: nat)
    requires Inv(s) && s.life.Idle? && i < |s.restarts|
    ensures Inv(AutoStartStep(s, i))
  {
    hide Rest, Ordered, Latched, People, HasReceipt, ClaimSpawn;
    var t := s.(restarts := s.restarts[..i] + s.restarts[i + 1..]);
    PeopleMove(s, t);
    if !s.shutdownRequested && !s.stopRequested {
      KeepClaim(t, s.restarts[i]);
    }
  }

  lemma KeepStop(s: State, after: After, force: bool)
    requires Inv(s) && (s.life.Idle? || s.life.ShuttingDown?) && (after.Shutdown? ==> s.shutdownRequested)
    ensures Inv(StopStep(s, after, force))
  {
    hide Rest, Ordered, Latched, HasReceipt, People;
    KeepStopLatch(s);
    var t := Emit(s.(stopRequested := true), StopLatched);
    PeopleMove(t, StopStep(s, after, force));
    if s.child.Some? {
      ChildBelow(s);
      Fits(s, s.child.value);
    }
  }

  lemma KeepStopLatch(s: State)
    requires Inv(s) && (s.life.Idle? || s.life.ShuttingDown?)
    ensures Inv(Emit(s.(stopRequested := true), StopLatched)) && Latched(s.log + [StopLatched])
  {
    hide Rest, Ordered, Latched, HasReceipt, People;
    Snoc(s.log, StopLatched);
    PeopleEmit(s, StopLatched);
    PeopleMove(Emit(s, StopLatched), Emit(s.(stopRequested := true), StopLatched));
  }

  lemma ChildBelow(s: State)
    requires People(s) && s.child.Some?
    ensures s.child.value < s.next
  {
  }

  lemma KeepShutdownLatch(s: State, force: bool)
    requires Inv(s) && s.life.Idle?
    ensures Inv(s.(shutdownRequested := true, life := ShuttingDown(force)))
  {
    hide Rest, Ordered, Latched, People, HasReceipt;
    PeopleMove(s, s.(shutdownRequested := true, life := ShuttingDown(force)));
  }

  /** Nothing that was ever started is still running when a spawn has been claimed. */
  lemma AllGone(s: State)
    requires People(s) && s.child.None? && !s.life.Installing?
    ensures s.alive == {}
    ensures forall g: Gen :: g < s.next ==> Exited(g) in s.log
    ensures forall g: Gen :: Begun(s.log, g) ==> g < s.next && Exited(g) in s.log
    ensures s.next !in s.monitors && s.next !in s.reaped
  {
    hide Rest, HasReceipt, Begun;
  }

  lemma KeepSpawn(s: State, ok: bool)
    requires Inv(s) && s.life.Spawning?
    ensures Inv(SpawnStep(s, ok))
  {
    hide Rest, Ordered, Latched, HasReceipt, Begun, People;
    AllGone(s);
    if ok {
      Snoc(s.log, Spawned(s.next));
      PeopleSpawn(s);
    } else {
      PeopleMove(s, SpawnStep(s, ok));
    }
  }

  lemma PeopleSpawn(s: State)
    requires People(s) && Ordered(s.log) && s.life.Spawning? && s.child.None? && Justified(s.log, Spawned(s.next))
    ensures People(SpawnStep(s, true))
  {
    hide Rest, Ordered, Latched, HasReceipt, Begun, Justified;
    AllGone(s);
    Snoc(s.log, Spawned(s.next));
    var t := SpawnStep(s, true);
    forall g | g in t.monitors ensures MonitorFits(t, g, t.monitors[g]) {
      assert MonitorFits(s, g, s.monitors[g]);
    }
  }

  lemma KeepInstall(s: State)
    requires Inv(s) && s.life.Installing?
    ensures Inv(InstallStep(s))
  {
    hide Rest, Ordered, Latched, HasReceipt, People;
    PeopleInstall(s);
  }

  lemma PeopleInstall(s: State)
    requires People(s) && s.life.Installing? && s.child.None? && s.life.g < s.next && s.life.g !in s.monitors
    ensures People(InstallStep(s))
  {
    hide Rest, HasReceipt, Begun;
    var t := InstallStep(s);
    forall g | g in t.monitors ensures MonitorFits(t, g, t.monitors[g]) {
      assert MonitorFits(s, g, s.monitors[g]);
    }
  }

  lemma KeepSave(s: State, ok: bool)
    requires Inv(s) && s.life.Saving?
    ensures Inv(SaveStep(s, ok))
  {
    hide Rest, Ordered, Latched, People, HasReceipt;
    PeopleMove(s, SaveStep(s, ok));
  }

  lemma KeepWatch(s: State, ok: bool)
    requires Inv(s) && s.life.Watching?
    ensures Inv(WatchStep(s, ok))
  {
    hide Rest, Ordered, Latched, HasReceipt, People;
    var t := s.(life := Idle);
    PeopleMove(s, t);
    ChildBelow(s);
    Fits(s, s.life.g);
    PeopleMonitor(t, s.life.g, Waiting);
  }

  lemma KeepGuard(s: State)
    requires Inv(s) && s.life.Preparing? && !s.guardHeld
    ensures Inv(GuardStep(s))
  {
    hide Rest, Ordered, Latched, People, HasReceipt;
    PeopleMove(s, GuardStep(s));
  }

  /** A stop that failed, the guard let go. */
  lemma KeepFail(s: State)
    requires Inv(s) && InStop(s.life) && !s.life.Publishing?
    ensures Inv(FailStop(s.(guardHeld := false), s.life.g, s.life.after))
  {
    hide Rest, Ordered, Latched, People, HasReceipt;
    PeopleMove(s, FailStop(s.(guardHeld := false), s.life.g, s.life.after));
  }

  lemma KeepSeal(s: State, prepared: Prepared, stats: bool, outbox: bool)
    requires Inv(s) && s.life.Sealing?
    ensures Inv(SealStep(s, prepared, stats, outbox))
  {
    hide Rest, Ordered, Latched, People, HasStopReceipt, FailStop, HasReceipt;
    if HasStopReceipt(prepared, stats, s.life.force) && outbox {
      Snoc(s.log, Persisted(s.life.g, AtStop));
      PeopleEmit(s, Persisted(s.life.g, AtStop));
      PeopleMove(Emit(s, Persisted(s.life.g, AtStop)), SealStep(s, prepared, stats, outbox));
    } else {
      KeepFail(s);
    }
  }

  lemma KeepPublish(s: State)
    requires Inv(s) && s.life.Publishing?
    ensures Inv(PublishStep(s))
  {
    hide Rest, Ordered, Latched, People;
    PeopleMove(s, PublishStep(s));
  }

  lemma KeepLook(s: State)
    requires Inv(s) && (s.life.Checking? || s.life.Grace? || s.life.Killing?)
    ensures Inv(LookStep(s))
  {
    hide Rest, Ordered, Latched, People, HasReceipt, FailStop;
    Fits(s, s.life.g);
    AliveIsChild(s, s.life.g);
    if s.life.g !in s.reaped && s.life.Killing? {
      assert s == s.(guardHeld := false);
      KeepFail(s);
    } else {
      PeopleMove(s, LookStep(s));
    }
  }

  lemma AliveIsChild(s: State, g: Gen)
    requires People(s)
    ensures g in s.alive && !s.life.Installing? ==> s.child == Some(g)
  {
  }

  lemma KeepSignal(s: State, sent: bool)
    requires Inv(s) && s.life.Signalling?
    ensures Inv(SignalStep(s, sent))
  {
    hide Rest, Ordered, Latched, People, HasReceipt, FailStop;
    InvEmit(s, Signalled(s.life.g));
    var t := Emit(s, Signalled(s.life.g));
    if sent {
      PeopleMove(t, SignalStep(s, sent));
    } else {
      assert t == t.(guardHeld := false);
      KeepFail(t);
    }
  }

  lemma KeepReturn(s: State)
    requires Inv(s) && s.life.Returning?
    ensures Inv(ReturnStep(s))
  {
    hide Rest, Ordered, People, HasReceipt, ExplicitStartStep, Latched;
    InvEmit(s, StopReturned(s.life.found));
    var t := Emit(s, StopReturned(s.life.found));
    if s.life.after.Shutdown? {
      KeepShutdown(t);
    } else {
      var u := t.(life := Idle);
      PeopleMove(t, u);
      if s.life.after.SwitchTo? {
        ExplicitStartIgnoresLife(t, Idle, s.life.after.spec);
        KeepExplicitStart(u, s.life.after.spec);
      }
    }
  }

  lemma ExplicitStartIgnoresLife(s: State, life: Life, spec: Spec)
    ensures ExplicitStartStep(s.(life := life), spec) == ExplicitStartStep(s, spec)
  {
  }

  lemma KeepShutdown(s: State)
    requires Inv(s) && s.life.Returning? && s.life.after.Shutdown?
    ensures Inv(Emit(s, ShutdownDone).(life := Idle))
  {
    hide Rest, Ordered, People, HasReceipt, Latched;
    Snoc(s.log, ShutdownDone);
    PeopleEmit(s, ShutdownDone);
    PeopleMove(Emit(s, ShutdownDone), Emit(s, ShutdownDone).(life := Idle));
  }

  lemma KeepRaise(s: State)
    requires Inv(s) && s.life.Failing?
    ensures Inv(RaiseStep(s))
  {
    hide Rest, Ordered, Latched, People, HasReceipt;
    PeopleMove(s, RaiseStep(s));
  }

  lemma KeepExit(s: State, g: Gen)
    requires Inv(s) && g in s.alive
    ensures Inv(ExitStep(s, g))
  {
    hide Rest, Ordered, Latched, HasReceipt, People;
    InvEmit(s, Exited(g));
    assert Emit(s, Exited(g)).log[|s.log|] == Exited(g);
    PeopleExit(Emit(s, Exited(g)), g);
  }

  lemma PeopleExit(s: State, g: Gen)
    requires People(s) && Exited(g) in s.log
    ensures People(s.(alive := s.alive - {g}))
  {
    hide Rest, HasReceipt, Begun;
    var t := s.(alive := s.alive - {g});
    forall h | h in t.monitors ensures MonitorFits(t, h, t.monitors[h]) {
      assert MonitorFits(s, h, s.monitors[h]);
    }
  }

  lemma KeepWake(s: State, g: Gen)
    requires Inv(s) && g in s.monitors && s.monitors[g].Waiting? && g !in s.alive
    ensures Inv(WakeStep(s, g))
  {
    hide Rest, Ordered, Latched, HasReceipt, People, Control, Books, Latching, Closing, Cleared;
    Fits(s, g);
    InvMonitor(s, g, WakeStep(s, g).monitors[g]);
  }

  /** With the guard free, the set of durable generations is up to date. */
  lemma NoReceipt(s: State, g: Gen)
    requires Books(s) && Control(s) && !s.guardHeld && g !in s.durable
    ensures !HasReceipt(s.log, g)
  {
  }

  lemma KeepCrash(s: State, g: Gen, outbox: Outbox)
    requires Inv(s) && g in s.monitors && s.monitors[g].Observed? && (s.monitors[g].current ==> !s.guardHeld)
    ensures Inv(CrashStep(s, g, outbox))
  {
    hide Rest, Ordered, Latched, People, Control, Latching, Closing, Cleared, HasReceipt;
    Fits(s, g);
    var was := s.monitors[g].wasStopping;
    if g in s.durable {
      InvMonitor(s, g, Accounted(was));
    } else if outbox.Stored? {
      KeepCrashReceipt(s, g);
      InvMonitor(Emit(s, Persisted(g, AtCrash)).(durable := s.durable + {g}), g, Accounted(was));
    } else {
      InvMonitor(s, g, if outbox.Failed? then ReceiptFailed(was) else Died);
    }
  }

  lemma KeepCrashReceipt(s: State, g: Gen)
    requires Inv(s) && g in s.monitors && s.monitors[g].Observed? && !s.guardHeld && g !in s.durable
    ensures Inv(Emit(s, Persisted(g, AtCrash)).(durable := s.durable + {g}))
    ensures var t := Emit(s, Persisted(g, AtCrash)); HasReceipt(t.log, g) && t.child == Some(g) && g !in t.alive
  {
    hide Rest, Ordered, Latched, People;
    Fits(s, g);
    NoReceipt(s, g);
    Snoc(s.log, Persisted(g, AtCrash));
    var t := Emit(s, Persisted(g, AtCrash));
    PeopleEmit(s, Persisted(g, AtCrash));
    PeopleMove(t, t.(durable := s.durable + {g}));
  }

  lemma KeepLatch(s: State, g: Gen)
    requires Inv(s) && g in s.monitors && s.monitors[g].ReceiptFailed?
    ensures Inv(LatchStep(s, g))
  {
    hide Rest, Ordered, Latched, HasReceipt, People;
    Fits(s, g);
    Snoc(s.log, OutboxLatched(g));
    PeopleEmit(s, OutboxLatched(g));
    var t := Emit(s, OutboxLatched(g)).(stopRequested := true);
    PeopleMove(Emit(s, OutboxLatched(g)), t);
    InvMonitor(t, g, Accounted(s.monitors[g].wasStopping));
  }

  lemma KeepForget(s: State, g: Gen)
    requires Inv(s) && g in s.monitors && s.monitors[g].Accounted?
    ensures Inv(ForgetStep(s, g))
  {
    hide Rest, Ordered, Latched, HasReceipt, People;
    Fits(s, g);
    var t := Emit(s, Forgotten(g));
    InvEmit(s, Forgotten(g));
    PeopleForget(t, g, s.monitors[g].wasStopping);
  }

  lemma PeopleForget(s: State, g: Gen, was: bool)
    requires People(s) && g in s.monitors && s.monitors[g].Accounted? && s.child == Some(g) && g !in s.alive
    requires Forgotten(g) in s.log
    ensures People(MonitorTo(s, g, Dropped(was, true)).(child := None, stopping := false))
  {
    hide Rest, HasReceipt, Begun;
    var t := MonitorTo(s, g, Dropped(was, true)).(child := None, stopping := false);
    forall h | h in t.monitors ensures h < t.next && MonitorFits(t, h, t.monitors[h]) {
      assert MonitorFits(s, h, s.monitors[h]);
    }
  }

  lemma KeepClear(s: State, g: Gen)
    requires Inv(s) && g in s.monitors && s.monitors[g].Dropped?
    ensures Inv(ClearStep(s, g))
  {
    hide Rest, Ordered, Latched, HasReceipt, People;
    Fits(s, g);
    InvEmit(s, RecordCleared(g));
    var t := Emit(s, RecordCleared(g)).(record := None);
    PeopleMove(Emit(s, RecordCleared(g)), t);
    assert t.log[|s.log|] == RecordCleared(g);
    assert Forgotten(g) in t.log;
    InvMonitor(t, g, Announcing(s.monitors[g].wasStopping, true));
  }

  lemma KeepAnnounce(s: State, g: Gen)
    requires Inv(s) && g in s.monitors && s.monitors[g].Announcing?
    ensures Inv(AnnounceStep(s, g))
  {
    hide Rest, Ordered, Latched, HasReceipt, People;
    Fits(s, g);
    var m := Deciding(s.monitors[g].wasStopping, s.monitors[g].current);
    InvMonitor(s, g, m);
    PeopleReaped(MonitorTo(s, g, m), g);
  }

  lemma PeopleReaped(s: State, g: Gen)
    requires People(s) && g in s.monitors && Announced(s.monitors[g])
    ensures People(s.(reaped := s.reaped + {g}))
  {
    hide Rest, HasReceipt, Begun;
    var t := s.(reaped := s.reaped + {g});
    forall h | h in t.monitors ensures MonitorFits(t, h, t.monitors[h]) {
      assert MonitorFits(s, h, s.monitors[h]);
    }
  }

  lemma KeepDecide(s: State, g: Gen)
    requires Inv(s) && g in s.monitors && s.monitors[g].Deciding?
    ensures Inv(DecideStep(s, g))
  {
    hide Rest, Ordered, Latched, HasReceipt, People, Control, Books, Latching, Closing, Cleared;
    Fits(s, g);
    InvMonitor(s, g, DecideStep(s, g).monitors[g]);
  }

  lemma KeepRelaunch(s: State, g: Gen)
    requires Inv(s) && g in s.monitors && s.monitors[g].Restarting?
    ensures Inv(RelaunchStep(s, g))
  {
    hide Rest, Ordered, Latched, HasReceipt, People;
    Fits(s, g);
    InvMonitor(s, g, Finished);
    PeopleMove(MonitorTo(s, g, Finished), RelaunchStep(s, g));
  }

  lemma KeepLifecycle(s: State, step: Step)
    requires Inv(s) && Enabled(s, step) && LifecycleStep(step)
    ensures Inv(Do(s, step))
  {
    hide Rest, Inv, ExplicitStartStep, AutoStartStep, StopStep, SpawnStep, InstallStep, SaveStep, WatchStep, GuardStep,
      SealStep, PublishStep, LookStep, SignalStep, ReturnStep, RaiseStep;
    match step
    case ClientStart(spec) => KeepExplicitStart(s, spec);
    case RestartThread(i) => KeepAutoStart(s, i);
    case ClientStop(after, force) =>
      if after.Shutdown? { KeepShutdownLatch(s, force); } else { KeepStop(s, after, force); }
    case StopAfterLatch => ShutdownLatched(s); KeepStop(s, Shutdown, s.life.force);
    case SpawnDone(ok) => KeepSpawn(s, ok);
    case Install => KeepInstall(s);
    case Save(ok) => KeepSave(s, ok);
    case Watch(ok) => KeepWatch(s, ok);
    case TakeGuard => KeepGuard(s);
    case Seal(prepared, stats, outbox) => KeepSeal(s, prepared, stats, outbox);
    case Publish => KeepPublish(s);
    case Look => KeepLook(s);
    case Signal(sent) => KeepSignal(s, sent);
    case Return => KeepReturn(s);
    case Raise => KeepRaise(s);
  }

  lemma ShutdownLatched(s: State)
    requires Inv(s) && s.life.ShuttingDown?
    ensures s.shutdownRequested
  {
  }

  lemma KeepMonitors(s: State, step: Step)
    requires Inv(s) && Enabled(s, step) && !LifecycleStep(step)
    ensures Inv(Do(s, step))
  {
    hide Rest, Inv, ExitStep, WakeStep, CrashStep, LatchStep, ForgetStep, ClearStep, AnnounceStep, DecideStep, RelaunchStep;
    match step
    case Exit(g) => KeepExit(s, g);
    case Wake(g) => KeepWake(s, g);
    case CrashReceipt(g, outbox) => KeepCrash(s, g, outbox);
    case LatchOutbox(g) => KeepLatch(s, g);
    case Forget(g) => KeepForget(s, g);
    case ClearRecord(g) => KeepClear(s, g);
    case Announce(g) => KeepAnnounce(s, g);
    case Decide(g) => KeepDecide(s, g);
    case Relaunch(g) => KeepRelaunch(s, g);
  }

  lemma KeepStep(s: State, step: Step)
    requires Inv(s) && Enabled(s, step)
    ensures Inv(Do(s, step))
  {
    hide Rest, Inv, Do, Enabled;
    if LifecycleStep(step) { KeepLifecycle(s, step); } else { KeepMonitors(s, step); }
  }

  // ---- over whole runs ----

  /** A run: from boot, any thread that can move moves next. */
  ghost predicate Run(states: seq<State>, steps: seq<Step>) {
    && |states| == |steps| + 1 && Init(states[0])
    && forall i :: 0 <= i < |steps| ==> Enabled(states[i], steps[i]) && states[i + 1] == Do(states[i], steps[i])
  }

  /** Every state of every run satisfies the invariant. */
  lemma {:induction false} RunInv(states: seq<State>, steps: seq<Step>, i: nat)
    requires Run(states, steps) && i < |states|
    ensures Inv(states[i])
  {
    hide Rest, Inv, Init, Do, Enabled;
    if i == 0 {
      InitInv(states[0]);
    } else {
      RunInv(states, steps, i - 1);
      KeepStep(states[i - 1], steps[i - 1]);
    }
  }

  /** A latch holds until an explicit start. */
  lemma {:induction false} LatchHolds(log: Log, i: nat, k: nat)
    requires i <= k <= |log| && Latched(log[..i])
    requires forall j :: i <= j < k ==> log[j] != ExplicitStart
    ensures Latched(log[..k])
  {
    if i < k {
      LatchHolds(log, i, k - 1);
      assert log[..k][..k - 1] == log[..k - 1];
    }
  }

  ghost predicate Earlier(log: Log, k: nat, e: Event) {
    exists j :: 0 <= j < k < |log| && log[j] == e
  }

  lemma Before(log: Log, k: nat, e: Event)
    requires k < |log| && e in log[..k]
    ensures Earlier(log, k, e)
  {
    var j: nat :| j < k && log[..k][j] == e;
    assert log[j] == e;
  }

  lemma EarlierIsBefore(log: Log, k: nat, e: Event)
    requires k < |log|
    ensures Earlier(log, k, e) ==> e in log[..k]
  {
    if Earlier(log, k, e) {
      var j: nat :| j < k && log[j] == e;
      assert log[..k][j] == e;
    }
  }

  /** No stop signal, SIGTERM or SIGKILL, forced or retried, is sent to an engine before a stop receipt
      for it is durable. */
  lemma SignalOnlyAfterReceipt(states: seq<State>, steps: seq<Step>, i: nat, k: nat, g: Gen)
    requires Run(states, steps) && i < |states| && k < |states[i].log| && states[i].log[k] == Signalled(g)
    ensures Earlier(states[i].log, k, Persisted(g, AtStop))
  {
    hide Rest, Run;
    RunInv(states, steps, i);
    var log := states[i].log;
    assert Justified(log[..k], log[k]);
    Before(log, k, Persisted(g, AtStop));
  }

  /** A crash receipt is only for a dead engine, and in one life of the daemon never follows a stop receipt for the
      same one. */
  lemma CrashReceiptNeverAfterStop(states: seq<State>, steps: seq<Step>, i: nat, k: nat, g: Gen)
    requires Run(states, steps) && i < |states| && k < |states[i].log| && states[i].log[k] == Persisted(g, AtCrash)
    ensures Earlier(states[i].log, k, Exited(g)) && !Earlier(states[i].log, k, Persisted(g, AtStop))
  {
    hide Rest, Run;
    RunInv(states, steps, i);
    var log := states[i].log;
    assert Justified(log[..k], log[k]);
    Before(log, k, Exited(g));
    EarlierIsBefore(log, k, Persisted(g, AtStop));
  }

  /** Which engines have receipts is not remembered over the daemon's lives. A crash receipt follows a stop receipt of
      the same engine exactly when the engine was adopted and an earlier life had stored one. */
  lemma CrashReceiptAfterStopExactlyWhen(states: seq<State>, steps: seq<Step>, i: nat, k: nat, g: Gen)
    requires Run(states, steps) && i < |states| && k < |states[i].log| && states[i].log[k] == Persisted(g, AtCrash)
    ensures Earlier(states[i].log, k, Persisted(g, AtStop)) || Earlier(states[i].log, k, SealedBefore(g))
       <==> states[i].log[0] == SealedBefore(g)
  {
    hide Rest, Run;
    RunInv(states, steps, i);
    CrashReceiptNeverAfterStop(states, steps, i, k, g);
    var log := states[i].log;
    if j: nat :| j < k && log[j] == SealedBefore(g) {
      assert Justified(log[..j], log[j]);
    }
  }

  /** Such a run: the adopted engine, its stop receipt stored before the daemon was restarted, exits. */
  lemma CrashReceiptMayFollow(spec: Spec) returns (states: seq<State>, steps: seq<Step>)
    ensures Run(states, steps) && |states| == 4
    ensures states[3].log == [SealedBefore(0), Adopted(0), Exited(0), Persisted(0, AtCrash)]
  {
    hide Do, Enabled;
    var s0 := State(Some(0), Some(spec), false, false, false, false, Some(0), {0}, 1, false, {}, {}, Idle,
                    map[0 := Waiting], [], true, [SealedBefore(0), Adopted(0)]);
    Exits(s0, 0);
    var s1 := Do(s0, Exit(0));
    Wakes(s1, 0);
    var s2 := Do(s1, Wake(0));
    Accounts(s2, 0);
    states, steps := [s0, s1, s2, Do(s2, CrashReceipt(0, Stored))], [Exit(0), Wake(0), CrashReceipt(0, Stored)];
  }

  lemma Exits(s: State, g: Gen)
    requires g in s.alive
    ensures Enabled(s, Exit(g)) && Do(s, Exit(g)) == s.(alive := s.alive - {g}, log := s.log + [Exited(g)])
  {
  }

  lemma Wakes(s: State, g: Gen)
    requires g in s.monitors && s.monitors[g].Waiting? && g !in s.alive
    ensures Enabled(s, Wake(g))
    ensures Do(s, Wake(g)) == s.(monitors := s.monitors[g := Observed(s.stopping || s.stopRequested, s.child == Some(g))])
  {
  }

  lemma Accounts(s: State, g: Gen)
    requires g in s.monitors && s.monitors[g].Observed? && s.monitors[g].current && !s.guardHeld && g !in s.durable
    ensures Enabled(s, CrashReceipt(g, Stored))
    ensures Do(s, CrashReceipt(g, Stored)) == s.(durable := s.durable + {g}, log := s.log + [Persisted(g, AtCrash)],
                                                 monitors := s.monitors[g := Accounted(s.monitors[g].wasStopping)])
  {
  }

  /** An engine is forgotten dead, with a receipt, or with the latch the failed outbox set. */
  lemma ForgottenIsAccounted(states: seq<State>, steps: seq<Step>, i: nat, k: nat, g: Gen)
    requires Run(states, steps) && i < |states| && k < |states[i].log| && states[i].log[k] == Forgotten(g)
    ensures Earlier(states[i].log, k, Exited(g))
    ensures Earlier(states[i].log, k, Persisted(g, AtStop)) || Earlier(states[i].log, k, Persisted(g, AtCrash))
         || Earlier(states[i].log, k, OutboxLatched(g))
  {
    hide Rest, Run;
    RunInv(states, steps, i);
    var log := states[i].log;
    assert Justified(log[..k], log[k]);
    Before(log, k, Exited(g));
    if Persisted(g, AtStop) in log[..k] { Before(log, k, Persisted(g, AtStop)); }
    else if Persisted(g, AtCrash) in log[..k] { Before(log, k, Persisted(g, AtCrash)); }
    else { Before(log, k, OutboxLatched(g)); }
  }

  predicate Latches(e: Event) {
    e.StopLatched? || e.OutboxLatched? || e.StopReturned?
  }

  /** Between a stop, requested or returned, or a failed crash receipt, and the next engine, there is an
      explicit start: no automatic restart slips in. */
  lemma NoSpawnUntilExplicitStart(states: seq<State>, steps: seq<Step>, i: nat, j: nat, k: nat)
    requires Run(states, steps) && i < |states| && j < k < |states[i].log|
    requires Latches(states[i].log[j]) && states[i].log[k].Spawned?
    ensures exists m :: j < m < k && states[i].log[m] == ExplicitStart
  {
    hide Rest, Run;
    RunInv(states, steps, i);
    var log := states[i].log;
    assert Justified(log[..j], log[j]) && Justified(log[..k], log[k]);
    assert log[..j + 1][..j] == log[..j];
    assert Latched(log[..j + 1]);
    if forall m :: j < m < k ==> log[m] != ExplicitStart {
      LatchHolds(log, j + 1, k);
    }
  }

  /** Every engine begun before a spawn had exited by then: there is never more than one. */
  lemma SpawnOnlyWhenAllGone(states: seq<State>, steps: seq<Step>, i: nat, j: nat, k: nat, g: Gen)
    requires Run(states, steps) && i < |states| && j < k < |states[i].log|
    requires states[i].log[j] == Spawned(g) || states[i].log[j] == Adopted(g)
    requires states[i].log[k].Spawned?
    ensures states[i].log[k] != Spawned(g) && Earlier(states[i].log, k, Exited(g))
  {
    hide Rest, Run;
    RunInv(states, steps, i);
    var log := states[i].log;
    assert Justified(log[..k], log[k]);
    assert log[..k][j] == log[j];
    assert Begun(log[..k], g);
    Before(log, k, Exited(g));
  }

  lemma AtMostOneAlive(states: seq<State>, steps: seq<Step>, i: nat, g: Gen, h: Gen)
    requires Run(states, steps) && i < |states| && g in states[i].alive && h in states[i].alive
    ensures g == h
  {
    hide Rest, Run;
    RunInv(states, steps, i);
  }

  /** After a successful shutdown nothing is spawned, whatever was queued. */
  lemma NoSpawnAfterShutdown(states: seq<State>, steps: seq<Step>, i: nat, j: nat, k: nat)
    requires Run(states, steps) && i < |states| && j < k < |states[i].log|
    requires states[i].log[j] == ShutdownDone
    ensures !states[i].log[k].Spawned?
  {
    hide Rest, Run;
    RunInv(states, steps, i);
    var log := states[i].log;
    assert Justified(log[..k], log[k]);
    assert log[..k][j] == log[j];
  }

  /** When a stop returns no engine is alive; the one it found has exited, is forgotten, and the state
      file no longer names it. */
  lemma StopLeavesNothing(states: seq<State>, steps: seq<Step>, i: nat)
    requires Run(states, steps) && i < |states| && states[i].life.Returning?
    ensures states[i].alive == {} && states[i].child.None?
    ensures states[i].life.found.Some? ==>
              var g := states[i].life.found.value;
              && states[i].record.None?
              && Exited(g) in states[i].log && Forgotten(g) in states[i].log && RecordCleared(g) in states[i].log
  {
    hide Rest, Run;
    RunInv(states, steps, i);
    AllGone(states[i]);
  }

  /** The next step of the thread holding _lifecycle, the outcome chosen freely. */
  function NextOf(life: Life): (step: Option<Step>) {
    match life
    case Idle => None
    case Spawning(_) => Some(SpawnDone(false))
    case Installing(_, _) => Some(Install)
    case Saving(_) => Some(Save(true))
    case Watching(_) => Some(Watch(true))
    case ShuttingDown(_) => Some(StopAfterLatch)
    case Preparing(_, _, _) => Some(TakeGuard)
    case Sealing(_, _, _) => Some(Seal(Unavailable, false, false))
    case Publishing(_, _) => Some(Publish)
    case Checking(_, _) => Some(Look)
    case Signalling(_, _, _) => Some(Signal(true))
    case Grace(_, _) => Some(Look)
    case Killing(_, _) => Some(Look)
    case Returning(_, _) => Some(Return)
    case Failing(_) => Some(Raise)
  }

  /** The holder of _lifecycle is never stuck on a condition or a lock, and with _lifecycle free a start
      or a stop is never made to wait for a spawn in flight. */
  lemma NobodyIsStuck(states: seq<State>, steps: seq<Step>, i: nat)
    requires Run(states, steps) && i < |states|
    ensures NextOf(states[i].life).Some? ==> Enabled(states[i], NextOf(states[i].life).value)
    ensures NextOf(states[i].life).None? ==> forall spec: Spec :: Enabled(states[i], ClientStart(spec))
    ensures NextOf(states[i].life).None? ==> forall force: bool :: Enabled(states[i], ClientStop(JustStop, force))
    ensures forall g <- states[i].monitors :: states[i].monitors[g].Observed? && states[i].guardHeld ==>
              states[i].life.Sealing? || states[i].life.Publishing?
  {
    hide Rest, Run, People, Ordered, Latched;
    RunInv(states, steps, i);
  }

  /** A stop that has the guard fails closed exactly when the receipt could not be stored, or, without force,
      when the engine refused or nothing could be learned from it. Then nothing has been signalled, the child
      is visible for a retry, and the stop latch stays; otherwise its receipt is durable. */
  lemma StopFailsClosed(states: seq<State>, steps: seq<Step>, i: nat)
    requires Run(states, steps) && i < |steps| && steps[i].Seal?
    ensures states[i].life.Sealing?
    ensures var s, t, step := states[i], states[i + 1], steps[i];
      && (t.life.Failing? <==>
            !step.outbox || (!s.life.force && (step.prepared.Rejected? || (step.prepared.Unavailable? && !step.stats))))
      && (t.life.Failing? ==>
            t.log == s.log && t.child == s.child && !t.stopping && !t.guardHeld && t.stopRequested && Latched(t.log))
      && (!t.life.Failing? ==> t.life.Publishing? && t.log == s.log + [Persisted(s.life.g, AtStop)])
  {
    hide Rest, Inv, Latched;
    RunInv(states, steps, i);
    var s := states[i];
    assert states[i + 1] == SealStep(s, steps[i].prepared, steps[i].stats, steps[i].outbox);
    InSealing(s);
  }

  lemma InSealing(s: State)
    requires Inv(s) && s.life.Sealing?
    ensures s.stopRequested && Latched(s.log) && (s.stopping ==> s.child == Some(s.life.g))
  {
    hide Rest, People, Ordered, Latched;
  }
}
