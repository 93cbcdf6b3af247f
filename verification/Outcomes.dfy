// What a start, a crash, a stop and a switch come to when nothing fails in between: runs that take each to its
// end from any state in which it can begin.
module Outcomes {
  import opened Basics
  import opened Supervisor
  import opened Replacement

  lemma {:induction false} ThenMore(s: State, p: seq<Step>, q: seq<Step>)
    requires CanRun(s, p) && CanRun(Then(s, p), q)
    ensures CanRun(s, p + q) && Then(s, p + q) == Then(Then(s, p), q)
    decreases |p|
  {
    hide Do, Enabled;
    if p == [] {
      assert p + q == q;
    } else {
      ThenMore(Do(s, p[0]), p[1..], q);
      First(s, p[0], p[1..] + q);
      assert p + q == [p[0]] + (p[1..] + q);
    }
  }

  lemma One(s: State, step: Step)
    requires Enabled(s, step)
    ensures CanRun(s, [step]) && Then(s, [step]) == Do(s, step)
  {
    hide Do, Enabled;
    First(s, step, []);
    assert [step] + [] == [step];
  }

  // ---- single steps ----

  lemma Spawns(s: State)
    requires s.life.Spawning?
    ensures Enabled(s, SpawnDone(true))
    ensures Do(s, SpawnDone(true)) ==
      s.(alive := s.alive + {s.next}, next := s.next + 1, log := s.log + [Spawned(s.next)], life := Installing(s.next, s.life.spec))
  {
  }

  lemma Installs(s: State)
    requires s.life.Installing?
    ensures Enabled(s, Install)
    ensures Do(s, Install) ==
      s.(child := Some(s.life.g), spec := Some(s.life.spec), stopping := false, starting := false, life := Saving(s.life.g))
  {
  }

  lemma Saves(s: State)
    requires s.life.Saving?
    ensures Enabled(s, Save(true)) && Do(s, Save(true)) == s.(record := Some(s.life.g), life := Watching(s.life.g))
  {
  }

  lemma Watches(s: State)
    requires s.life.Watching?
    ensures Enabled(s, Watch(true)) && Do(s, Watch(true)) == s.(monitors := s.monitors[s.life.g := Waiting], life := Idle)
  {
  }

  lemma Forgets(s: State, g: Gen)
    requires g in s.monitors && s.monitors[g].Accounted? && s.child == Some(g)
    ensures Enabled(s, Forget(g))
    ensures Do(s, Forget(g)) == s.(child := None, stopping := false, log := s.log + [Forgotten(g)],
                                   monitors := s.monitors[g := Dropped(s.monitors[g].wasStopping, true)])
  {
  }

  lemma Unnames(s: State, g: Gen)
    requires g in s.monitors && s.monitors[g].Dropped? && s.monitors[g].current
    ensures Enabled(s, ClearRecord(g))
    ensures Do(s, ClearRecord(g)) == s.(record := None, log := s.log + [RecordCleared(g)],
                                        monitors := s.monitors[g := Announcing(s.monitors[g].wasStopping, true)])
  {
  }

  lemma Announces(s: State, g: Gen)
    requires g in s.monitors && s.monitors[g].Announcing?
    ensures Enabled(s, Announce(g))
    ensures Do(s, Announce(g)) == s.(reaped := s.reaped + {g},
                                     monitors := s.monitors[g := Deciding(s.monitors[g].wasStopping, s.monitors[g].current)])
  {
  }

  // ---- a start ----

  const STARTING: seq<Step> := [SpawnDone(true), Install, Save(true), Watch(true)]

  /** g is up: the current engine, serving spec, alive, named in the state file and watched. */
  predicate Serves(s: State, g: Gen, spec: Spec) {
    && s.child == Some(g) && s.spec == Some(spec) && g in s.alive && s.record == Some(g)
    && g in s.monitors && s.monitors[g] == Waiting && s.life == Idle && !s.stopping && !s.starting
  }

  lemma StartingServes(s: State, spec: Spec)
    requires s.life == Spawning(spec)
    ensures CanRun(s, STARTING) && Serves(Then(s, STARTING), s.next, spec)
    ensures var t := Then(s, STARTING);
            t == s.(alive := s.alive + {s.next}, next := s.next + 1, log := t.log, child := Some(s.next), spec := Some(spec),
                    stopping := false, starting := false, record := Some(s.next),
                    monitors := s.monitors[s.next := Waiting], life := Idle)
  {
    hide Do, Enabled, CanRun, Then;
    Spawns(s);
    var s1 := Do(s, SpawnDone(true));
    Installs(s1);
    var s2 := Do(s1, Install);
    Saves(s2);
    var s3 := Do(s2, Save(true));
    Watches(s3);
    One(s3, Watch(true));
    First(s2, Save(true), [Watch(true)]);
    First(s1, Install, [Save(true)] + [Watch(true)]);
    First(s, SpawnDone(true), [Install] + ([Save(true)] + [Watch(true)]));
    assert [SpawnDone(true)] + ([Install] + ([Save(true)] + [Watch(true)])) == STARTING;
  }

  lemma Claims(s: State, spec: Spec)
    requires s.life == Idle && !s.starting && !s.shutdownRequested && s.child == None
    ensures Enabled(s, ClientStart(spec))
    ensures Do(s, ClientStart(spec)) ==
      s.(stopRequested := false, log := s.log + [ExplicitStart], starting := true, life := Spawning(spec))
  {
  }

  /** With no engine and admission open, a start brings up the model asked for. */
  lemma StartServes(s: State, spec: Spec)
    requires s.life == Idle && !s.starting && !s.shutdownRequested && s.child == None
    ensures CanRun(s, [ClientStart(spec)] + STARTING) && Serves(Then(s, [ClientStart(spec)] + STARTING), s.next, spec)
    ensures var t := Then(s, [ClientStart(spec)] + STARTING);
            && t.monitors == s.monitors[s.next := Waiting] && t.restarts == s.restarts && !t.stopRequested
  {
    hide Do, Enabled, CanRun, Then;
    Claims(s, spec);
    StartingServes(Do(s, ClientStart(spec)), spec);
    First(s, ClientStart(spec), STARTING);
  }

  // ---- a death ----

  function Dying(g: Gen): seq<Step> {
    [Exit(g), Wake(g), CrashReceipt(g, Stored), Forget(g), ClearRecord(g), Announce(g)]
  }

  /** g is gone: no longer current, forgotten by the state file, reaped, its monitor about to decide. */
  predicate Gone(s: State, t: State, g: Gen) {
    && t.child == None && t.record == None && t.reaped == s.reaped + {g} && t.alive == s.alive - {g} && !t.stopping
    && t.monitors == s.monitors[g := Deciding(s.stopping || s.stopRequested, true)]
    && t.life == s.life && t.next == s.next && t.starting == s.starting && t.guardHeld == s.guardHeld
    && t.spec == s.spec && t.autoRestart == s.autoRestart && t.restarts == s.restarts
    && t.shutdownRequested == s.shutdownRequested && t.stopRequested == s.stopRequested
  }

  lemma HasReceiptAlready(s: State, g: Gen)
    requires g in s.monitors && s.monitors[g].Observed? && s.monitors[g].current && !s.guardHeld && g in s.durable
    ensures Enabled(s, CrashReceipt(g, Stored))
    ensures Do(s, CrashReceipt(g, Stored)) == s.(monitors := s.monitors[g := Accounted(s.monitors[g].wasStopping)])
  {
  }

  lemma Noticed(s: State, g: Gen)
    requires s.child == Some(g) && g in s.alive && g in s.monitors && s.monitors[g] == Waiting && !s.guardHeld
    ensures CanRun(s, [Exit(g), Wake(g), CrashReceipt(g, Stored)])
    ensures var t := Then(s, [Exit(g), Wake(g), CrashReceipt(g, Stored)]);
            t == s.(alive := s.alive - {g}, log := t.log, durable := t.durable,
                    monitors := s.monitors[g := Accounted(s.stopping || s.stopRequested)])
  {
    hide Do, Enabled, CanRun, Then;
    Exits(s, g);
    var s1 := Do(s, Exit(g));
    Wakes(s1, g);
    var s2 := Do(s1, Wake(g));
    if g in s2.durable { HasReceiptAlready(s2, g); } else { Accounts(s2, g); }
    One(s2, CrashReceipt(g, Stored));
    First(s1, Wake(g), [CrashReceipt(g, Stored)]);
    First(s, Exit(g), [Wake(g)] + [CrashReceipt(g, Stored)]);
    assert [Exit(g)] + ([Wake(g)] + [CrashReceipt(g, Stored)]) == [Exit(g), Wake(g), CrashReceipt(g, Stored)];
  }

  lemma Buried(s: State, g: Gen)
    requires s.child == Some(g) && g in s.monitors && s.monitors[g].Accounted?
    ensures CanRun(s, [Forget(g), ClearRecord(g), Announce(g)])
    ensures var t := Then(s, [Forget(g), ClearRecord(g), Announce(g)]);
            t == s.(child := None, stopping := false, record := None, log := t.log, reaped := s.reaped + {g},
                    monitors := s.monitors[g := Deciding(s.monitors[g].wasStopping, true)])
  {
    hide Do, Enabled, CanRun, Then;
    Forgets(s, g);
    var s1 := Do(s, Forget(g));
    Unnames(s1, g);
    var s2 := Do(s1, ClearRecord(g));
    Announces(s2, g);
    One(s2, Announce(g));
    First(s1, ClearRecord(g), [Announce(g)]);
    First(s, Forget(g), [ClearRecord(g)] + [Announce(g)]);
    assert [Forget(g)] + ([ClearRecord(g)] + [Announce(g)]) == [Forget(g), ClearRecord(g), Announce(g)];
  }

  lemma Dies(s: State, g: Gen)
    requires s.child == Some(g) && g in s.alive && g in s.monitors && s.monitors[g] == Waiting && !s.guardHeld
    ensures CanRun(s, Dying(g)) && Gone(s, Then(s, Dying(g)), g)
  {
    hide Do, Enabled, CanRun, Then;
    Noticed(s, g);
    var t := Then(s, [Exit(g), Wake(g), CrashReceipt(g, Stored)]);
    Buried(t, g);
    ThenMore(s, [Exit(g), Wake(g), CrashReceipt(g, Stored)], [Forget(g), ClearRecord(g), Announce(g)]);
    assert [Exit(g), Wake(g), CrashReceipt(g, Stored)] + [Forget(g), ClearRecord(g), Announce(g)] == Dying(g);
  }

  // ---- a crash ----

  lemma Decides(s: State, g: Gen)
    requires g in s.monitors && s.monitors[g] == Deciding(false, true) && s.autoRestart && !s.stopRequested
    ensures Enabled(s, Decide(g)) && Do(s, Decide(g)) == s.(monitors := s.monitors[g := Restarting])
  {
  }

  lemma Relaunches(s: State, g: Gen)
    requires g in s.monitors && s.monitors[g] == Restarting && s.spec.Some?
    ensures Enabled(s, Relaunch(g))
    ensures Do(s, Relaunch(g)) == s.(monitors := s.monitors[g := Finished], restarts := s.restarts + [s.spec.value])
  {
  }

  lemma Restarts(s: State, i: nat)
    requires s.life == Idle && !s.starting && !s.shutdownRequested && !s.stopRequested && s.child == None && i < |s.restarts|
    ensures Enabled(s, RestartThread(i))
    ensures Do(s, RestartThread(i)) ==
      s.(restarts := s.restarts[..i] + s.restarts[i + 1..], starting := true, life := Spawning(s.restarts[i]))
  {
  }

  /** An engine that crashes while no stop was asked for is replaced by one that serves the same model. */
  lemma CrashIsAnswered(s: State, g: Gen, spec: Spec) returns (path: seq<Step>)
    requires Serves(s, g, spec) && !s.guardHeld && !s.stopRequested && !s.shutdownRequested && s.autoRestart
    ensures CanRun(s, path) && Dying(g) <= path && Serves(Then(s, path), s.next, spec)
  {
    hide Do, Enabled, CanRun, Then;
    Dies(s, g);
    var t := Then(s, Dying(g));
    Decides(t, g);
    var t1 := Do(t, Decide(g));
    Relaunches(t1, g);
    var t2 := Do(t1, Relaunch(g));
    var i := |s.restarts|;
    Restarts(t2, i);
    var t3 := Do(t2, RestartThread(i));
    StartingServes(t3, spec);
    First(t2, RestartThread(i), STARTING);
    First(t1, Relaunch(g), [RestartThread(i)] + STARTING);
    First(t, Decide(g), [Relaunch(g)] + ([RestartThread(i)] + STARTING));
    path := Dying(g) + ([Decide(g)] + ([Relaunch(g)] + ([RestartThread(i)] + STARTING)));
    ThenMore(s, Dying(g), [Decide(g)] + ([Relaunch(g)] + ([RestartThread(i)] + STARTING)));
  }

  // ---- a stop ----

  lemma Stops(s: State, g: Gen, after: After, force: bool)
    requires s.life == Idle && !s.starting && s.child == Some(g) && !after.Shutdown?
    ensures Enabled(s, ClientStop(after, force))
    ensures Do(s, ClientStop(after, force)) ==
      s.(stopRequested := true, log := s.log + [StopLatched], stopping := true, life := Preparing(g, after, force))
  {
  }

  lemma Guards(s: State)
    requires s.life.Preparing? && !s.guardHeld
    ensures Enabled(s, TakeGuard)
    ensures Do(s, TakeGuard) == s.(guardHeld := true, life := Sealing(s.life.g, s.life.after, s.life.force))
  {
  }

  lemma Seals(s: State)
    requires s.life.Sealing?
    ensures Enabled(s, Seal(Sealed, true, true))
    ensures Do(s, Seal(Sealed, true, true)) ==
      s.(log := s.log + [Persisted(s.life.g, AtStop)], life := Publishing(s.life.g, s.life.after))
  {
  }

  lemma Publishes(s: State)
    requires s.life.Publishing?
    ensures Enabled(s, Publish)
    ensures Do(s, Publish) == s.(durable := s.durable + {s.life.g}, guardHeld := false, life := Checking(s.life.g, s.life.after))
  {
  }

  lemma Looks(s: State)
    requires s.life.Checking? && s.life.g !in s.reaped
    ensures Enabled(s, Look) && Do(s, Look) == s.(life := Signalling(s.life.g, s.life.after, false))
  {
  }

  lemma Terms(s: State)
    requires s.life.Signalling? && !s.life.kill
    ensures Enabled(s, Signal(true))
    ensures Do(s, Signal(true)) == s.(log := s.log + [Signalled(s.life.g)], life := Grace(s.life.g, s.life.after))
  {
  }

  lemma LooksReaped(s: State)
    requires s.life.Grace? && s.life.g in s.reaped
    ensures Enabled(s, Look) && Do(s, Look) == s.(life := Returning(Some(s.life.g), s.life.after))
  {
  }

  lemma Asked(s: State, g: Gen, after: After)
    requires s.spec.Some? && Serves(s, g, s.spec.value) && !s.guardHeld && !after.Shutdown?
    ensures CanRun(s, [ClientStop(after, false), TakeGuard, Seal(Sealed, true, true)])
    ensures var t := Then(s, [ClientStop(after, false), TakeGuard, Seal(Sealed, true, true)]);
            t == s.(stopRequested := true, stopping := true, guardHeld := true, log := t.log, life := Publishing(g, after))
  {
    hide Do, Enabled, CanRun, Then;
    Stops(s, g, after, false);
    var s1 := Do(s, ClientStop(after, false));
    Guards(s1);
    var s2 := Do(s1, TakeGuard);
    Seals(s2);
    One(s2, Seal(Sealed, true, true));
    First(s1, TakeGuard, [Seal(Sealed, true, true)]);
    First(s, ClientStop(after, false), [TakeGuard] + [Seal(Sealed, true, true)]);
    assert [ClientStop(after, false)] + ([TakeGuard] + [Seal(Sealed, true, true)])
        == [ClientStop(after, false), TakeGuard, Seal(Sealed, true, true)];
  }

  lemma Termed(s: State, g: Gen, after: After)
    requires s.life == Publishing(g, after) && g !in s.reaped
    ensures CanRun(s, [Publish, Look, Signal(true)])
    ensures var t := Then(s, [Publish, Look, Signal(true)]);
            t == s.(guardHeld := false, durable := s.durable + {g}, log := t.log, life := Grace(g, after))
  {
    hide Do, Enabled, CanRun, Then;
    Publishes(s);
    var s1 := Do(s, Publish);
    Looks(s1);
    var s2 := Do(s1, Look);
    Terms(s2);
    One(s2, Signal(true));
    First(s1, Look, [Signal(true)]);
    First(s, Publish, [Look] + [Signal(true)]);
    assert [Publish] + ([Look] + [Signal(true)]) == [Publish, Look, Signal(true)];
  }

  /** Asked to stop, the engine seals its account, is signalled and dies in the grace time; the stop is about to
      return. */
  lemma StopReaps(s: State, g: Gen, after: After) returns (path: seq<Step>)
    requires s.spec.Some? && Serves(s, g, s.spec.value) && !s.guardHeld && g !in s.reaped && !after.Shutdown?
    ensures CanRun(s, path) && path != [] && path[0] == ClientStop(after, false)
    ensures var t := Then(s, path);
      && t.life == Returning(Some(g), after) && t.child == None && t.record == None && g in t.reaped && g !in t.alive
      && t.next == s.next && !t.starting && !t.stopping && t.stopRequested && t.shutdownRequested == s.shutdownRequested
      && t.restarts == s.restarts && g in t.monitors && t.monitors[g] == Deciding(true, true)
  {
    hide Do, Enabled, CanRun, Then;
    Asked(s, g, after);
    var p, q := [ClientStop(after, false), TakeGuard, Seal(Sealed, true, true)], [Publish, Look, Signal(true)];
    var s1 := Then(s, p);
    Termed(s1, g, after);
    var s2 := Then(s1, q);
    Dies(s2, g);
    var s3 := Then(s2, Dying(g));
    LooksReaped(s3);
    One(s3, Look);
    ThenMore(s2, Dying(g), [Look]);
    ThenMore(s1, q, Dying(g) + [Look]);
    ThenMore(s, p, q + (Dying(g) + [Look]));
    path := p + (q + (Dying(g) + [Look]));
  }

  lemma ReturnsDone(s: State)
    requires s.life.Returning? && s.life.after.JustStop?
    ensures Enabled(s, Return) && Do(s, Return) == s.(log := s.log + [StopReturned(s.life.found)], life := Idle)
  {
  }

  lemma ReturnsToStart(s: State)
    requires s.life.Returning? && s.life.after.SwitchTo? && !s.shutdownRequested && s.child == None
    ensures Enabled(s, Return) && Do(s, Return).life == Spawning(s.life.after.spec) && Do(s, Return).next == s.next
  {
  }

  /** A stop ends with no engine, none named in the state file, and no restart to come. */
  lemma StopEnds(s: State, g: Gen) returns (path: seq<Step>)
    requires s.spec.Some? && Serves(s, g, s.spec.value) && !s.guardHeld && g !in s.reaped
    ensures CanRun(s, path)
    ensures var t := Then(s, path);
      && t.life == Idle && t.child == None && t.record == None && g in t.reaped && g !in t.alive
      && StopReturned(Some(g)) in t.log && t.restarts == s.restarts
  {
    hide Do, Enabled, CanRun, Then;
    var p := StopReaps(s, g, JustStop);
    var t := Then(s, p);
    ReturnsDone(t);
    One(t, Return);
    ThenMore(s, p, [Return]);
    path := p + [Return];
  }

  /** A switch ends with a new engine that serves the model asked for. */
  lemma SwitchServes(s: State, g: Gen, spec: Spec) returns (path: seq<Step>)
    requires s.spec.Some? && Serves(s, g, s.spec.value) && !s.guardHeld && g !in s.reaped && !s.shutdownRequested
    ensures CanRun(s, path) && path != [] && path[0] == ClientStop(SwitchTo(spec), false) && Serves(Then(s, path), s.next, spec)
  {
    hide Do, Enabled, CanRun, Then;
    var p := StopReaps(s, g, SwitchTo(spec));
    var t := Then(s, p);
    ReturnsToStart(t);
    StartingServes(Do(t, Return), spec);
    First(t, Return, STARTING);
    ThenMore(s, p, [Return] + STARTING);
    path := p + ([Return] + STARTING);
  }

  // ---- two races ----

  /** A restart is of the model that was served last, which need not be the one that crashed: the crashed engine
      served spec, a client started another model before the monitor's thread read what to restart. */
  lemma RestartMayBeOfAnother(s: State, g: Gen, spec: Spec, other: Spec) returns (path: seq<Step>)
    requires Serves(s, g, spec) && !s.guardHeld && !s.stopRequested && !s.shutdownRequested && s.autoRestart && g < s.next
    ensures CanRun(s, path) && CanRun(s, path + [Relaunch(g)]) && Dying(g) <= path
    ensures Serves(Then(s, path), s.next, other) && Then(s, path + [Relaunch(g)]).restarts == s.restarts + [other]
  {
    hide Do, Enabled, CanRun, Then;
    Dies(s, g);
    var t := Then(s, Dying(g));
    Decides(t, g);
    var t1 := Do(t, Decide(g));
    StartServes(t1, other);
    var start := [ClientStart(other)] + STARTING;
    var t2 := Then(t1, start);
    Relaunches(t2, g);
    One(t2, Relaunch(g));
    First(t, Decide(g), start);
    ThenMore(s, Dying(g), [Decide(g)] + start);
    path := Dying(g) + ([Decide(g)] + start);
    ThenMore(s, path, [Relaunch(g)]);
  }

  /** The state file need not name the current engine: the monitor of a dead one clears it after a new one was
      written to it. */
  lemma RecordMayVanish(s: State, g: Gen, spec: Spec, other: Spec) returns (path: seq<Step>)
    requires Serves(s, g, spec) && !s.guardHeld && !s.stopRequested && !s.shutdownRequested && g < s.next
    ensures CanRun(s, path)
    ensures var t := Then(s, path); t.child == Some(s.next) && s.next in t.alive && t.life == Idle && t.record == None
  {
    hide Do, Enabled, CanRun, Then;
    Noticed(s, g);
    var p := [Exit(g), Wake(g), CrashReceipt(g, Stored)];
    var t := Then(s, p);
    Forgets(t, g);
    var t1 := Do(t, Forget(g));
    StartServes(t1, other);
    var start := [ClientStart(other)] + STARTING;
    var t2 := Then(t1, start);
    Unnames(t2, g);
    One(t2, ClearRecord(g));
    ThenMore(t1, start, [ClearRecord(g)]);
    First(t, Forget(g), start + [ClearRecord(g)]);
    ThenMore(s, p, [Forget(g)] + (start + [ClearRecord(g)]));
    path := p + ([Forget(g)] + (start + [ClearRecord(g)]));
  }
}
