/**
 * The Codex runtime object, one method per stretch of code between two awaits. Each method is
 * one event of `CodexLifecycle`, and every one keeps the ownership invariant.
 */
module CodexRuntime {
  import opened Wrappers
  import opened CodexLifecycle
  import opened CodexLifecycleSafety

  class CodexRuntime {
    var process: Option<Proc>
    var client: Option<Client>
    var stopping: bool
    var generation: nat
    var status: Status
    var startOutcome: bool
    var startupTask: Start
    var restarts: map<RestartId, Restart>
    var nextRestart: nat
    var restarting: bool
    var restartTimer: bool
    var stopTask: Stop
    var fence: Fence
    var nextProc: nat
    var nextClient: nat
    ghost var created: set<Proc>
    ghost var reaped: set<Proc>

    constructor ()
      ensures Now() == INITIAL && Inv(Now())
      ensures !stopping && Current(Now(), generation) && status == Declared && !startOutcome && startupTask == NoStart
      ensures process == None && client == None && created == {} && restarts == map[] && !restartTimer && !restarting
    {
      process, client, stopping, generation, status := None, None, false, 0, Declared;
      startOutcome, startupTask, restarts, nextRestart := false, NoStart, map[], 0;
      restarting, restartTimer, stopTask, fence, nextProc, nextClient := false, false, NoStop, FenceOpen, 0, 0;
      created, reaped := {}, {};
    }

    ghost function Now(): State
      reads this
    {
      State(process, client, stopping, generation, status, startOutcome, startupTask, restarts, nextRestart,
            restarting, restartTimer, stopTask, fence, created, reaped, nextProc, nextClient)
    }

    // ---- Shared stretches ----

    method SetStatus(s: Status)
      modifies this`status
      ensures Now() == CodexLifecycle.SetStatus(old(Now()), s)
    {
      if fence.FenceOpen? {
        status := s;
      }
    }

    /** The fence's close: refuse input, cancel a pending restart and begin its one teardown. */
    method CloseFence()
      modifies this`fence, this`stopping, this`generation, this`restartTimer
      ensures Now() == WriteFailed(old(Now()))
      ensures Fences(old(Now()), Now())
    {
      hide Fences;
      FenceMeans(Now());
      if fence.FenceOpen? {
        stopping := true;
        generation := generation + 1;
        restartTimer := false;
        fence := FenceTearing(Teardown(process, client));
      }
    }

    method FinishTeardown(t: Teardown, wasReaped: bool, closed: bool)
      modifies this`process, this`client, this`reaped
      ensures Now() == Torn(old(Now()), t, wasReaped, closed)
      ensures LetsGo(old(Now()), Now(), t, wasReaped, closed)
    {
      TornLetsGo(Now(), t, wasReaped, closed);
      hide LetsGo;
      if closed && client == t.client {
        client := None;
      }
      if wasReaped {
        if t.process.Some? {
          reaped := reaped + {t.process.value};
        }
        if process == t.process {
          process := None;
        }
      }
    }

    predicate IsCurrent(gen: nat)
      reads this
    {
      !stopping && fence.FenceOpen? && gen == generation
    }

    /** Construct the process; refused unless the last one is proved gone. */
    method StartCodexRuntime(gen: nat) returns (ok: bool)
      modifies this`process, this`created, this`nextProc
      ensures ok == MaySpawn(old(Now()), gen)
      ensures Now() == if ok then Spawn(old(Now())) else old(Now())
      ensures ok ==> CreatesOne(old(Now()), Now(), gen)
    {
      hide CreatesOne;
      if !IsCurrent(gen) || process.Some? {
        return false;
      }
      SpawnMeans(Now(), gen);
      var p := Proc(nextProc);
      nextProc := nextProc + 1;
      created := created + {p};
      process := Some(p);
      return true;
    }

    // ---- start() ----

    method Start()
      requires Inv(Now())
      modifies this
      ensures Now() == StartCalled(old(Now()))
      ensures Keeps(old(Now()), Now()) && Inv(Now())
      ensures Supersedes(old(Now()), Now())
    {
      hide Inv, Keeps, Supersedes;
      StartMeans(Now());
      NextInv(Now(), EStart);
      if startupTask != NoStart || stopping || stopTask != NoStop || status == Stopped || (status == Ready && startOutcome) {
        return;
      }
      restarting := false;
      generation := generation + 1;
      restartTimer := false;
      startupTask := StartPublishing(generation);
      SetStatus(Launching);
    }

    method CleanupOnFailure()
      modifies this`restartTimer, this`startupTask, this`stopping
      ensures Now() == StartClean(old(Now()))
    {
      restartTimer := false;
      startupTask := StartCleaning(stopping, Teardown(process, client));
      stopping := true;
    }

    method FailStart(gen: nat)
      modifies this`status, this`restartTimer, this`startupTask, this`stopping
      ensures Now() == StartFailed(old(Now()), gen)
    {
      if !stopping && gen == generation {
        SetStatus(Degraded);
        startupTask := StartDegrading;
      } else {
        CleanupOnFailure();
      }
    }

    method OnStartPublished(ok: bool)
      requires Inv(Now()) && startupTask.StartPublishing?
      modifies this
      ensures Now() == StartPublished(old(Now()), ok)
      ensures Keeps(old(Now()), Now()) && Inv(Now())
      ensures SpawnsOrFails(old(Now()), Now(), ok)
    {
      hide Inv, Keeps, Fences, CreatesOne, SpawnsOrFails;
      StartPublishedMeans(Now(), ok);
      NextInv(Now(), EStartPublished(ok));
      var gen := startupTask.gen;
      if !ok {
        CloseFence();
        startupTask := NoStart;
        return;
      }
      var spawned := StartCodexRuntime(gen);
      if spawned {
        startupTask := StartConnecting(gen);
      } else {
        FailStart(gen);
      }
    }

    method OnStartConnected(progress: Progress)
      requires Inv(Now()) && startupTask.StartConnecting?
      modifies this
      ensures Now() == StartConnected(old(Now()), progress)
      ensures Keeps(old(Now()), Now()) && Inv(Now())
      ensures Connects(old(Now()), Now(), progress)
    {
      hide Inv, Keeps, Fences, Connects;
      ConnectedMeans(Now(), progress);
      NextInv(Now(), EStartConnected(progress));
      var gen := startupTask.gen;
      if progress == WriteBroke {
        CloseFence();
        FailStart(gen);
      } else if progress == Broke || !IsCurrent(gen) {
        FailStart(gen);
      } else if progress == Opened {
        client := Some(Client(nextClient));
        nextClient := nextClient + 1;
      } else if progress == Connected {
        SetStatus(Ready);
        startupTask := StartMarking(gen);
      }
    }

    method OnStartMarked(ok: bool)
      requires Inv(Now()) && startupTask.StartMarking?
      modifies this
      ensures Now() == StartMarked(old(Now()), ok)
      ensures Keeps(old(Now()), Now()) && Inv(Now())
      ensures StartsOrFails(old(Now()), Now(), ok)
    {
      hide Inv, Keeps, Fences, StartsOrFails;
      StartMarkedMeans(Now(), ok);
      NextInv(Now(), EStartMarked(ok));
      var gen := startupTask.gen;
      if !ok {
        CloseFence();
        FailStart(gen);
      } else if !IsCurrent(gen) {
        FailStart(gen);
      } else {
        startupTask := NoStart;
        startOutcome := true;
      }
    }

    method OnStartDegraded(ok: bool)
      requires Inv(Now()) && startupTask.StartDegrading?
      modifies this
      ensures Now() == StartDegraded(old(Now()), ok)
      ensures Keeps(old(Now()), Now()) && Inv(Now())
      ensures CleansAfterReport(old(Now()), Now(), ok)
    {
      hide Inv, Keeps, Fences, CleansAfterReport;
      StartDegradedMeans(Now(), ok);
      NextInv(Now(), EStartDegraded(ok));
      if !ok {
        CloseFence();
      }
      CleanupOnFailure();
    }

    method OnStartCleaned(wasReaped: bool, closed: bool, rest: bool)
      requires Inv(Now()) && startupTask.StartCleaning?
      modifies this
      ensures Now() == StartCleaned(old(Now()), wasReaped, closed, rest)
      ensures Keeps(old(Now()), Now()) && Inv(Now())
      ensures created == old(created) && startupTask == NoStart
      ensures !stopping <==> wasReaped && closed && rest && !old(startupTask).wasStopping
      ensures wasReaped && Covers(old(Now()), old(startupTask).t) ==> NoneAlive(Now())
      ensures GivesBack(old(Now()), Now(), old(startupTask).t, wasReaped, closed)
    {
      hide Inv, Keeps, LetsGo, Torn, GivesBack;
      StartCleanedMeans(Now(), wasReaped, closed, rest);
      NextInv(Now(), EStartCleaned(wasReaped, closed, rest));
      var wasStopping := startupTask.wasStopping;
      FinishTeardown(startupTask.t, wasReaped, closed);
      stopping := if wasReaped && closed && rest then wasStopping else true;
      startupTask := NoStart;
    }

    // ---- Restarts ----

    method ScheduleRestart()
      modifies this`status, this`restartTimer
      ensures Now() == Disconnected(old(Now()))
      ensures old(Inv(Now())) ==> Keeps(old(Now()), Now())
      ensures stopping || restartTimer || restarting
      ensures old(stopping || restartTimer || restarting) ==> Now() == old(Now())
      ensures !old(stopping || restartTimer || restarting) ==> restartTimer && (fence == FenceOpen ==> status == Degraded)
    {
      hide Keeps, Inv;
      ScheduleMeans(Now());
      if stopping || restartTimer || restarting {
        return;
      }
      SetStatus(Degraded);
      restartTimer := true;
    }

    method OnDisconnected()
      requires Inv(Now()) && (process.Some? || client.Some?)
      modifies this
      ensures Now() == Disconnected(old(Now()))
      ensures Keeps(old(Now()), Now()) && Inv(Now())
    {
      hide Inv, Keeps;
      NextInv(Now(), if process.Some? then EChildExit else EClientClose);
      ScheduleRestart();
    }

    method OnTimer()
      requires Inv(Now()) && restartTimer
      modifies this
      ensures Now() == TimerFired(old(Now()))
      ensures Keeps(old(Now()), Now()) && Inv(Now())
      ensures RestartsHere(old(Now()), Now())
    {
      hide Inv, Keeps, RestartsHere;
      TimerMeans(Now());
      NextInv(Now(), ETimer);
      restartTimer := false;
      if stopping {
        return;
      }
      restarting := true;
      restarts := restarts[RestartId(nextRestart) := Restart(generation, Publishing)];
      nextRestart := nextRestart + 1;
      SetStatus(Launching);
    }

    method MoveRestart(id: RestartId, phase: RestartPhase)
      requires id in restarts
      modifies this`restarts
      ensures Now() == At(old(Now()), id, phase)
    {
      restarts := restarts[id := restarts[id].(phase := phase)];
    }

    method EndRestart(id: RestartId)
      modifies this`restarts, this`restarting
      ensures Now() == RestartOver(old(Now()), id)
    {
      restarts := restarts - {id};
      restarting := false;
    }

    method OnRestartPublished(id: RestartId, ok: bool)
      requires Inv(Now()) && id in restarts && restarts[id].phase.Publishing?
      modifies this
      ensures Now() == RestartPublished(old(Now()), id, ok)
      ensures Keeps(old(Now()), Now()) && Inv(Now())
      ensures TearsOrCleans(old(Now()), Now(), id, ok)
    {
      hide Inv, Keeps, Fences, TearsOrCleans;
      RestartPublishedMeans(Now(), id, ok);
      NextInv(Now(), ERestartPublished(id, ok));
      if !ok {
        CloseFence();
        MoveRestart(id, Cleaning(Teardown(process, client)));
      } else {
        MoveRestart(id, Tearing(Teardown(process, client)));
      }
    }

    method OnRestartTorn(id: RestartId, wasReaped: bool, closed: bool, rest: bool)
      requires Inv(Now()) && id in restarts && restarts[id].phase.Tearing?
      modifies this
      ensures Now() == RestartTorn(old(Now()), id, wasReaped, closed, rest)
      ensures Keeps(old(Now()), Now()) && Inv(Now())
      ensures SpawnsSafely(old(Now()), Now(), id, wasReaped && closed && rest)
      ensures GivesBack(old(Now()), Now(), old(restarts)[id].phase.t, wasReaped, closed)
    {
      hide Inv, Keeps, LetsGo, CreatesOne, Torn, SpawnsSafely, GivesBack;
      RestartTornMeans(Now(), id, wasReaped, closed, rest);
      NextInv(Now(), ERestartTorn(id, wasReaped, closed, rest));
      FinishTeardown(restarts[id].phase.t, wasReaped, closed);
      var spawned := false;
      if wasReaped && closed && rest {
        spawned := StartCodexRuntime(restarts[id].gen);
      }
      MoveRestart(id, if spawned then Connecting else Cleaning(Teardown(process, client)));
    }

    method OnRestartConnected(id: RestartId, progress: Progress)
      requires Inv(Now()) && id in restarts && restarts[id].phase.Connecting?
      modifies this
      ensures Now() == RestartConnected(old(Now()), id, progress)
      ensures Keeps(old(Now()), Now()) && Inv(Now())
      ensures RestartConnects(old(Now()), Now(), id, progress)
    {
      hide Inv, Keeps, Fences, RestartConnects;
      RestartConnectedMeans(Now(), id, progress);
      NextInv(Now(), ERestartConnected(id, progress));
      if progress == WriteBroke {
        CloseFence();
        MoveRestart(id, Cleaning(Teardown(process, client)));
      } else if progress == Broke || !IsCurrent(restarts[id].gen) {
        MoveRestart(id, Cleaning(Teardown(process, client)));
      } else if progress == Opened {
        client := Some(Client(nextClient));
        nextClient := nextClient + 1;
      } else if progress == Connected {
        SetStatus(Ready);
        MoveRestart(id, Marking);
      }
    }

    method OnRestartMarked(id: RestartId, ok: bool)
      requires Inv(Now()) && id in restarts && restarts[id].phase.Marking?
      modifies this
      ensures Now() == RestartMarked(old(Now()), id, ok)
      ensures Keeps(old(Now()), Now()) && Inv(Now())
      ensures EndsOrCleans(old(Now()), Now(), id, ok)
    {
      hide Inv, Keeps, Fences, EndsOrCleans;
      RestartMarkedMeans(Now(), id, ok);
      NextInv(Now(), ERestartMarked(id, ok));
      if !ok {
        CloseFence();
      }
      if !ok || !IsCurrent(restarts[id].gen) {
        MoveRestart(id, Cleaning(Teardown(process, client)));
      } else {
        EndRestart(id);
      }
    }

    method OnRestartCleaned(id: RestartId, wasReaped: bool, closed: bool)
      requires Inv(Now()) && id in restarts && restarts[id].phase.Cleaning?
      modifies this
      ensures Now() == RestartCleaned(old(Now()), id, wasReaped, closed)
      ensures Keeps(old(Now()), Now()) && Inv(Now())
      ensures CleansUp(old(Now()), Now(), id, wasReaped)
      ensures GivesBack(old(Now()), Now(), old(restarts)[id].phase.t, wasReaped, closed)
    {
      hide Inv, Keeps, LetsGo, Torn, CleansUp, GivesBack;
      RestartCleanedMeans(Now(), id, wasReaped, closed);
      RestartCleanedGivesBack(Now(), id, wasReaped, closed);
      NextInv(Now(), ERestartCleaned(id, wasReaped, closed));
      FinishTeardown(restarts[id].phase.t, wasReaped, closed);
      if stopping || restarts[id].gen != generation {
        EndRestart(id);
      } else {
        SetStatus(Degraded);
        MoveRestart(id, Degrading);
      }
    }

    method OnRestartDegraded(id: RestartId, ok: bool)
      requires Inv(Now()) && id in restarts && restarts[id].phase.Degrading?
      modifies this
      ensures Now() == RestartDegraded(old(Now()), id, ok)
      ensures Keeps(old(Now()), Now()) && Inv(Now())
      ensures SchedulesNext(old(Now()), Now(), id)
    {
      hide Inv, Keeps, Fences, SchedulesNext;
      RestartDegradedMeans(Now(), id, ok);
      NextInv(Now(), ERestartDegraded(id, ok));
      if !ok {
        CloseFence();
      }
      EndRestart(id);
      ScheduleRestart();
    }

    // ---- stop() ----

    method Stop()
      requires Inv(Now())
      modifies this
      ensures Now() == StopCalled(old(Now()))
      ensures Keeps(old(Now()), Now()) && Inv(Now())
      ensures created == old(created)
      ensures old(stopTask) != NoStop ==> Now() == old(Now())
      ensures old(stopTask) == NoStop ==>
                && (if old(Fenced(Now())) then stopTask == FatalJoining
                    else stopTask.StopTearing? && stopTask.t.process == process && stopTask.t.client == client
                         && status == Closing && !restartTimer)
                && (forall gen :: !Current(Now(), gen))
                && (Sealed(Now()) <==> !CleaningUp(old(Now())))
                && generation == old(generation) + (if old(stopping || Fenced(Now())) then 0 else 1)
    {
      hide Inv, Keeps;
      StopMeans(Now());
      NextInv(Now(), EStop);
      if stopTask != NoStop {
        return;
      }
      if !fence.FenceOpen? {
        stopTask := FatalJoining;
      } else if status != Stopped {
        BeginStop();
      }
    }

    /** Refuse input, and begin the teardown of what the runtime holds now. */
    method BeginStop()
      requires fence.FenceOpen? && stopTask == NoStop && status != Stopped
      modifies this`stopping, this`generation, this`restartTimer, this`stopTask, this`status
      ensures Now() == StopCalled(old(Now()))
    {
      if !stopping {
        stopping, generation := true, generation + 1;
      }
      restartTimer, status := false, Closing;
      stopTask := StopTearing(Teardown(process, client), !startupTask.StartCleaning? || startupTask.wasStopping);
    }

    method OnStopTorn(wasReaped: bool, closed: bool, rest: bool)
      requires Inv(Now()) && stopTask.StopTearing?
      modifies this
      ensures Now() == StopTorn(old(Now()), wasReaped, closed, rest)
      ensures Keeps(old(Now()), Now()) && Inv(Now())
      ensures created == old(created)
      ensures if wasReaped && closed && rest then stopTask == StopSettling(old(stopTask).sealed) else stopTask == NoStop
      ensures stopTask.StopSettling? && stopTask.sealed ==> NoneAlive(Now()) && Sealed(Now())
      ensures GivesBack(old(Now()), Now(), old(stopTask).t, wasReaped, closed)
    {
      hide Inv, Keeps, LetsGo, Torn, GivesBack;
      StopTornMeans(Now(), wasReaped, closed, rest);
      NextInv(Now(), EStopTorn(wasReaped, closed, rest));
      FinishTeardown(stopTask.t, wasReaped, closed);
      stopTask := if wasReaped && closed && rest then StopSettling(stopTask.sealed) else NoStop;
    }

    method OnStopSettled()
      requires Inv(Now()) && stopTask.StopSettling?
      modifies this
      ensures Now() == StopSettled(old(Now()))
      ensures Keeps(old(Now()), Now()) && Inv(Now())
      ensures Resolves(old(Now()), Now())
    {
      hide Inv, Keeps, Resolves;
      StopSettledMeans(Now());
      NextInv(Now(), EStopSettled);
      SetStatus(Stopped);
      stopTask := StopResolved(stopTask.sealed);
    }

    method OnFatalJoined()
      requires Inv(Now()) && stopTask.FatalJoining? && (fence.FenceDone? || fence.FenceFailed?)
      modifies this
      ensures Now() == FatalJoined(old(Now()))
      ensures Keeps(old(Now()), Now()) && Inv(Now())
      ensures JoinsTeardown(old(Now()), Now())
    {
      hide Inv, Keeps, JoinsTeardown;
      FatalJoinedMeans(Now());
      NextInv(Now(), EFatalJoined);
      if fence.FenceDone? {
        status := Stopped;
        stopTask := StopResolved(true);
      } else {
        stopTask := FatalRetrying(Teardown(process, client));
      }
    }

    method OnFatalRetried(wasReaped: bool, closed: bool, rest: bool)
      requires Inv(Now()) && stopTask.FatalRetrying?
      modifies this
      ensures Now() == FatalRetried(old(Now()), wasReaped, closed, rest)
      ensures Keeps(old(Now()), Now()) && Inv(Now())
      ensures ResolvesOnlyIf(old(Now()), Now(), wasReaped && closed && rest)
      ensures GivesBack(old(Now()), Now(), old(stopTask).t, wasReaped, closed)
    {
      hide Inv, Keeps, LetsGo, Torn, ResolvesOnlyIf, GivesBack;
      FatalRetriedMeans(Now(), wasReaped, closed, rest);
      NextInv(Now(), EFatalRetried(wasReaped, closed, rest));
      FinishTeardown(stopTask.t, wasReaped, closed);
      if wasReaped && closed && rest {
        status := Stopped;
        stopTask := StopResolved(true);
      } else {
        stopTask := NoStop;
      }
    }

    method OnFenceTorn(wasReaped: bool, closed: bool, rest: bool)
      requires Inv(Now()) && fence.FenceTearing?
      modifies this
      ensures Now() == FenceTorn(old(Now()), wasReaped, closed, rest)
      ensures Keeps(old(Now()), Now()) && Inv(Now())
      ensures TearsDown(old(Now()), Now(), wasReaped && closed && rest)
      ensures GivesBack(old(Now()), Now(), old(fence).t, wasReaped, closed)
    {
      hide Inv, Keeps, LetsGo, Torn, TearsDown, GivesBack;
      FenceTornMeans(Now(), wasReaped, closed, rest);
      NextInv(Now(), EFenceTorn(wasReaped, closed, rest));
      FinishTeardown(fence.t, wasReaped, closed);
      if wasReaped && closed && rest {
        status := Stopped;
        fence := FenceDone;
      } else {
        fence := FenceFailed;
      }
    }

    method OnWriteFailed()
      requires Inv(Now())
      modifies this
      ensures Now() == WriteFailed(old(Now()))
      ensures Keeps(old(Now()), Now()) && Inv(Now())
    {
      hide Inv, Keeps, Fences;
      NextInv(Now(), EWriteFailed);
      CloseFence();
    }
  }

  // ---- What the stretches come to ----

  /**
   * The first close bars every spawn, outdates every generation, cancels the pending restart and
   * begins a teardown of all that is held; a later one changes nothing.
   */
  ghost predicate Fences(before: State, after: State) {
    && (Inv(before) ==> Keeps(before, after))
    && Sealed(after) && (forall gen :: !Current(after, gen))
    && after.created == before.created && after.process == before.process && after.status == before.status
    && if before.fence == FenceOpen then
         && after.fence == FenceTearing(Teardown(before.process, before.client))
         && after.stopping && !after.timer && after.generation == before.generation + 1
       else after == before
  }

  lemma FenceMeans(s: State)
    ensures Fences(s, WriteFailed(s))
  {
    if Inv(s) {
      WriteFailedInv(s);
    }
    assert Sealed(WriteFailed(s));
    hide Inv, Keeps;
  }

  /**
   * A teardown lets go only of what it captured, and of the process only on a successful reap;
   * ownership is kept, and nothing is alive once a teardown that captured all there was has reaped.
   */
  ghost predicate LetsGo(before: State, after: State, t: Teardown, wasReaped: bool, closed: bool) {
    && after.created == before.created && GivesBack(before, after, t, wasReaped, closed)
    && (Inv(before) ==> Keeps(before, after))
    && (wasReaped && Covers(before, t) ==> NoneAlive(after))
  }

  /** What was captured is let go, each exactly when its part of the teardown succeeded; anything else stays. */
  ghost predicate GivesBack(before: State, after: State, t: Teardown, wasReaped: bool, closed: bool) {
    && after.reaped == before.reaped + (if wasReaped then Held(t.process) else {})
    && after.client == (if closed && before.client == t.client then None else before.client)
    && (after.created == before.created ==>
          after.process == if wasReaped && before.process == t.process then None else before.process)
  }

  lemma TornLetsGo(s: State, t: Teardown, wasReaped: bool, closed: bool)
    ensures LetsGo(s, Torn(s, t, wasReaped, closed), t, wasReaped, closed)
  {
    if Inv(s) {
      TornInv(s, t, wasReaped, closed);
      TornSealed(s, t, wasReaped, closed);
    }
  }

  lemma StartCleanedMeans(s: State, wasReaped: bool, closed: bool, rest: bool)
    requires s.start.StartCleaning?
    ensures wasReaped && Covers(s, s.start.t) ==> NoneAlive(StartCleaned(s, wasReaped, closed, rest))
    ensures GivesBack(s, StartCleaned(s, wasReaped, closed, rest), s.start.t, wasReaped, closed)
  {
  }

  /** Cleaning up after a restart schedules nothing, and it reports `degraded` exactly when nothing overtook it. */
  ghost predicate CleansUp(before: State, after: State, id: RestartId, wasReaped: bool)
  {
    && id in before.restarts && before.restarts[id].phase.Cleaning?
    && after.created == before.created && after.timer == before.timer
    && (id in after.restarts <==> !before.stopping && before.restarts[id].gen == before.generation)
    && (id in after.restarts ==>
          after.restarts[id] == Restart(before.generation, Degrading) && (!Fenced(before) ==> after.status == Degraded))
    && (id !in after.restarts ==> !after.restarting && after.restarts == before.restarts - {id})
    && (after.status != before.status ==> after.status == Degraded && id in after.restarts)
    && (wasReaped && Covers(before, before.restarts[id].phase.t) ==> NoneAlive(after))
  }

  lemma RestartCleanedGivesBack(s: State, id: RestartId, wasReaped: bool, closed: bool)
    requires id in s.restarts && s.restarts[id].phase.Cleaning?
    ensures GivesBack(s, RestartCleaned(s, id, wasReaped, closed), s.restarts[id].phase.t, wasReaped, closed)
  {
  }

  lemma RestartCleanedMeans(s: State, id: RestartId, wasReaped: bool, closed: bool)
    requires id in s.restarts && s.restarts[id].phase.Cleaning?
    ensures CleansUp(s, RestartCleaned(s, id, wasReaped, closed), id, wasReaped)
  {
  }

  /** A process is created only in the current generation and when none is held; then none other is alive. */
  ghost predicate CreatesOne(before: State, after: State, gen: nat) {
    && before.process.None? && Current(after, gen)
    && after.process.Some? && after.created == before.created + {after.process.value}
    && (Inv(before) ==> Inv(after) && NoneAlive(before) && after.process.value !in before.created)
  }

  lemma SpawnMeans(s: State, gen: nat)
    requires MaySpawn(s, gen)
    ensures CreatesOne(s, Spawn(s), gen)
  {
    if Inv(s) {
      SpawnInv(s, gen);
    }
  }

  /**
   * A runtime that is starting, stopping or stopped refuses; any other start outdates every
   * earlier generation and takes the place of a scheduled restart. Nothing is spawned yet.
   */
  ghost predicate Supersedes(before: State, after: State) {
    && after.created == before.created && after.restarts == before.restarts
    && ((before.start != NoStart || before.stopping || before.stop != NoStop || before.status == Stopped
         || (before.status == Ready && before.startOutcome)) <==> after == before)
    && (after != before ==>
          && after.generation == before.generation + 1 && (!Fenced(before) ==> after.status == Launching)
          && after.start == StartPublishing(after.generation) && !after.timer && !after.restarting
          && forall gen: nat | gen <= before.generation :: !Current(after, gen))
  }

  lemma StartMeans(s: State)
    ensures Supersedes(s, StartCalled(s))
  {
  }

  /** A timer that fires begins one restart, of the generation it fires in, unless input is refused by now. */
  ghost predicate RestartsHere(before: State, after: State) {
    && !after.timer && after.created == before.created && after.generation == before.generation
    && if before.stopping then after.restarts == before.restarts
       else
         && after.restarting && (!Fenced(before) ==> after.status == Launching) && after.nextRestart > before.nextRestart
         && after.restarts == before.restarts[RestartId(before.nextRestart) := Restart(before.generation, Publishing)]
  }

  lemma TimerMeans(s: State)
    requires s.timer
    ensures RestartsHere(s, TimerFired(s))
  {
  }

  /** A start that failed reports itself degraded, unless it was overtaken; either way it then cleans up what is there. */
  ghost predicate StartFails(before: State, after: State, gen: nat) {
    if !before.stopping && gen == before.generation then
      after.start == StartDegrading && after.stopping == before.stopping && (!Fenced(before) ==> after.status == Degraded)
    else StartCleans(before, after)
  }

  /** The cleanup raises the stop flag, remembers it, and captures all that is held. */
  ghost predicate StartCleans(before: State, after: State) {
    && after.start == StartCleaning(before.stopping, Teardown(before.process, before.client))
    && after.stopping && !after.timer && after.status == before.status
  }

  /** Nothing is let go, and nothing else is created. */
  ghost predicate HoldsOn(before: State, after: State) {
    after.created == before.created && after.process == before.process && after.client == before.client && after.reaped == before.reaped
  }

  ghost predicate SpawnsOrFails(before: State, after: State, ok: bool) {
    && before.start.StartPublishing?
    && if !ok then HoldsOn(before, after) && Fenced(after) && after.start == NoStart
       else if Current(before, before.start.gen) && before.process.None? then
         CreatesOne(before, after, before.start.gen) && after.start == StartConnecting(before.start.gen)
       else HoldsOn(before, after) && StartFails(before, after, before.start.gen)
  }

  lemma StartPublishedMeans(s: State, ok: bool)
    requires s.start.StartPublishing?
    ensures SpawnsOrFails(s, StartPublished(s, ok), ok)
  {
    var gen := s.start.gen;
    if ok && MaySpawn(s, gen) {
      SpawnMeans(s, gen);
      CreatesStarting(s, Spawn(s), StartPublished(s, ok), gen);
    }
    hide CreatesOne;
  }

  /** Whoever spawned does not matter to what was created. */
  lemma CreatesStarting(s: State, t: State, u: State, gen: nat)
    requires CreatesOne(s, t, gen) && u == t.(start := u.start) && !u.start.StartCleaning?
    ensures CreatesOne(s, u, gen)
  {
  }

  /** The client is opened, and readiness reported, only in the current generation; a failed write also closes the fence. */
  ghost predicate Connects(before: State, after: State, progress: Progress) {
    && before.start.StartConnecting?
    && after.created == before.created && after.process == before.process
    && if progress == WriteBroke then
         Fenced(after) && (after.start.StartCleaning? || after.start == StartDegrading) && after.client == before.client
       else if progress == Broke || !Current(before, before.start.gen) then
         StartFails(before, after, before.start.gen) && after.client == before.client
       else
         && !after.stopping && after.generation == before.generation
         && (progress == Opened ==> Opens(before, after) && after.start == before.start)
         && (progress == Advanced ==> after == before)
         && (progress == Connected ==> after == before.(start := StartMarking(before.start.gen), status := Ready))
  }

  /** The client held is a new one. */
  ghost predicate Opens(before: State, after: State) {
    after.client.Some? && before.nextClient <= after.client.value.n < after.nextClient && after.status == before.status
  }

  lemma ConnectedMeans(s: State, progress: Progress)
    requires s.start.StartConnecting?
    ensures Connects(s, StartConnected(s, progress), progress)
  {
  }

  /** The start is over and counts as done exactly when its report landed in the current generation. */
  ghost predicate StartsOrFails(before: State, after: State, ok: bool) {
    && before.start.StartMarking? && HoldsOn(before, after)
    && if ok && Current(before, before.start.gen) then after == before.(start := NoStart, startOutcome := true)
       else
         && (ok ==> StartFails(before, after, before.start.gen))
         && (!ok ==> Fenced(after) && (after.start.StartCleaning? || after.start == StartDegrading))
  }

  lemma StartMarkedMeans(s: State, ok: bool)
    requires s.start.StartMarking?
    ensures StartsOrFails(s, StartMarked(s, ok), ok)
  {
  }

  ghost predicate CleansAfterReport(before: State, after: State, ok: bool) {
    && HoldsOn(before, after) && after.start.StartCleaning? && after.stopping && !after.timer
    && after.start.t == Teardown(before.process, before.client)
    && (ok ==> StartCleans(before, after) && after.fence == before.fence)
    && (!ok ==> Fenced(after))
  }

  lemma StartDegradedMeans(s: State, ok: bool)
    ensures CleansAfterReport(s, StartDegraded(s, ok), ok)
  {
  }

  /** The restart tears down, or cleans up, all that is held. */
  ghost predicate TearsOrCleans(before: State, after: State, id: RestartId, ok: bool) {
    && id in before.restarts && id in after.restarts && HoldsOn(before, after)
    && after.restarts[id].gen == before.restarts[id].gen && (!ok ==> Fenced(after)) && (ok ==> after.fence == before.fence)
    && var t := Teardown(before.process, before.client);
       after.restarts[id].phase == if ok then Tearing(t) else Cleaning(t)
  }

  lemma RestartPublishedMeans(s: State, id: RestartId, ok: bool)
    requires id in s.restarts
    ensures TearsOrCleans(s, RestartPublished(s, id, ok), id, ok)
  {
  }

  ghost predicate RestartConnects(before: State, after: State, id: RestartId, progress: Progress) {
    && id in before.restarts && id in after.restarts && after.created == before.created && after.process == before.process
    && after.restarts[id].gen == before.restarts[id].gen
    && (progress == WriteBroke ==> Fenced(after))
    && if progress == Broke || progress == WriteBroke || !Current(before, before.restarts[id].gen) then
         after.restarts[id].phase == Cleaning(Teardown(before.process, before.client)) && after.client == before.client
       else
         && (progress == Opened ==> Opens(before, after) && after.restarts == before.restarts)
         && (progress == Advanced ==> after == before)
         && (progress == Connected ==> after.restarts[id].phase == Marking && after.status == Ready && after.client == before.client)
  }

  lemma RestartConnectedMeans(s: State, id: RestartId, progress: Progress)
    requires id in s.restarts
    ensures RestartConnects(s, RestartConnected(s, id, progress), id, progress)
  {
  }

  /** The restart is over exactly when its report landed in its own generation. */
  ghost predicate EndsOrCleans(before: State, after: State, id: RestartId, ok: bool) {
    && id in before.restarts && HoldsOn(before, after) && (!ok ==> Fenced(after))
    && if ok && Current(before, before.restarts[id].gen) then after == before.(restarts := before.restarts - {id}, restarting := false)
       else id in after.restarts && after.restarts[id].phase == Cleaning(Teardown(before.process, before.client))
  }

  lemma RestartMarkedMeans(s: State, id: RestartId, ok: bool)
    requires id in s.restarts
    ensures EndsOrCleans(s, RestartMarked(s, id, ok), id, ok)
  {
  }

  /** The failed restart is over, and unless that is refused the next one is scheduled. */
  ghost predicate SchedulesNext(before: State, after: State, id: RestartId) {
    && HoldsOn(before, after) && after.restarts == before.restarts - {id} && !after.restarting
    && (after.stopping || after.timer)
  }

  lemma RestartDegradedMeans(s: State, id: RestartId, ok: bool)
    requires id in s.restarts
    ensures SchedulesNext(s, RestartDegraded(s, id, ok), id)
  {
  }

  lemma ScheduleMeans(s: State)
    ensures Inv(s) ==> Keeps(s, Disconnected(s))
  {
    if Inv(s) {
      CallInv(s);
    }
  }

  /** A restart spawns only after a teardown that converged, in its own generation, with every earlier process reaped. */
  ghost predicate SpawnsSafely(before: State, after: State, id: RestartId, converged: bool) {
    && id in before.restarts && id in after.restarts && after.restarts[id].gen == before.restarts[id].gen
    && (after.restarts[id].phase == Connecting <==> after.created != before.created)
    && (after.created != before.created ==>
          converged && Current(after, after.restarts[id].gen) && before.created <= after.reaped)
  }

  lemma RestartTornMeans(s: State, id: RestartId, wasReaped: bool, closed: bool, rest: bool)
    requires Inv(s) && id in s.restarts && s.restarts[id].phase.Tearing?
    ensures SpawnsSafely(s, RestartTorn(s, id, wasReaped, closed, rest), id, wasReaped && closed && rest)
    ensures GivesBack(s, RestartTorn(s, id, wasReaped, closed, rest), s.restarts[id].phase.t, wasReaped, closed)
  {
    var torn := Torn(s, s.restarts[id].phase.t, wasReaped, closed);
    TornInv(s, s.restarts[id].phase.t, wasReaped, closed);
    if MaySpawn(torn, s.restarts[id].gen) {
      SpawnMeans(torn, s.restarts[id].gen);
      assert forall p | p in s.created :: p in Alive(torn) || p in torn.reaped;
    }
  }

  lemma StopMeans(s: State)
    requires Inv(s)
    ensures s.stop.NoStop? ==> !StopCalled(s).stop.NoStop? && (Sealed(StopCalled(s)) <==> !CleaningUp(s))
  {
  }

  lemma StopTornMeans(s: State, wasReaped: bool, closed: bool, rest: bool)
    requires Inv(s) && s.stop.StopTearing?
    ensures s.stop.sealed && wasReaped && closed && rest ==>
              NoneAlive(StopTorn(s, wasReaped, closed, rest)) && Sealed(StopTorn(s, wasReaped, closed, rest))
    ensures GivesBack(s, StopTorn(s, wasReaped, closed, rest), s.stop.t, wasReaped, closed)
  {
    StopTornInv(s, wasReaped, closed, rest);
  }

  /** A stop resolves exactly when its teardown converged, with nothing alive and nothing to come; else it may be retried. */
  ghost predicate ResolvesOnlyIf(before: State, after: State, converged: bool) {
    && after.created == before.created && Sealed(after)
    && (if converged then after.stop.StopResolved? && after.status == Stopped && NoneAlive(after) else after.stop == NoStop)
  }

  /** The stop has resolved, with nothing alive if it was sealed. */
  ghost predicate Resolves(before: State, after: State) {
    && before.stop.StopSettling? && after.stop == StopResolved(before.stop.sealed) && HoldsOn(before, after)
    && (!Fenced(before) ==> after.status == Stopped) && (before.stop.sealed ==> NoneAlive(after) && Sealed(after))
  }

  lemma StopSettledMeans(s: State)
    requires Inv(s) && s.stop.StopSettling?
    ensures Resolves(s, StopSettled(s))
  {
  }

  /** With the fatal teardown done the stop has resolved and nothing is alive; else what is held is torn down again. */
  ghost predicate JoinsTeardown(before: State, after: State) {
    && HoldsOn(before, after)
    && if before.fence.FenceDone? then after.stop == StopResolved(true) && after.status == Stopped && NoneAlive(after)
       else after.stop == FatalRetrying(Teardown(before.process, before.client))
  }

  lemma FatalJoinedMeans(s: State)
    requires Inv(s) && s.stop.FatalJoining? && (s.fence.FenceDone? || s.fence.FenceFailed?)
    ensures JoinsTeardown(s, FatalJoined(s))
  {
  }

  /** The fatal teardown is done exactly when it converged; then the runtime is stopped and nothing is alive. */
  ghost predicate TearsDown(before: State, after: State, converged: bool) {
    && after.created == before.created
    && if converged then after.fence == FenceDone && after.status == Stopped && NoneAlive(after)
       else after.fence == FenceFailed && after.status == before.status
  }

  lemma FenceTornMeans(s: State, wasReaped: bool, closed: bool, rest: bool)
    requires Inv(s) && s.fence.FenceTearing?
    ensures TearsDown(s, FenceTorn(s, wasReaped, closed, rest), wasReaped && closed && rest)
    ensures GivesBack(s, FenceTorn(s, wasReaped, closed, rest), s.fence.t, wasReaped, closed)
  {
    TornInv(s, s.fence.t, wasReaped, closed);
  }

  lemma FatalRetriedMeans(s: State, wasReaped: bool, closed: bool, rest: bool)
    requires Inv(s) && s.stop.FatalRetrying?
    ensures ResolvesOnlyIf(s, FatalRetried(s, wasReaped, closed, rest), wasReaped && closed && rest)
    ensures GivesBack(s, FatalRetried(s, wasReaped, closed, rest), s.stop.t, wasReaped, closed)
  {
    FatalRetriedInv(s, wasReaped, closed, rest);
  }
}
